/** What every run of a dialogue keeps, whoever pauses, resumes, stops or
    watches it, and whenever. */
module DialogueRuns {
  import opened Text
  import opened Dialogues

  // ---- The transcript ----

  /** Turns are numbered from one and alternate, the local pulse first. */
  ghost predicate WellNumbered(turns: seq<Turn>) {
    forall k :: 0 <= k < |turns| ==> turns[k].n == k + 1 && turns[k].who == if k % 2 == 0 then Local else Peer
  }

  function Upcoming(turns: seq<Turn>): Speaker { if |turns| % 2 == 0 then Local else Peer }

  /** The task is ending: it will push no further turn. */
  predicate Winding(p: Place) {
    match p
    case Closing(_) => true
    case Reading(next) => next.Guard?
    case Sending(_, next) => next.Guard?
    case Guard => true
    case Archiving => true
    case LastReading => true
    case LastSending(_) => true
    case LastTelling(_) => true
    case Gone => true
    case _ => false
  }

  predicate MaySpeak(who: Speaker, turns: seq<Turn>, max: nat) { |turns| < max && who == Upcoming(turns) }

  predicate AfterStatus(next: Place, turns: seq<Turn>, max: nat, over: bool) {
    (next.Asking? && MaySpeak(next.who, turns, max)) || (next.Guard? && over)
  }

  /** Where the task may be with `turns` spoken of at most `max`. */
  ghost predicate PlaceFits(p: Place, turns: seq<Turn>, max: nat, over: bool) {
    match p
    case Unpolled => turns == []
    case Waiting(who) => MaySpeak(who, turns, max)
    case Checking(who) => MaySpeak(who, turns, max)
    case Announcing(who) => MaySpeak(who, turns, max)
    case Asking(who) => MaySpeak(who, turns, max)
    case Pushing(who, _) => MaySpeak(who, turns, max)
    case Telling(turn) =>
      turns != [] && turn == turns[|turns| - 1] && turn.n == |turns| && Other(turn.who) == Upcoming(turns)
    case Closing(phase) => phase.IsOver() && (phase.Finished? ==> |turns| == max)
    case Reading(next) => AfterStatus(next, turns, max, over)
    case Sending(_, next) => AfterStatus(next, turns, max, over)
    case Guard => true
    case _ => over
  }

  /** A pause remembers the thinking phase it interrupted. */
  predicate PauseRemembers(d: Inner) {
    (d.phase.Paused? ==> d.beforePause.Some?) && (d.beforePause.Some? ==> d.beforePause.value.Thinking?)
  }

  ghost predicate TranscriptInv(s: State) {
    && 1 <= s.max && |s.inner.turns| <= s.max && WellNumbered(s.inner.turns) && PauseRemembers(s.inner)
    && PlaceFits(s.task, s.inner.turns, s.max, s.inner.phase.IsOver()) && (s.parked ==> Awaiting(s.task))
    && (s.inner.phase.Finished? ==> |s.inner.turns| == s.max && Winding(s.task))
  }

  lemma SpeakKeepsTranscript(s: State, step: Step)
    requires TranscriptInv(s) && Enabled(s, step) && ByTask(step) && !ByGuard(step)
    ensures TranscriptInv(SpeakStep(s, step))
  {
    hide WellNumbered, ByTask;
    if step.Push? {
      PushKeepsNumbers(s.inner, s.task.who, s.task.text);
    }
  }

  lemma GuardKeepsTranscript(s: State, step: Step)
    requires TranscriptInv(s) && Enabled(s, step) && ByGuard(step)
    ensures TranscriptInv(GuardStep(s, step))
  {
    hide WellNumbered;
  }

  lemma TaskKeepsTranscript(s: State, step: Step)
    requires TranscriptInv(s) && Enabled(s, step) && ByTask(step)
    ensures TranscriptInv(TaskStep(s, step))
  {
    hide TranscriptInv, SpeakStep, GuardStep, Enabled, ByTask;
    if ByGuard(step) { GuardKeepsTranscript(s, step); } else { SpeakKeepsTranscript(s, step); }
  }

  lemma PushKeepsNumbers(d: Inner, who: Speaker, text: string)
    requires WellNumbered(d.turns) && who == Upcoming(d.turns)
    ensures WellNumbered(Pushed(d, who, text).turns)
  {
  }

  /** A request changes the phase and leaves the task where it is. */
  lemma RequestLeavesTask(s: State, step: Step)
    requires Enabled(s, step) && !ByTask(step)
    ensures var t := RequestStep(s, step);
            && t.inner.turns == s.inner.turns && t.max == s.max && t.task == s.task && t.parked == s.parked
            && t.archive == s.archive && t.inner.archived == s.inner.archived && (s.aborted ==> t.aborted)
            && (t.sent == s.sent || (step.PauseSend? && t.sent == s.sent + [StatusEvent(s.pauses[step.i].status)]))
  {
    hide Enabled, RequestStep, ByTask;
    RequestLeavesTurns(s, step);
    RequestSends(s, step);
  }

  lemma RequestLeavesTurns(s: State, step: Step)
    requires Enabled(s, step) && !ByTask(step)
    ensures var t := RequestStep(s, step);
            && t.inner.turns == s.inner.turns && t.max == s.max && t.task == s.task && t.parked == s.parked
            && t.archive == s.archive && t.inner.archived == s.inner.archived
  {
    hide StatusOf, PausedSet, Stopped;
    StopLeavesTurns(s.inner);
    if step.Lock? { PauseLeavesTurns(s.inner, s.pauses[step.i].paused); }
  }

  lemma StopLeavesTurns(d: Inner)
    ensures Stopped(d).0.turns == d.turns && Stopped(d).0.archived == d.archived
  {
  }

  lemma PauseLeavesTurns(d: Inner, paused: bool)
    ensures PausedSet(d, paused).0.turns == d.turns && PausedSet(d, paused).0.archived == d.archived
  {
  }

  lemma RequestSends(s: State, step: Step)
    requires Enabled(s, step) && !ByTask(step)
    ensures var t := RequestStep(s, step);
            && (s.aborted ==> t.aborted)
            && (t.sent == s.sent || (step.PauseSend? && t.sent == s.sent + [StatusEvent(s.pauses[step.i].status)]))
  {
    hide Enabled, StatusOf, Stopped, PausedSet;
  }

  lemma RequestMovesPhase(s: State, step: Step)
    requires Enabled(s, step) && !ByTask(step)
    ensures var d, e := s.inner, RequestStep(s, step).inner;
            && (d.phase.IsOver() ==> e.phase == d.phase)
            && (PauseRemembers(d) ==> PauseRemembers(e) && (e.phase.Finished? ==> d.phase.Finished?))
  {
  }

  lemma TranscriptKept(s: State, step: Step)
    requires TranscriptInv(s)
    ensures TranscriptInv(Took(s, step))
  {
    hide WellNumbered, TaskStep, RequestStep, PlaceFits;
    if Enabled(s, step) {
      if ByTask(step) {
        hide TranscriptInv;
        TaskKeepsTranscript(s, step);
      } else {
        hide Enabled, PauseRemembers;
        RequestLeavesTask(s, step);
        RequestMovesPhase(s, step);
        OverFits(s.task, s.inner.turns, s.max, s.inner.phase.IsOver());
      }
    }
  }

  lemma OverFits(p: Place, turns: seq<Turn>, max: nat, over: bool)
    requires PlaceFits(p, turns, max, over)
    ensures PlaceFits(p, turns, max, true)
  {
  }

  lemma {:induction false} TranscriptAlways(s: State, steps: seq<Step>)
    requires TranscriptInv(s)
    ensures TranscriptInv(After(s, steps))
    decreases |steps|
  {
    hide TranscriptInv, Took;
    if steps != [] {
      TranscriptKept(s, steps[0]);
      TranscriptAlways(Took(s, steps[0]), steps[1..]);
    }
  }

  /** In every run: turns alternate from the local pulse, numbered from one,
      never more than the cap, and a finished dialogue has exactly the cap. */
  lemma TurnsAlternateUpToTheCap(requested: nat, steps: seq<Step>)
    ensures var s := After(Initial(requested), steps);
            var cap := if requested == 0 then 1 else if requested > 50 then 50 else requested;
            && |s.inner.turns| <= cap && WellNumbered(s.inner.turns)
            && (s.inner.phase.Finished? ==> |s.inner.turns| == cap)
  {
    TranscriptAlways(Initial(requested), steps);
    MaxStays(Initial(requested), steps);
  }

  lemma {:induction false} MaxStays(s: State, steps: seq<Step>)
    ensures After(s, steps).max == s.max
    decreases |steps|
  {
    hide Took;
    if steps != [] {
      MaxStep(s, steps[0]);
      MaxStays(Took(s, steps[0]), steps[1..]);
    }
  }

  lemma MaxStep(s: State, step: Step)
    ensures Took(s, step).max == s.max
  {
    hide NextPlace, Cancelling, Archived, PausedSet, Stopped, PhaseSet, Ending, StatusOf;
  }

  // ---- Phases ----

  lemma TaskLeavesOver(s: State, step: Step)
    requires s.inner.phase.IsOver() && Enabled(s, step) && ByTask(step)
    ensures TaskStep(s, step).inner.phase == s.inner.phase
  {
    hide Enabled, ByTask, SpeakStep;
    if !ByGuard(step) {
      hide GuardStep;
      SpeechLeavesOver(s, step);
    }
  }

  lemma SpeechLeavesOver(s: State, step: Step)
    requires s.inner.phase.IsOver() && Enabled(s, step) && ByTask(step) && !ByGuard(step)
    ensures SpeakStep(s, step).inner.phase == s.inner.phase
  {
    hide Enabled, ByTask, NextPlace;
  }

  lemma OverStays(s: State, step: Step)
    requires s.inner.phase.IsOver()
    ensures Took(s, step).inner.phase == s.inner.phase
  {
    hide TaskStep, RequestStep;
    if Enabled(s, step) {
      hide Enabled;
      if ByTask(step) { TaskLeavesOver(s, step); } else { RequestMovesPhase(s, step); }
    }
  }

  /** An ended phase is never left, whatever follows. */
  lemma {:induction false} EndedIsForever(s: State, steps: seq<Step>)
    requires s.inner.phase.IsOver()
    ensures After(s, steps).inner.phase == s.inner.phase
    decreases |steps|
  {
    hide Took;
    if steps != [] {
      OverStays(s, steps[0]);
      EndedIsForever(Took(s, steps[0]), steps[1..]);
    }
  }

  // ---- The broadcast ----

  /** A broadcast without its status events: turns and endings. */
  function Heard(sent: seq<Event>): seq<Event> {
    if sent == [] then []
    else Heard(sent[..|sent| - 1]) + if sent[|sent| - 1].StatusEvent? then [] else [sent[|sent| - 1]]
  }

  lemma HeardPush(sent: seq<Event>, e: Event)
    ensures Heard(sent + [e]) == if e.StatusEvent? then Heard(sent) else Heard(sent) + [e]
  {
    assert (sent + [e])[..|sent|] == sent;
  }

  function TurnEvents(turns: seq<Turn>): (r: seq<Event>)
    ensures |r| == |turns| && forall i :: 0 <= i < |turns| ==> r[i] == TurnEvent(turns[i])
  {
    seq(|turns|, i requires 0 <= i < |turns| => TurnEvent(turns[i]))
  }

  /** The turns broadcast so far: all, but for one being told. */
  function ToldTurns(s: State): seq<Turn> {
    if s.task.Telling? && s.inner.turns != [] then s.inner.turns[..|s.inner.turns| - 1] else s.inner.turns
  }

  /** What a listener has been told of the dialogue. */
  function Account(s: State): seq<Event> {
    TurnEvents(ToldTurns(s)) + if s.task.Gone? then [Ending(StatusOf(s.inner))] else []
  }

  /** The guard's last status is the final one, and what it archived is the transcript. */
  ghost predicate EndingInv(s: State) {
    match s.task
    case LastReading => s.archive == [s.inner.turns]
    case LastSending(status) => s.archive == [s.inner.turns] && status == StatusOf(s.inner)
    case LastTelling(status) => s.archive == [s.inner.turns] && status == StatusOf(s.inner)
    case Gone => s.archive == [s.inner.turns]
    case _ => s.archive == []
  }

  ghost predicate BroadcastInv(s: State) { Heard(s.sent) == Account(s) && EndingInv(s) }

  lemma EndingKept(s: State, step: Step)
    requires TranscriptInv(s) && EndingInv(s) && Enabled(s, step)
    ensures EndingInv(Apply(s, step))
  {
    hide WellNumbered;
  }

  lemma TurnEventsPush(turns: seq<Turn>, turn: Turn)
    ensures TurnEvents(turns + [turn]) == TurnEvents(turns) + [TurnEvent(turn)]
  {
  }

  lemma PushKeepsAccount(s: State)
    requires Enabled(s, Push)
    ensures Account(Apply(s, Push)) == Account(s)
  {
    var after := Apply(s, Push);
    assert after.inner.turns[..|after.inner.turns| - 1] == s.inner.turns;
  }

  lemma TellKeepsAccount(s: State)
    requires TranscriptInv(s) && Heard(s.sent) == Account(s) && Enabled(s, Tell)
    ensures Heard(Apply(s, Tell).sent) == Account(Apply(s, Tell))
  {
    hide WellNumbered, TurnEvents, Heard;
    HeardPush(s.sent, TurnEvent(s.task.turn));
    var told := s.inner.turns[..|s.inner.turns| - 1];
    TurnEventsPush(told, s.task.turn);
    assert told + [s.task.turn] == s.inner.turns;
    assert TurnEvents(told) + [] == TurnEvents(told);
    assert TurnEvents(s.inner.turns) + [] == TurnEvents(s.inner.turns);
  }

  lemma LastKeepsAccount(s: State)
    requires TranscriptInv(s) && BroadcastInv(s) && Enabled(s, TellLast)
    ensures Heard(Apply(s, TellLast).sent) == Account(Apply(s, TellLast))
  {
    hide WellNumbered, TurnEvents, Heard;
    HeardPush(s.sent, Ending(s.task.status));
    assert TurnEvents(s.inner.turns) + [] == TurnEvents(s.inner.turns);
  }

  /** Only the steps above change what there is to account for. */
  lemma TaskKeepsAccount(s: State, step: Step)
    requires TranscriptInv(s) && Enabled(s, step) && ByTask(step) && !step.Push? && !step.Tell? && !step.TellLast?
    ensures Account(TaskStep(s, step)) == Account(s)
    ensures Heard(TaskStep(s, step).sent) == Heard(s.sent)
  {
    hide WellNumbered, TurnEvents, Heard;
    match step
    case SendStatus => HeardPush(s.sent, StatusEvent(s.task.status));
    case SendLast => HeardPush(s.sent, StatusEvent(s.task.status));
    case _ =>
  }

  lemma OthersKeepAccount(s: State, step: Step)
    requires TranscriptInv(s) && Enabled(s, step) && !step.Push? && !step.Tell? && !step.TellLast?
    ensures Account(Apply(s, step)) == Account(s)
    ensures Heard(Apply(s, step).sent) == Heard(s.sent)
  {
    hide TranscriptInv, TaskStep, RequestStep, TurnEvents, Heard;
    if ByTask(step) {
      TaskKeepsAccount(s, step);
    } else {
      RequestLeavesTask(s, step);
      if step.PauseSend? { HeardPush(s.sent, StatusEvent(s.pauses[step.i].status)); }
      assert !s.task.Gone?  || StatusOf(RequestStep(s, step).inner) == StatusOf(s.inner) by {
        RequestMovesPhase(s, step);
        if s.task.Gone? { GoneIsOver(s); }
      }
    }
  }

  lemma GoneIsOver(s: State)
    requires TranscriptInv(s) && s.task.Gone?
    ensures s.inner.phase.IsOver()
  {
  }

  lemma AccountKept(s: State, step: Step)
    requires TranscriptInv(s) && BroadcastInv(s) && Enabled(s, step)
    ensures Heard(Apply(s, step).sent) == Account(Apply(s, step))
  {
    hide TranscriptInv, Account, EndingInv, Heard;
    match step
    case Push => PushKeepsAccount(s);
    case Tell => TellKeepsAccount(s);
    case TellLast => LastKeepsAccount(s);
    case _ => OthersKeepAccount(s, step);
  }

  lemma {:induction false} BroadcastAlways(s: State, steps: seq<Step>)
    requires TranscriptInv(s) && BroadcastInv(s)
    ensures TranscriptInv(After(s, steps)) && BroadcastInv(After(s, steps))
    decreases |steps|
  {
    hide TranscriptInv, Apply, Account, EndingInv, Heard;
    if steps != [] {
      TranscriptKept(s, steps[0]);
      if Enabled(s, steps[0]) {
        AccountKept(s, steps[0]);
        EndingKept(s, steps[0]);
      }
      BroadcastAlways(Took(s, steps[0]), steps[1..]);
    }
  }

  lemma InitialIsFine(requested: nat)
    ensures TranscriptInv(Initial(requested)) && BroadcastInv(Initial(requested))
  {
  }

  /** In every run, leaving status events aside, what is broadcast is the turns
      in order, each once, and when the guard is done one ending: an error for
      a failed dialogue, `Done` for any other. What was archived, once, is the
      whole transcript. */
  lemma OneEndingAfterEveryTurn(requested: nat, steps: seq<Step>)
    ensures var s := After(Initial(requested), steps);
            var ending := if s.inner.phase.Failed? then Error(s.inner.phase.why, s.inner.archived)
                          else Done(s.inner.archived);
            && Heard(s.sent) == TurnEvents(ToldTurns(s)) + (if s.task.Gone? then [ending] else [])
            && (s.task.Gone? ==>
                  s.inner.phase.IsOver() && ToldTurns(s) == s.inner.turns && s.archive == [s.inner.turns])
            && |s.archive| <= 1
  {
    InitialIsFine(requested);
    BroadcastAlways(Initial(requested), steps);
  }

  // ---- Is the ending the last event? ----

  /** A call to `set_paused` has changed the phase and not yet sent the status. */
  predicate StatusPending(s: State) {
    exists i :: 0 <= i < |s.pauses| && (s.pauses[i].PauseReading? || s.pauses[i].PauseSending?)
  }

  lemma SilenceStays(s: State, step: Step)
    requires s.task.Gone? && s.inner.phase.IsOver() && !StatusPending(s)
    ensures var t := Took(s, step); t.task.Gone? && !StatusPending(t) && t.sent == s.sent
  {
    assert forall i :: 0 <= i < |s.pauses| ==> !s.pauses[i].PauseReading? && !s.pauses[i].PauseSending?;
  }

  lemma {:induction false} NothingMoreIsSent(s: State, steps: seq<Step>)
    requires s.task.Gone? && s.inner.phase.IsOver() && !StatusPending(s)
    ensures After(s, steps).sent == s.sent
    decreases |steps|
  {
    hide Took, StatusPending;
    if steps != [] {
      SilenceStays(s, steps[0]);
      OverStays(s, steps[0]);
      NothingMoreIsSent(Took(s, steps[0]), steps[1..]);
    }
  }

  lemma PendingStatusIsSent(s: State, i: nat) returns (steps: seq<Step>)
    requires i < |s.pauses| && (s.pauses[i].PauseReading? || s.pauses[i].PauseSending?)
    ensures |After(s, steps).sent| > |s.sent|
  {
    if s.pauses[i].PauseReading? {
      var status := StatusOf(s.inner);
      AfterPush(s, [], PauseRead(i));
      AfterPush(s, [] + [PauseRead(i)], PauseSend(i));
      steps := [] + [PauseRead(i)] + [PauseSend(i)];
    } else {
      AfterPush(s, [], PauseSend(i));
      steps := [] + [PauseSend(i)];
    }
  }

  /** `set_paused` sends its status after it releases the lock, so the ending is
      the last event of every continuation exactly when no such status was
      still to be sent when the ending was. */
  lemma EndingIsLastIffNoStatusPending(requested: nat, steps: seq<Step>)
    requires After(Initial(requested), steps).task.Gone?
    ensures var s := After(Initial(requested), steps);
            (forall later :: After(s, later).sent == s.sent) <==> !StatusPending(s)
  {
    var s := After(Initial(requested), steps);
    InitialIsFine(requested);
    BroadcastAlways(Initial(requested), steps);
    if StatusPending(s) {
      var i :| 0 <= i < |s.pauses| && (s.pauses[i].PauseReading? || s.pauses[i].PauseSending?);
      var later := PendingStatusIsSent(s, i);
      assert After(s, later).sent != s.sent;
    } else {
      forall later ensures After(s, later).sent == s.sent { NothingMoreIsSent(s, later); }
    }
  }

  /** One step further in a run whose states are known. */
  lemma Further(requested: nat, steps: seq<Step>, at: State, step: Step) returns (longer: seq<Step>, to: State)
    requires After(Initial(requested), steps) == at
    ensures longer == steps + [step] && to == Took(at, step) && After(Initial(requested), longer) == to
  {
    AfterPush(Initial(requested), steps, step);
    longer, to := steps + [step], Took(at, step);
  }

  lemma FlagTakesHold(s: State)
    requires s.pauses == []
    ensures Took(Took(s, Call(true)), Flag(0)) == s.(mayGoOn := false, pauses := [Locking(true)])
  {
    assert [Flagging(true)][0 := Locking(true)] == [Locking(true)];
  }

  lemma PauseTakesHold(s: State)
    requires s.pauses == [Locking(true)] && s.inner.phase.Thinking?
    ensures Took(s, Lock(0)) ==
            s.(inner := s.inner.(beforePause := Some(s.inner.phase), phase := Paused), pauses := [PauseReading])
  {
    assert s.pauses[0 := PauseReading] == [PauseReading];
  }

  /** Paused before the task is polled; then the task is dropped. */
  lemma PausedThenDropped() returns (steps: seq<Step>)
    ensures After(Initial(1), steps) == State(
              1, Inner([], Paused, Some(Thinking(Local)), false, true), false, [], Guard, false, false, false,
              [PauseReading], [])
  {
    var s := Initial(1);
    AfterNothing(s);
    hide After, Took;
    FlagTakesHold(s);
    PauseTakesHold(s.(mayGoOn := false, pauses := [Locking(true)]));
    steps, s := Further(1, [], s, Call(true));
    steps, s := Further(1, steps, s, Flag(0));
    steps, s := Further(1, steps, s, Lock(0));
    DropEnds(s);
    steps, s := Further(1, steps, s, Drop);
  }

  lemma DropEnds(s: State)
    requires s.parked && Awaiting(s.task)
    ensures Took(s, Drop) == s.(task := Guard, parked := false)
  {
  }

  lemma PausedThenArchived() returns (steps: seq<Step>)
    ensures After(Initial(1), steps) == State(
              1, Inner([], Cancelled, Some(Thinking(Local)), false, false), false, [], LastReading, false, false, false,
              [PauseReading], [[]])
  {
    hide After, RequestStep;
    steps := PausedThenDropped();
    var s := After(Initial(1), steps);
    steps, s := Further(1, steps, s, LockGuard);
    steps, s := Further(1, steps, s, Archive(false, true));
  }

  lemma PausedThenDone() returns (steps: seq<Step>)
    ensures After(Initial(1), steps) == State(
              1, Inner([], Cancelled, Some(Thinking(Local)), false, false), false,
              [StatusEvent(Status(0, Cancelled, false)), Done(false)], Gone, false, false, false, [PauseReading], [[]])
  {
    hide After, RequestStep;
    steps := PausedThenArchived();
    var s := After(Initial(1), steps);
    steps, s := Further(1, steps, s, ReadLast);
    steps, s := Further(1, steps, s, SendLast);
    steps, s := Further(1, steps, s, TellLast);
  }

  /** A run in which a status follows `Done`. */
  lemma StatusCanFollowDone() returns (steps: seq<Step>)
    ensures var sent := After(Initial(1), steps).sent;
            |sent| >= 2 && sent[|sent| - 2].Done? && sent[|sent| - 1].StatusEvent?
  {
    hide After;
    steps := PausedThenDone();
    var s := After(Initial(1), steps);
    steps, s := Further(1, steps, s, PauseRead(0));
    steps, s := Further(1, steps, s, PauseSend(0));
  }

  lemma AfterNothing(s: State)
    ensures After(s, []) == s
  {
  }
}
