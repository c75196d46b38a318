/** Pausing and resuming a dialogue only delays it. */
module DialoguePauses {
  import opened Text
  import opened Dialogues
  import opened DialogueRuns

  /** The phase that a paused dialogue stands in for. */
  function Effective(d: Inner): Phase {
    if d.phase.Paused? && d.beforePause.Some? then d.beforePause.value else d.phase
  }

  /** A step of a request to pause or resume. */
  predicate Pausing(step: Step) { step.Call? || step.Flag? || step.Lock? || step.PauseRead? || step.PauseSend? }

  predicate Unpaused(steps: seq<Step>) { forall k :: 0 <= k < |steps| ==> !Pausing(steps[k]) }

  /** The same place, but for what a status about to be sent says. */
  predicate SamePlace(p: Place, q: Place) {
    if p.Sending? && q.Sending? then p.next == q.next else p == q
  }

  /** `t`, which was never paused, stands for `s`. */
  ghost predicate Stands(s: State, t: State) {
    && TranscriptInv(s) && t.max == s.max && t.mayGoOn && t.archive == s.archive
    && t.inner.turns == s.inner.turns && t.inner.archived == s.inner.archived
    && t.inner.phase == Effective(s.inner)
    && SamePlace(s.task, t.task) && t.parked == s.parked
    && t.stopping == s.stopping && t.aborted == s.aborted && t.inner.abort == s.inner.abort
    && Heard(t.sent) == Heard(s.sent)
    && (s.task.LastSending? || s.task.LastTelling? ==> s.inner.phase.IsOver() && s.task.status == StatusOf(s.inner))
  }

  lemma AfterOne(s: State, step: Step)
    ensures After(s, [step]) == Took(s, step)
  {
    AfterPush(s, [], step);
    assert [] + [step] == [step];
  }

  /** A request to pause or resume leaves everything that matters as it was. */
  lemma PauseStands(s: State, t: State, step: Step)
    requires Stands(s, t) && Enabled(s, step) && Pausing(step)
    ensures Stands(Apply(s, step), t)
  {
    hide Heard, WellNumbered, PlaceFits, TaskStep;
    TranscriptKept(s, step);
    if step.PauseSend? { HeardPush(s.sent, StatusEvent(s.pauses[step.i].status)); }
  }

  /** The thinking phase is announced, except while paused. */
  lemma AnnounceStands(s: State, t: State) returns (plain: seq<Step>)
    requires Stands(s, t) && s.task.Announcing?
    ensures Unpaused(plain) && Stands(Apply(s, Announce), After(t, plain))
  {
    hide After, Stands, Apply;
    AfterNothing(t);
    AfterPush(t, [], Announce);
    plain := [] + [Announce];
    if s.inner.phase.Paused? {
      AfterPush(t, plain, ReadStatus);
      AfterPush(t, plain + [ReadStatus], SendStatus);
      plain := plain + [ReadStatus] + [SendStatus];
      AnnounceHeld(s, t);
    } else {
      AnnouncePlain(s, t);
    }
  }

  lemma AnnouncePlain(s: State, t: State)
    requires Stands(s, t) && s.task.Announcing? && !s.inner.phase.Paused?
    ensures Stands(Apply(s, Announce), Took(t, Announce))
  {
    hide Heard, WellNumbered, PlaceFits, RequestStep, GuardStep;
    TranscriptKept(s, Announce);
  }

  lemma AnnounceHeld(s: State, t: State)
    requires Stands(s, t) && s.task.Announcing? && s.inner.phase.Paused?
    ensures Stands(Apply(s, Announce), Took(Took(Took(t, Announce), ReadStatus), SendStatus))
  {
    hide Heard, WellNumbered, PlaceFits, RequestStep, GuardStep;
    TranscriptKept(s, Announce);
    StatusIsTold(Apply(t, Announce));
  }

  lemma StatusIsTold(t: State)
    requires t.task.Reading?
    ensures var u := Took(Took(t, ReadStatus), SendStatus);
            && u == t.(task := t.task.next, sent := t.sent + [StatusEvent(StatusOf(t.inner))])
            && Heard(u.sent) == Heard(t.sent)
  {
    HeardPush(t.sent, StatusEvent(StatusOf(t.inner)));
  }

  /** Telling a turn is done by both. */
  lemma TellStands(s: State, t: State)
    requires Stands(s, t) && Enabled(s, Tell)
    ensures Enabled(t, Tell) && Stands(Apply(s, Tell), Apply(t, Tell))
  {
    hide Heard, TranscriptInv, RequestStep, Pushed, Announced, Cancelling, Effective;
    TranscriptKept(s, Tell);
    HeardPush(s.sent, TurnEvent(s.task.turn));
    HeardPush(t.sent, TurnEvent(s.task.turn));
  }

  /** Telling a status is done by both. */
  lemma StatusStands(s: State, t: State)
    requires Stands(s, t) && Enabled(s, SendStatus)
    ensures Enabled(t, SendStatus) && Stands(Apply(s, SendStatus), Apply(t, SendStatus))
  {
    hide Heard, TranscriptInv, RequestStep, Pushed, Announced, Cancelling, Effective;
    TranscriptKept(s, SendStatus);
    NextIsPlain(s);
    HeardPush(s.sent, StatusEvent(s.task.status));
    HeardPush(t.sent, StatusEvent(t.task.status));
  }

  lemma NextIsPlain(s: State)
    requires TranscriptInv(s) && s.task.Sending?
    ensures s.task.next.Asking? || s.task.next.Guard?
  {
  }

  /** The guard's last status, and then the ending, are told by both. */
  lemma LastStatusStands(s: State, t: State)
    requires Stands(s, t) && Enabled(s, SendLast)
    ensures Enabled(t, SendLast) && Stands(Apply(s, SendLast), Apply(t, SendLast))
  {
    hide Heard, TranscriptInv;
    TranscriptKept(s, SendLast);
    HeardPush(s.sent, StatusEvent(s.task.status));
    HeardPush(t.sent, StatusEvent(s.task.status));
  }

  lemma EndingStands(s: State, t: State)
    requires Stands(s, t) && Enabled(s, TellLast)
    ensures Enabled(t, TellLast) && Stands(Apply(s, TellLast), Apply(t, TellLast))
  {
    hide Heard, TranscriptInv, Ending;
    TranscriptKept(s, TellLast);
    EndingIsNoStatus(s.task.status);
    HeardPush(s.sent, Ending(s.task.status));
    HeardPush(t.sent, Ending(s.task.status));
  }

  lemma EndingIsNoStatus(status: Status)
    ensures !Ending(status).StatusEvent?
  {
  }

  /** A stop, and the abort that follows it, are requested of both. */
  lemma StopStands(s: State, t: State, step: Step)
    requires Stands(s, t) && Enabled(s, step) && (step.Stop? || step.RequestAbort?)
    ensures Enabled(t, step) && Stands(Apply(s, step), Apply(t, step))
  {
    hide Heard, WellNumbered, PlaceFits, TaskStep;
    TranscriptKept(s, step);
  }

  /** A step of the task that broadcasts nothing is taken by both. */
  lemma SilentStands(s: State, t: State, step: Step)
    requires Stands(s, t) && Enabled(s, step) && ByTask(step) && !step.Announce?
    requires !step.Tell? && !step.SendStatus? && !step.SendLast? && !step.TellLast?
    ensures Enabled(t, step) && Stands(Apply(s, step), Apply(t, step))
  {
    hide Heard, WellNumbered, RequestStep, Ending, NextPlace;
    TranscriptKept(s, step);
  }

  /** Any step but these is taken by both. */
  lemma TaskStands(s: State, t: State, step: Step)
    requires Stands(s, t) && Enabled(s, step) && !Pausing(step) && !step.Announce?
    ensures Enabled(t, step) && Stands(Apply(s, step), Apply(t, step))
  {
    hide Stands, Apply, Enabled;
    match step
    case Stop => StopStands(s, t, step);
    case RequestAbort => StopStands(s, t, step);
    case Tell => TellStands(s, t);
    case SendStatus => StatusStands(s, t);
    case SendLast => LastStatusStands(s, t);
    case TellLast => EndingStands(s, t);
    case _ => SilentStands(s, t, step);
  }

  lemma StepStands(s: State, t: State, step: Step) returns (plain: seq<Step>)
    requires Stands(s, t)
    ensures Unpaused(plain) && Stands(Took(s, step), After(t, plain))
  {
    hide Stands, After, Apply;
    AfterNothing(t);
    if !Enabled(s, step) {
      plain := [];
    } else if Pausing(step) {
      PauseStands(s, t, step);
      plain := [];
    } else if step.Announce? {
      plain := AnnounceStands(s, t);
    } else {
      TaskStands(s, t, step);
      AfterOne(t, step);
      plain := [step];
    }
  }

  lemma {:induction false} RunStands(s: State, t: State, steps: seq<Step>) returns (plain: seq<Step>)
    requires Stands(s, t)
    ensures Unpaused(plain) && Stands(After(s, steps), After(t, plain))
    decreases |steps|
  {
    hide Stands, Took;
    if steps == [] {
      plain := [];
    } else {
      var first := StepStands(s, t, steps[0]);
      var rest := RunStands(Took(s, steps[0]), After(t, first), steps[1..]);
      plain := first + rest;
      AfterConcat(t, first, rest);
    }
  }

  /** For every run there is one in which nobody pauses that has the same turns,
      is in the phase the pauses stand in for, has archived the same, and has
      broadcast the same turns and ending. So a pause and a resume leave the
      phase the run would have had without them. */
  lemma PausesOnlyDelay(requested: nat, steps: seq<Step>) returns (plain: seq<Step>)
    ensures Unpaused(plain)
    ensures var s, t := After(Initial(requested), steps), After(Initial(requested), plain);
            && t.inner.turns == s.inner.turns && t.inner.phase == Effective(s.inner) && t.archive == s.archive
            && Heard(t.sent) == Heard(s.sent) && (s.task.Gone? <==> t.task.Gone?)
  {
    InitialIsFine(requested);
    plain := RunStands(Initial(requested), Initial(requested), steps);
  }

  // ---- The phase shown and the flag the task waits on ----

  /** What the last request to set its flag asked for; before any, `last`. */
  function LastFlag(s: State, steps: seq<Step>, last: bool): bool
    decreases |steps|
  {
    if steps == [] then last else LastFlag(Took(s, steps[0]), steps[1..], FlagNow(s, steps[0], last))
  }

  function FlagNow(s: State, step: Step, last: bool): bool {
    if step.Flag? && Enabled(s, step) then s.pauses[step.i].paused else last
  }

  /** What the last request to change the phase asked for; before any, `last`. */
  function LastLock(s: State, steps: seq<Step>, last: bool): bool
    decreases |steps|
  {
    if steps == [] then last else LastLock(Took(s, steps[0]), steps[1..], LockNow(s, steps[0], last))
  }

  function LockNow(s: State, step: Step, last: bool): bool {
    if step.Lock? && Enabled(s, step) then s.pauses[step.i].paused else last
  }

  lemma FlagFollows(s: State, step: Step, flag: bool)
    requires s.mayGoOn == !flag
    ensures Took(s, step).mayGoOn == !FlagNow(s, step, flag)
  {
    if !step.Flag? { hide Enabled; }
  }

  lemma PhaseFollows(s: State, step: Step, lock: bool)
    requires TranscriptInv(s) && (!s.inner.phase.IsOver() ==> s.inner.phase.Paused? == lock)
    ensures !Took(s, step).inner.phase.IsOver() ==> Took(s, step).inner.phase.Paused? == LockNow(s, step, lock)
  {
    if s.inner.phase.IsOver() {
      hide Took;
      OverStays(s, step);
    } else {
      hide TaskStep, RequestStep, LockNow;
      if Enabled(s, step) && !Apply(s, step).inner.phase.IsOver() {
        if ByTask(step) { TaskKeepsPause(s, step); } else { RequestSetsPause(s, step); }
      }
      LockIsRequest(s, step, lock);
    }
  }

  lemma LockIsRequest(s: State, step: Step, lock: bool)
    ensures !Enabled(s, step) || ByTask(step) || !step.Lock? ==> LockNow(s, step, lock) == lock
    ensures Enabled(s, step) && step.Lock? ==> LockNow(s, step, lock) == s.pauses[step.i].paused
  {
    hide Enabled;
  }

  lemma RequestSetsPause(s: State, step: Step)
    requires TranscriptInv(s) && Enabled(s, step) && !ByTask(step)
    requires !s.inner.phase.IsOver() && !RequestStep(s, step).inner.phase.IsOver()
    ensures step.Lock? || RequestStep(s, step).inner.phase.Paused? == s.inner.phase.Paused?
    ensures step.Lock? ==> RequestStep(s, step).inner.phase.Paused? == s.pauses[step.i].paused
  {
    hide WellNumbered, PlaceFits;
  }

  lemma TaskKeepsPause(s: State, step: Step)
    requires TranscriptInv(s) && Enabled(s, step) && ByTask(step) && !TaskStep(s, step).inner.phase.IsOver()
    ensures TaskStep(s, step).inner.phase.Paused? == s.inner.phase.Paused?
  {
    if step.Close? {
      hide TaskStep;
      CloseEnds(s);
    } else {
      hide Enabled, TranscriptInv, ByTask;
    }
  }

  lemma CloseEnds(s: State)
    requires TranscriptInv(s) && s.task.Closing?
    ensures TaskStep(s, Close).inner.phase.IsOver()
  {
    hide WellNumbered, GuardStep;
  }

  lemma {:induction false} LastsAlways(s: State, steps: seq<Step>, flag: bool, lock: bool)
    requires TranscriptInv(s) && s.mayGoOn == !flag && (!s.inner.phase.IsOver() ==> s.inner.phase.Paused? == lock)
    ensures var t := After(s, steps);
            && t.mayGoOn == !LastFlag(s, steps, flag)
            && (!t.inner.phase.IsOver() ==> t.inner.phase.Paused? == LastLock(s, steps, lock))
    decreases |steps|
  {
    hide TranscriptInv, Took, FlagNow, LockNow;
    if steps != [] {
      TranscriptKept(s, steps[0]);
      FlagFollows(s, steps[0], flag);
      PhaseFollows(s, steps[0], lock);
      LastsAlways(Took(s, steps[0]), steps[1..], FlagNow(s, steps[0], flag), LockNow(s, steps[0], lock));
    }
  }

  /** A request first sets the flag the task waits on and then, under the lock,
      the phase. In every run, while the dialogue is not over, the phase shows
      `paused` exactly while the task is held if and only if the last request to
      set the flag and the last to change the phase asked for the same. */
  lemma PausedMeansHeldIff(requested: nat, steps: seq<Step>)
    ensures var s := After(Initial(requested), steps);
            !s.inner.phase.IsOver() ==>
              ((s.inner.phase.Paused? <==> !s.mayGoOn) <==>
               LastFlag(Initial(requested), steps, false) == LastLock(Initial(requested), steps, false))
  {
    InitialIsFine(requested);
    LastsAlways(Initial(requested), steps, false, false);
  }

  // ---- Requests that do not overlap ----

  /** No request sets its flag while another has set its own and not yet
      changed the phase. */
  predicate Serial(s: State, steps: seq<Step>)
    decreases |steps|
  {
    steps == [] || ((steps[0].Flag? ==> Settled(s)) && Serial(Took(s, steps[0]), steps[1..]))
  }

  predicate Settled(s: State) { forall i :: 0 <= i < |s.pauses| ==> !s.pauses[i].Locking? }

  predicate OneLocking(s: State) {
    forall i, j :: 0 <= i < |s.pauses| && 0 <= j < |s.pauses| && s.pauses[i].Locking? && s.pauses[j].Locking? ==> i == j
  }

  ghost predicate LastsInv(s: State, flag: bool, lock: bool) {
    && OneLocking(s)
    && (forall i :: 0 <= i < |s.pauses| && s.pauses[i].Locking? ==> s.pauses[i].paused == flag)
    && (Settled(s) ==> flag == lock)
  }

  lemma PausesMove(s: State, step: Step)
    requires Enabled(s, step)
    ensures var p, q := s.pauses, Apply(s, step).pauses;
            match step
            case Call(paused) => q == p + [Flagging(paused)]
            case Flag(i) => q == p[i := Locking(p[i].paused)]
            case Lock(i) => !q[i].Locking? && q == p[i := q[i]]
            case PauseRead(i) => !q[i].Locking? && q == p[i := q[i]]
            case PauseSend(i) => !q[i].Locking? && q == p[i := q[i]]
            case _ => q == p
  {
    hide TaskStep;
    if ByTask(step) { TaskKeepsPauses(s, step); }
  }

  lemma TaskKeepsPauses(s: State, step: Step)
    requires Enabled(s, step) && ByTask(step)
    ensures TaskStep(s, step).pauses == s.pauses
  {
    hide Enabled, ByTask;
  }

  lemma LastsStep(s: State, step: Step, flag: bool, lock: bool)
    requires LastsInv(s, flag, lock) && (step.Flag? ==> Settled(s))
    ensures LastsInv(Took(s, step), FlagNow(s, step, flag), LockNow(s, step, lock))
  {
    hide Apply;
    if Enabled(s, step) {
      PausesMove(s, step);
      var p, q := s.pauses, Apply(s, step).pauses;
      match step
      case Flag(i) => assert q[i] == Locking(p[i].paused);
      case Lock(i) => assert forall j :: 0 <= j < |q| && q[j].Locking? ==> j != i && p[j].Locking?;
      case Call(_) => SameLocking(s, Apply(s, step), flag, lock);
      case PauseRead(_) => SameLocking(s, Apply(s, step), flag, lock);
      case PauseSend(_) => SameLocking(s, Apply(s, step), flag, lock);
      case _ =>
    }
  }

  lemma SameLocking(s: State, t: State, flag: bool, lock: bool)
    requires LastsInv(s, flag, lock) && |s.pauses| <= |t.pauses|
    requires forall i :: 0 <= i < |t.pauses| && t.pauses[i].Locking? ==> i < |s.pauses| && t.pauses[i] == s.pauses[i]
    requires forall i :: 0 <= i < |s.pauses| && s.pauses[i].Locking? ==> t.pauses[i].Locking?
    ensures LastsInv(t, flag, lock)
  {
  }

  lemma {:induction false} SerialLasts(s: State, steps: seq<Step>, flag: bool, lock: bool)
    requires LastsInv(s, flag, lock) && Serial(s, steps)
    ensures LastsInv(After(s, steps), LastFlag(s, steps, flag), LastLock(s, steps, lock))
    decreases |steps|
  {
    hide LastsInv, Took, FlagNow, LockNow;
    if steps != [] {
      LastsStep(s, steps[0], flag, lock);
      SerialLasts(Took(s, steps[0]), steps[1..], FlagNow(s, steps[0], flag), LockNow(s, steps[0], lock));
    }
  }

  /** So when requests do not overlap and none is under way, the phase shows
      `paused` exactly while the task is held between turns. */
  lemma PausedMeansHeld(requested: nat, steps: seq<Step>)
    requires Serial(Initial(requested), steps)
    ensures var s := After(Initial(requested), steps);
            Settled(s) && !s.inner.phase.IsOver() ==> (s.inner.phase.Paused? <==> !s.mayGoOn)
  {
    SerialLasts(Initial(requested), steps, false, false);
    PausedMeansHeldIff(requested, steps);
  }

  /** Two overlapping requests, neither in flight any more: the phase shows
      `paused` and the task is not held. */
  lemma OverlapShowsPausedWhileRunning() returns (steps: seq<Step>)
    ensures var s := After(Initial(1), steps);
            Settled(s) && s.inner.phase.Paused? && s.mayGoOn
  {
    hide After, Took;
    AfterNothing(Initial(1));
    steps := [];
    var s := Initial(1);
    TwoFlags(s);
    ResumeFirst(TwoFlagged(s));
    PauseLast(TwoFlagged(s).(pauses := [Locking(true), PauseDone]));
    steps, s := Further(1, steps, s, Call(true));
    steps, s := Further(1, steps, s, Call(false));
    steps, s := Further(1, steps, s, Flag(0));
    steps, s := Further(1, steps, s, Flag(1));
    steps, s := Further(1, steps, s, Lock(1));
    steps, s := Further(1, steps, s, Lock(0));
  }

  function TwoFlagged(s: State): State { s.(mayGoOn := true, pauses := [Locking(true), Locking(false)]) }

  lemma TwoFlags(s: State)
    requires s.pauses == []
    ensures Took(Took(Took(Took(s, Call(true)), Call(false)), Flag(0)), Flag(1)) == TwoFlagged(s)
  {
    var two := Took(Took(s, Call(true)), Call(false));
    assert two.pauses == [Flagging(true), Flagging(false)];
    assert Took(two, Flag(0)).pauses == [Locking(true), Flagging(false)];
    assert Took(Took(two, Flag(0)), Flag(1)).pauses == [Locking(true), Locking(false)];
  }

  lemma ResumeFirst(s: State)
    requires s.pauses == [Locking(true), Locking(false)] && s.inner.phase.Thinking?
    ensures Took(s, Lock(1)) == s.(pauses := [Locking(true), PauseDone])
  {
    assert s.pauses[1 := PauseDone] == [Locking(true), PauseDone];
  }

  lemma PauseLast(s: State)
    requires s.pauses == [Locking(true), PauseDone] && s.inner.phase.Thinking?
    ensures Took(s, Lock(0)).inner.phase.Paused? && Took(s, Lock(0)).pauses == [PauseReading, PauseDone]
    ensures Took(s, Lock(0)).mayGoOn == s.mayGoOn
  {
    assert s.pauses[0 := PauseReading] == [PauseReading, PauseDone];
  }
}
