/** What a dialogue says of itself over its runs: who is thinking, why it ended,
    whether it was archived, and that every status was true. */
module DialogueStatuses {
  import opened Text
  import opened Dialogues
  import opened DialogueRuns

  /** The run so far. */
  function Reached(requested: nat, steps: seq<Step>): State { After(Initial(requested), steps) }

  lemma ReachedPush(requested: nat, steps: seq<Step>)
    requires steps != []
    ensures var n := |steps| - 1; Reached(requested, steps) == Took(Reached(requested, steps[..n]), steps[n])
    ensures TranscriptInv(Reached(requested, steps[..|steps| - 1]))
  {
    hide TranscriptInv, After, Took;
    var n := |steps| - 1;
    assert steps[..n] + [steps[n]] == steps;
    AfterPush(Initial(requested), steps[..n], steps[n]);
    InitialIsFine(requested);
    TranscriptAlways(Initial(requested), steps[..n]);
  }

  /** The k-th step of the run is `step` and took effect. */
  ghost predicate Happened(requested: nat, steps: seq<Step>, k: nat, step: Step) {
    k < |steps| && steps[k] == step && Enabled(Reached(requested, steps[..k]), step)
  }

  ghost predicate Occurred(requested: nat, steps: seq<Step>, step: Step) {
    exists k: nat :: Happened(requested, steps, k, step)
  }

  lemma HappenedBefore(requested: nat, steps: seq<Step>, n: nat, step: Step)
    requires n <= |steps| && Occurred(requested, steps[..n], step)
    ensures Occurred(requested, steps, step)
  {
    var k: nat :| Happened(requested, steps[..n], k, step);
    assert steps[..n][..k] == steps[..k];
    assert Happened(requested, steps, k, step);
  }

  lemma HappensLast(requested: nat, steps: seq<Step>)
    requires steps != [] && Enabled(Reached(requested, steps[..|steps| - 1]), steps[|steps| - 1])
    ensures Occurred(requested, steps, steps[|steps| - 1])
  {
    assert Happened(requested, steps, |steps| - 1, steps[|steps| - 1]);
  }

  // ---- Who is thinking ----

  /** The phase, as if no pause were in force. */
  function Unpaused(d: Inner): Phase { if d.phase.Paused? && d.beforePause.Some? then d.beforePause.value else d.phase }

  /** The side whose turn is being asked for, or was and is being written down. */
  function SpeakerAt(p: Place): Option<Speaker> {
    match p
    case Asking(who) => Some(who)
    case Pushing(who, _) => Some(who)
    case Telling(turn) => Some(turn.who)
    case Reading(next) => if next.Asking? then Some(next.who) else None
    case Sending(_, next) => if next.Asking? then Some(next.who) else None
    case _ => None
  }

  predicate ShowsSpeaker(s: State) {
    !s.inner.phase.IsOver() && SpeakerAt(s.task).Some? ==> Unpaused(s.inner) == Thinking(SpeakerAt(s.task).value)
  }

  lemma SpeakShows(s: State, step: Step)
    requires TranscriptInv(s) && ShowsSpeaker(s) && Enabled(s, step) && ByTask(step) && !ByGuard(step)
    ensures ShowsSpeaker(SpeakStep(s, step))
  {
    hide WellNumbered, ByTask;
  }

  lemma RequestKeepsUnpaused(s: State, step: Step)
    requires PauseRemembers(s.inner) && Enabled(s, step) && !ByTask(step)
    ensures var d := RequestStep(s, step).inner; d.phase.IsOver() || Unpaused(d) == Unpaused(s.inner)
  {
  }

  lemma StepShows(s: State, step: Step)
    requires TranscriptInv(s) && ShowsSpeaker(s)
    ensures ShowsSpeaker(Took(s, step))
  {
    hide SpeakStep, RequestStep, WellNumbered, PlaceFits;
    if Enabled(s, step) {
      if !ByTask(step) {
        hide Enabled;
        RequestLeavesTask(s, step);
        RequestMovesPhase(s, step);
        RequestKeepsUnpaused(s, step);
      } else if !ByGuard(step) {
        hide Enabled;
        SpeakShows(s, step);
      }
    }
  }

  /** In every run: while a side is asked, and until its answer is told, the
      phase says that this side is thinking - or the phase that a pause will
      give back does - unless the dialogue is over. */
  lemma {:induction false} PhaseShowsTheSpeaker(requested: nat, steps: seq<Step>)
    ensures ShowsSpeaker(Reached(requested, steps))
    decreases |steps|
  {
    hide Took, TranscriptInv, ShowsSpeaker;
    if steps == [] {
      NothingShown(requested);
    } else {
      PhaseShowsTheSpeaker(requested, steps[..|steps| - 1]);
      ReachedPush(requested, steps);
      StepShows(Reached(requested, steps[..|steps| - 1]), steps[|steps| - 1]);
    }
  }

  lemma NothingShown(requested: nat)
    ensures ShowsSpeaker(Reached(requested, []))
  {
  }

  // ---- Why it ended ----

  /** The failures that a run has met: an answer that did not come, and isolation. */
  ghost predicate Failing(requested: nat, steps: seq<Step>, why: string) {
    || Occurred(requested, steps, Answer(None, why))
    || (why == "shed by isolation mode" && Occurred(requested, steps, Check(true)))
  }

  ghost predicate CauseInv(requested: nat, steps: seq<Step>, s: State) {
    && (s.inner.phase.Failed? ==> Failing(requested, steps, s.inner.phase.why))
    && (s.task.Closing? ==>
          s.task.phase.Finished? || (s.task.phase.Failed? && Failing(requested, steps, s.task.phase.why)))
    && (s.inner.phase.Cancelled? ==> Occurred(requested, steps, Stop) || Occurred(requested, steps, Drop))
    && (s.task.Guard? && !s.inner.phase.IsOver() ==> Occurred(requested, steps, Drop))
  }

  lemma CausesLast(requested: nat, steps: seq<Step>, n: nat, s: State)
    requires n <= |steps| && CauseInv(requested, steps[..n], s)
    ensures CauseInv(requested, steps, s)
  {
    hide Occurred;
    if s.inner.phase.Failed? { FailingLasts(requested, steps, n, s.inner.phase.why); }
    if s.task.Closing? && s.task.phase.Failed? { FailingLasts(requested, steps, n, s.task.phase.why); }
    if Occurred(requested, steps[..n], Stop) { HappenedBefore(requested, steps, n, Stop); }
    if Occurred(requested, steps[..n], Drop) { HappenedBefore(requested, steps, n, Drop); }
  }

  lemma FailingLasts(requested: nat, steps: seq<Step>, n: nat, why: string)
    requires n <= |steps| && Failing(requested, steps[..n], why)
    ensures Failing(requested, steps, why)
  {
    hide Occurred;
    if Occurred(requested, steps[..n], Answer(None, why)) {
      HappenedBefore(requested, steps, n, Answer(None, why));
    } else {
      HappenedBefore(requested, steps, n, Check(true));
    }
  }

  lemma StepHasCause(requested: nat, steps: seq<Step>, s: State, step: Step)
    requires CauseInv(requested, steps, s) && TranscriptInv(s) && Enabled(s, step) && Occurred(requested, steps, step)
    ensures CauseInv(requested, steps, Apply(s, step))
  {
    hide WellNumbered, PauseRemembers, Occurred, SpeakStep, RequestStep;
    if !ByTask(step) {
      assert PauseRemembers(s.inner);
      RequestHasCause(requested, steps, s, step);
    } else if !ByGuard(step) {
      SpeechHasCause(requested, steps, s, step);
    }
  }

  lemma SpeechHasCause(requested: nat, steps: seq<Step>, s: State, step: Step)
    requires CauseInv(requested, steps, s) && TranscriptInv(s) && Enabled(s, step) && Occurred(requested, steps, step)
    requires ByTask(step) && !ByGuard(step)
    ensures CauseInv(requested, steps, SpeakStep(s, step))
  {
    hide WellNumbered, PauseRemembers, Occurred;
  }

  lemma RequestHasCause(requested: nat, steps: seq<Step>, s: State, step: Step)
    requires CauseInv(requested, steps, s) && Enabled(s, step) && Occurred(requested, steps, step) && !ByTask(step)
    requires PauseRemembers(s.inner)
    ensures CauseInv(requested, steps, RequestStep(s, step))
  {
    hide Occurred;
  }

  lemma {:induction false} CausesAlways(requested: nat, steps: seq<Step>)
    ensures CauseInv(requested, steps, Reached(requested, steps))
    decreases |steps|
  {
    if steps != [] {
      hide Apply, TranscriptInv, CauseInv, Reached;
      var n := |steps| - 1;
      CausesAlways(requested, steps[..n]);
      ReachedPush(requested, steps);
      var s := Reached(requested, steps[..n]);
      CausesLast(requested, steps, n, s);
      if Enabled(s, steps[n]) {
        HappensLast(requested, steps);
        StepHasCause(requested, steps, s, steps[n]);
      }
    }
  }

  /** In every run: a dialogue fails only for an answer that failed, with its
      reason, or for isolation; and it is cancelled only if it was stopped or the
      task was dropped. */
  lemma EndingHasACause(requested: nat, steps: seq<Step>)
    ensures var phase := Reached(requested, steps).inner.phase;
            && (phase.Failed? ==> Failing(requested, steps, phase.why))
            && (phase.Cancelled? ==> Occurred(requested, steps, Stop) || Occurred(requested, steps, Drop))
  {
    CausesAlways(requested, steps);
  }

  /** Closing with `phase`, or done so, unless a stop came between. */
  predicate EndsAs(s: State, phase: Phase, stopped: bool) {
    || (!s.inner.phase.IsOver() && s.task == Closing(phase))
    || s.inner.phase == phase
    || (stopped && s.inner.phase.Cancelled?)
  }

  lemma StepEndsAs(s: State, step: Step, phase: Phase, stopped: bool)
    requires EndsAs(s, phase, stopped) && phase.IsOver() && PauseRemembers(s.inner)
    ensures EndsAs(Took(s, step), phase, stopped || step.Stop?)
  {
    if s.inner.phase.IsOver() {
      hide Took;
      OverStays(s, step);
    } else if Enabled(s, step) && !ByTask(step) {
      RequestMovesOn(s, step);
    }
  }

  lemma RequestMovesOn(s: State, step: Step)
    requires !s.inner.phase.IsOver() && PauseRemembers(s.inner) && Enabled(s, step) && !ByTask(step)
    ensures var t := RequestStep(s, step);
            && t.task == s.task && (t.inner.phase.IsOver() ==> t.inner.phase.Cancelled? && step.Stop?)
  {
    hide Enabled;
    RequestLeavesTask(s, step);
  }

  lemma {:induction false} ClosingDecides(s: State, phase: Phase, stopped: bool, later: seq<Step>)
    requires EndsAs(s, phase, stopped) && phase.IsOver() && TranscriptInv(s)
    ensures EndsAs(After(s, later), phase, stopped || Stop in later)
    decreases |later|
  {
    hide Took, EndsAs, TranscriptInv;
    if later != [] {
      TranscriptRemembers(s);
      TranscriptKept(s, later[0]);
      StepEndsAs(s, later[0], phase, stopped);
      ClosingDecides(Took(s, later[0]), phase, stopped || later[0].Stop?, later[1..]);
      assert later == [later[0]] + later[1..];
    }
  }

  lemma TranscriptRemembers(s: State)
    requires TranscriptInv(s)
    ensures PauseRemembers(s.inner)
  {
  }

  /** From any state of a run: an answer that fails, isolation, and the turn at the cap end
      the dialogue as failed with the reason, as failed by isolation, and as
      finished - in every continuation, unless a stop comes first; and a stop
      cancels a dialogue that is not over. */
  lemma WhatEndsIt(requested: nat, steps: seq<Step>, step: Step, later: seq<Step>)
    requires var s := Reached(requested, steps); Enabled(s, step) && !s.inner.phase.IsOver()
    ensures var s := Reached(requested, steps);
            var t := After(Took(s, step), later);
            && (step.Answer? && step.reply.None? ==> EndsAs(t, Failed(step.why), Stop in later))
            && (step == Check(true) ==> EndsAs(t, Failed("shed by isolation mode"), Stop in later))
            && (step.Tell? && s.task.turn.n >= s.max ==> EndsAs(t, Finished, Stop in later))
            && (step.Stop? ==> t.inner.phase == Cancelled)
  {
    hide After, EndsAs, TranscriptInv;
    var s := Reached(requested, steps);
    InitialIsFine(requested);
    TranscriptAlways(Initial(requested), steps);
    TranscriptKept(s, step);
    if step.Answer? && step.reply.None? {
      ClosesAs(s, step, Failed(step.why));
      ClosingDecides(Took(s, step), Failed(step.why), false, later);
    } else if step == Check(true) {
      ClosesAs(s, step, Failed(SHED));
      ClosingDecides(Took(s, step), Failed(SHED), false, later);
    } else if step.Tell? && s.task.turn.n >= s.max {
      ClosesAs(s, step, Finished);
      ClosingDecides(Took(s, step), Finished, false, later);
    } else if step.Stop? {
      EndedIsForever(Took(s, step), later);
    }
  }

  lemma ClosesAs(s: State, step: Step, phase: Phase)
    requires Enabled(s, step) && !s.inner.phase.IsOver()
    requires || (step.Answer? && step.reply.None? && phase == Failed(step.why))
             || (step == Check(true) && phase == Failed(SHED))
             || (step.Tell? && s.task.turn.n >= s.max && phase == Finished)
    ensures EndsAs(Took(s, step), phase, false)
  {
  }

  // ---- Whether it was archived ----

  /** The guard has tried to archive the transcript. */
  predicate Tried(p: Place) { p.LastReading? || p.LastSending? || p.LastTelling? || p.Gone? }

  ghost predicate ArchiveInv(requested: nat, steps: seq<Step>, s: State) {
    if Tried(s.task) then
      exists shed, written :: Occurred(requested, steps, Archive(shed, written))
                              && s.inner.archived == (!shed && written && |s.inner.turns| > 0)
    else !s.inner.archived
  }

  lemma StepArchives(requested: nat, steps: seq<Step>, s: State, step: Step)
    requires ArchiveInv(requested, steps, s) && TranscriptInv(s) && Enabled(s, step) && Occurred(requested, steps, step)
    ensures ArchiveInv(requested, steps, Apply(s, step))
  {
    hide WellNumbered, PauseRemembers, Occurred, SpeakStep, RequestStep, TranscriptInv;
    if !ByTask(step) {
      hide Enabled;
      RequestLeavesTask(s, step);
    } else if !ByGuard(step) {
      hide Enabled;
      SpeechArchivesNothing(s, step);
    } else if step.Archive? {
      assert Occurred(requested, steps, Archive(step.shed, step.written));
    } else if step.LockGuard? {
    } else {
      var shed, written :| Occurred(requested, steps, Archive(shed, written))
                           && s.inner.archived == (!shed && written && |s.inner.turns| > 0);
      var t := Apply(s, step);
      assert Occurred(requested, steps, Archive(shed, written))
             && t.inner.archived == (!shed && written && |t.inner.turns| > 0);
    }
  }

  lemma SpeechArchivesNothing(s: State, step: Step)
    requires TranscriptInv(s) && Enabled(s, step) && ByTask(step) && !ByGuard(step)
    ensures var t := SpeakStep(s, step); t.inner.archived == s.inner.archived && !Tried(s.task) && !Tried(t.task)
  {
    hide SpeakStep, WellNumbered, PauseRemembers;
    SpeechKeepsFlag(s, step);
    SpeechTriesNothing(s, step);
  }

  lemma SpeechKeepsFlag(s: State, step: Step)
    requires Enabled(s, step) && ByTask(step) && !ByGuard(step)
    ensures SpeakStep(s, step).inner.archived == s.inner.archived
  {
    hide NextPlace, Enabled, ByTask;
  }

  lemma SpeechTriesNothing(s: State, step: Step)
    requires TranscriptInv(s) && Enabled(s, step) && ByTask(step) && !ByGuard(step)
    ensures !Tried(SpeakStep(s, step).task)
  {
    hide WellNumbered, PauseRemembers;
  }

  /** In every run: the archived flag is up exactly when the guard archived a
      dialogue that had turns, outside isolation, and the write succeeded. */
  lemma {:induction false} ArchivedMeansWritten(requested: nat, steps: seq<Step>)
    ensures ArchiveInv(requested, steps, Reached(requested, steps))
    decreases |steps|
  {
    if steps != [] {
      hide Apply, TranscriptInv, ArchiveInv, Reached;
      var n := |steps| - 1;
      ArchivedMeansWritten(requested, steps[..n]);
      ReachedPush(requested, steps);
      var s := Reached(requested, steps[..n]);
      ArchiveLasts(requested, steps, n, s);
      if Enabled(s, steps[n]) {
        HappensLast(requested, steps);
        StepArchives(requested, steps, s, steps[n]);
      }
    }
  }

  lemma ArchiveLasts(requested: nat, steps: seq<Step>, n: nat, s: State)
    requires n <= |steps| && ArchiveInv(requested, steps[..n], s)
    ensures ArchiveInv(requested, steps, s)
  {
    hide Occurred;
    if Tried(s.task) {
      var shed, written :| Occurred(requested, steps[..n], Archive(shed, written))
                           && s.inner.archived == (!shed && written && |s.inner.turns| > 0);
      HappenedBefore(requested, steps, n, Archive(shed, written));
    }
  }

  // ---- What the statuses say ----

  /** The status is that of the dialogue at some point of the run. */
  ghost predicate Real(requested: nat, steps: seq<Step>, status: Status) {
    exists k :: 0 <= k <= |steps| && status == StatusOf(Reached(requested, steps[..k]).inner)
  }

  ghost predicate Told(requested: nat, steps: seq<Step>, s: State) {
    && (forall i :: 0 <= i < |s.sent| && s.sent[i].StatusEvent? ==> Real(requested, steps, s.sent[i].status))
    && (s.task.Sending? ==> Real(requested, steps, s.task.status))
    && (s.task.LastSending? ==> Real(requested, steps, s.task.status))
    && (forall i :: 0 <= i < |s.pauses| && s.pauses[i].PauseSending? ==> Real(requested, steps, s.pauses[i].status))
  }

  lemma RealLasts(requested: nat, steps: seq<Step>, n: nat, status: Status)
    requires n <= |steps| && Real(requested, steps[..n], status)
    ensures Real(requested, steps, status)
  {
    var k :| 0 <= k <= n && status == StatusOf(Reached(requested, steps[..n][..k]).inner);
    assert steps[..n][..k] == steps[..k];
  }

  lemma ToldLasts(requested: nat, steps: seq<Step>, n: nat, s: State)
    requires n <= |steps| && Told(requested, steps[..n], s)
    ensures Told(requested, steps, s)
  {
    hide Real;
    forall status | Real(requested, steps[..n], status) ensures Real(requested, steps, status) {
      RealLasts(requested, steps, n, status);
    }
  }

  lemma RealNow(requested: nat, steps: seq<Step>, n: nat)
    requires n <= |steps|
    ensures Real(requested, steps, StatusOf(Reached(requested, steps[..n]).inner))
  {
  }

  lemma SpeechTells(requested: nat, steps: seq<Step>, s: State, step: Step)
    requires TranscriptInv(s) && Told(requested, steps, s) && Real(requested, steps, StatusOf(s.inner))
    requires Enabled(s, step) && ByTask(step) && !ByGuard(step)
    ensures Told(requested, steps, SpeakStep(s, step))
  {
    hide Real, WellNumbered, PauseRemembers;
  }

  lemma GuardTells(requested: nat, steps: seq<Step>, s: State, step: Step)
    requires Told(requested, steps, s) && Real(requested, steps, StatusOf(s.inner))
    requires Enabled(s, step) && ByTask(step) && ByGuard(step)
    ensures Told(requested, steps, GuardStep(s, step))
  {
    hide Real;
  }

  lemma RequestTells(requested: nat, steps: seq<Step>, s: State, step: Step)
    requires Told(requested, steps, s) && Real(requested, steps, StatusOf(s.inner))
    requires Enabled(s, step) && !ByTask(step)
    ensures Told(requested, steps, RequestStep(s, step))
  {
    hide Real;
  }

  /** In every run every status broadcast was that of the dialogue at some moment. */
  lemma {:induction false} StatusesAreReal(requested: nat, steps: seq<Step>)
    ensures Told(requested, steps, Reached(requested, steps))
    decreases |steps|
  {
    if steps != [] {
      hide SpeakStep, GuardStep, RequestStep, TranscriptInv, Told, Reached, Enabled, Real;
      var n := |steps| - 1;
      StatusesAreReal(requested, steps[..n]);
      ReachedPush(requested, steps);
      var s := Reached(requested, steps[..n]);
      ToldLasts(requested, steps, n, s);
      RealNow(requested, steps, n);
      if Enabled(s, steps[n]) {
        if !ByTask(steps[n]) {
          RequestTells(requested, steps, s, steps[n]);
        } else if ByGuard(steps[n]) {
          GuardTells(requested, steps, s, steps[n]);
        } else {
          SpeechTells(requested, steps, s, steps[n]);
        }
      }
    }
  }

  ghost predicate LastIsTold(s: State) {
    s.task.LastTelling? || s.task.Gone? ==> StatusEvent(StatusOf(s.inner)) in s.sent
  }

  lemma StepTellsLast(s: State, step: Step)
    requires TranscriptInv(s) && EndingInv(s) && LastIsTold(s) && Enabled(s, step)
    ensures LastIsTold(Apply(s, step))
  {
    hide WellNumbered, SpeakStep, RequestStep, PauseRemembers;
    if !ByTask(step) {
      hide Enabled;
      RequestLeavesTask(s, step);
      RequestMovesPhase(s, step);
    } else if !ByGuard(step) {
      SpeechTriesNothing(s, step);
    }
  }

  /** In every run: by the time a dialogue is announced as ended, its last status
      has been broadcast. */
  lemma {:induction false} EndingFollowsItsStatus(requested: nat, steps: seq<Step>)
    ensures LastIsTold(Reached(requested, steps))
    decreases |steps|
  {
    if steps == [] {
    } else {
      hide Apply, TranscriptInv, LastIsTold, Reached;
      var n := |steps| - 1;
      EndingFollowsItsStatus(requested, steps[..n]);
      ReachedPush(requested, steps);
      EndingHolds(requested, steps[..n]);
      if Enabled(Reached(requested, steps[..n]), steps[n]) { StepTellsLast(Reached(requested, steps[..n]), steps[n]); }
    }
  }

  lemma EndingHolds(requested: nat, steps: seq<Step>)
    ensures EndingInv(Reached(requested, steps))
  {
    hide TranscriptInv, After;
    InitialIsFine(requested);
    BroadcastAlways(Initial(requested), steps);
  }

  // ---- What a listener knows of a dialogue that nobody pauses ----

  function LastStatus(sent: seq<Event>): Option<Status> {
    if sent == [] then None
    else if sent[|sent| - 1].StatusEvent? then Some(sent[|sent| - 1].status)
    else LastStatus(sent[..|sent| - 1])
  }

  ghost predicate Announces(s: State) {
    && s.pauses == [] && !s.inner.phase.Paused?
    && (!s.inner.phase.IsOver() ==>
          && (s.task.Sending? && s.task.next.Asking? ==> s.task.status == StatusOf(s.inner))
          && (s.task.Asking? || s.task.Pushing? ==> LastStatus(s.sent) == Some(StatusOf(s.inner))))
  }

  lemma SpeechAnnounces(s: State, step: Step)
    requires TranscriptInv(s) && Announces(s) && Enabled(s, step) && ByTask(step) && !ByGuard(step)
    ensures Announces(SpeakStep(s, step))
  {
    hide WellNumbered, PauseRemembers;
  }

  lemma StepAnnounces(s: State, step: Step)
    requires TranscriptInv(s) && Announces(s) && Enabled(s, step) && !step.Call?
    ensures Announces(Apply(s, step))
  {
    hide SpeakStep, WellNumbered, PlaceFits, PauseRemembers;
    if ByTask(step) && !ByGuard(step) { SpeechAnnounces(s, step); }
  }

  lemma {:induction false} AnnouncesAlways(requested: nat, steps: seq<Step>)
    requires forall k :: 0 <= k < |steps| ==> !steps[k].Call?
    ensures Announces(Reached(requested, steps))
    decreases |steps|
  {
    if steps != [] {
      hide Apply, TranscriptInv, Announces, Reached;
      var n := |steps| - 1;
      AnnouncesAlways(requested, steps[..n]);
      ReachedPush(requested, steps);
      if Enabled(Reached(requested, steps[..n]), steps[n]) { StepAnnounces(Reached(requested, steps[..n]), steps[n]); }
    }
  }

  /** While a side is asked, in a run without pauses, the last status broadcast is
      the dialogue's status: this side is thinking, after so many turns. */
  lemma ThinkingIsTold(requested: nat, steps: seq<Step>)
    requires forall k :: 0 <= k < |steps| ==> !steps[k].Call?
    ensures var s := Reached(requested, steps);
            s.task.Asking? && !s.inner.phase.IsOver() ==>
              LastStatus(s.sent) == Some(Status(|s.inner.turns|, Thinking(s.task.who), false))
  {
    hide TranscriptInv, Reached;
    AnnouncesAlways(requested, steps);
    PhaseShowsTheSpeaker(requested, steps);
    ArchivedMeansWritten(requested, steps);
  }

  // ---- One pause, one resume ----

  /** A call to `set_paused` that nothing comes between. */
  function PauseCall(paused: bool, i: nat): seq<Step> { [Call(paused), Flag(i), Lock(i), PauseRead(i), PauseSend(i)] }

  lemma CallSets(s: State, paused: bool, to: Inner)
    requires PausedSet(s.inner, paused) == (to, true)
    ensures After(s, PauseCall(paused, |s.pauses|)) ==
            s.(mayGoOn := !paused, inner := to, sent := s.sent + [StatusEvent(StatusOf(to))],
               pauses := s.pauses + [PauseDone])
  {
    hide After, PausedSet, Took;
    CallMoves(s, paused, to);
    AfterFive(s, PauseCall(paused, |s.pauses|));
  }

  lemma CallMoves(s: State, paused: bool, to: Inner)
    requires PausedSet(s.inner, paused) == (to, true)
    ensures var n, steps := |s.pauses|, PauseCall(paused, |s.pauses|);
            Took(Took(Took(Took(Took(s, steps[0]), steps[1]), steps[2]), steps[3]), steps[4]) ==
            s.(mayGoOn := !paused, inner := to, sent := s.sent + [StatusEvent(StatusOf(to))],
               pauses := s.pauses + [PauseDone])
  {
    hide Took, PausedSet;
    var n := |s.pauses|;
    var s1 := s.(pauses := s.pauses + [Flagging(paused)]);
    var s2 := s1.(mayGoOn := !paused, pauses := s.pauses + [Locking(paused)]);
    var s3 := s2.(inner := to, pauses := s.pauses + [PauseReading]);
    var s4 := s3.(pauses := s.pauses + [PauseSending(StatusOf(to))]);
    CallTaken(s, paused);
    FlagTaken(s1, s.pauses, paused);
    LockTaken(s2, s.pauses, paused, to);
    ReadTaken(s3, s.pauses);
    SendTaken(s4, s.pauses, StatusOf(to));
  }

  lemma CallTaken(s: State, paused: bool)
    ensures Took(s, Call(paused)) == s.(pauses := s.pauses + [Flagging(paused)])
  {
  }

  lemma FlagTaken(s: State, before: seq<Pause>, paused: bool)
    requires s.pauses == before + [Flagging(paused)]
    ensures Took(s, Flag(|before|)) == s.(mayGoOn := !paused, pauses := before + [Locking(paused)])
  {
  }

  lemma LockTaken(s: State, before: seq<Pause>, paused: bool, to: Inner)
    requires s.pauses == before + [Locking(paused)] && PausedSet(s.inner, paused) == (to, true)
    ensures Took(s, Lock(|before|)) == s.(inner := to, pauses := before + [PauseReading])
  {
    hide PausedSet;
  }

  lemma ReadTaken(s: State, before: seq<Pause>)
    requires s.pauses == before + [PauseReading]
    ensures Took(s, PauseRead(|before|)) == s.(pauses := before + [PauseSending(StatusOf(s.inner))])
  {
  }

  lemma SendTaken(s: State, before: seq<Pause>, status: Status)
    requires s.pauses == before + [PauseSending(status)]
    ensures Took(s, PauseSend(|before|)) ==
            s.(sent := s.sent + [StatusEvent(status)], pauses := before + [PauseDone])
  {
  }

  lemma AfterFive(s: State, steps: seq<Step>)
    requires |steps| == 5
    ensures After(s, steps) == Took(Took(Took(Took(Took(s, steps[0]), steps[1]), steps[2]), steps[3]), steps[4])
  {
    hide Took, After;
    AfterOne(s, steps);
    AfterOne(Took(s, steps[0]), steps[1..]);
    AfterOne(Took(Took(s, steps[0]), steps[1]), steps[1..][1..]);
    AfterOne(Took(Took(Took(s, steps[0]), steps[1]), steps[2]), steps[1..][1..][1..]);
    AfterOne(Took(Took(Took(Took(s, steps[0]), steps[1]), steps[2]), steps[3]), steps[1..][1..][1..][1..]);
    AfterNothing(Took(Took(Took(Took(Took(s, steps[0]), steps[1]), steps[2]), steps[3]), steps[4]));
    assert steps[1..][1..][1..][1..][1..] == [];
  }

  lemma AfterOne(s: State, steps: seq<Step>)
    requires steps != []
    ensures After(s, steps) == After(Took(s, steps[0]), steps[1..])
  {
  }

  /** A pause of a dialogue that is thinking holds it and says so; a resume undoes
      the pause, and says again who is thinking. */
  lemma ResumeUndoesPause(s: State)
    requires s.inner.phase.Thinking?
    ensures var t := After(s, PauseCall(true, |s.pauses|));
            && t == s.(mayGoOn := false, inner := t.inner, sent := t.sent, pauses := t.pauses)
            && t.inner == s.inner.(phase := Paused, beforePause := t.inner.beforePause)
            && t.sent == s.sent + [StatusEvent(Status(|s.inner.turns|, Paused, s.inner.archived))]
            && var u := After(t, PauseCall(false, |t.pauses|));
               && u == s.(mayGoOn := true, inner := s.inner.(beforePause := None), sent := u.sent, pauses := u.pauses)
               && u.sent == t.sent + [StatusEvent(StatusOf(s.inner))]
  {
    hide After;
    CallSets(s, true, PausedSet(s.inner, true).0);
    var t := After(s, PauseCall(true, |s.pauses|));
    CallSets(t, false, PausedSet(t.inner, false).0);
  }
}
