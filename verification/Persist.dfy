/** Waiting at shutdown for the writes still in flight (`src/persist.rs`).

    Every atomic operation of a task or of a call to `flush` is one step, and
    the steps of any number of tasks and calls interleave freely. */
module PersistCoordinators {
  import opened Text

  /** A task passed to `track`. `Lowered`: its guard has lowered the counter and
      not yet notified. `Abandoned`: the runtime dropped it before it started. */
  datatype Task = Counted | Running | Lowered | Done | Abandoned

  /** Where a call to `flush` is. */
  datatype Place =
    | Called
    | Selecting
    | Registered(signalled: bool)
    | Asleep(signalled: bool)
    | Expired
    | Returned(all: bool)

  /** `since`: how many tasks had been tracked when the call was made. */
  datatype Flush = Flush(since: nat, place: Place)

  datatype State = State(inFlight: int, tasks: seq<Task>, flushes: seq<Flush>)

  const INITIAL := State(0, [], [])

  datatype Step =
    | Track
    | Start(t: nat)
    | Lower(t: nat)
    | Notify(t: nat)
    | Abandon(t: nat)
    | Call
    | FirstLoad(f: nat)
    | Register(f: nat)
    | Check(f: nat)
    | Wake(f: nat)
    | Expire(f: nat)
    | LastLoad(f: nat)

  predicate TaskIs(s: State, t: nat, at: Task) { t < |s.tasks| && s.tasks[t] == at }

  predicate HasCall(s: State, f: nat) { f < |s.flushes| }

  /** The steps that the code can take from `s`. */
  predicate Enabled(s: State, step: Step) {
    match step
    case Track => true
    case Call => true
    case Start(t) => TaskIs(s, t, Counted)
    case Abandon(t) => TaskIs(s, t, Counted)
    case Lower(t) => TaskIs(s, t, Running)
    case Notify(t) => TaskIs(s, t, Lowered)
    case FirstLoad(f) => HasCall(s, f) && s.flushes[f].place.Called?
    case Register(f) => HasCall(s, f) && s.flushes[f].place.Selecting?
    case Check(f) => HasCall(s, f) && s.flushes[f].place.Registered?
    case Wake(f) => HasCall(s, f) && s.flushes[f].place == Asleep(true)
    case Expire(f) => HasCall(s, f) && (s.flushes[f].place.Selecting? || s.flushes[f].place.Asleep?)
    case LastLoad(f) => HasCall(s, f) && s.flushes[f].place.Expired?
  }

  function Moved(s: State, f: nat, place: Place): State
    requires f < |s.flushes|
  {
    s.(flushes := s.flushes[f := s.flushes[f].(place := place)])
  }

  function Signalled(f: Flush): Flush {
    match f.place
    case Registered(_) => f.(place := Registered(true))
    case Asleep(_) => f.(place := Asleep(true))
    case _ => f
  }

  function Apply(s: State, step: Step): State
    requires Enabled(s, step)
  {
    match step
    // `track`: the counter is raised before the task is spawned.
    case Track => s.(inFlight := s.inFlight + 1, tasks := s.tasks + [Counted])
    case Start(t) => s.(tasks := s.tasks[t := Running])
    case Abandon(t) => s.(tasks := s.tasks[t := Abandoned])
    // The guard's drop, after the work returned or panicked.
    case Lower(t) => s.(inFlight := s.inFlight - 1, tasks := s.tasks[t := Lowered])
    case Notify(t) =>
      s.(tasks := s.tasks[t := Done],
         flushes := seq(|s.flushes|, f requires 0 <= f < |s.flushes| => Signalled(s.flushes[f])))
    case Call => s.(flushes := s.flushes + [Flush(|s.tasks|, Called)])
    case FirstLoad(f) => Moved(s, f, if s.inFlight == 0 then Returned(true) else Selecting)
    case Register(f) => Moved(s, f, Registered(false))
    case Check(f) => Moved(s, f, if s.inFlight == 0 then Returned(true) else Asleep(s.flushes[f].place.signalled))
    case Wake(f) => Moved(s, f, Selecting)
    case Expire(f) => Moved(s, f, Expired)
    case LastLoad(f) => Moved(s, f, Returned(s.inFlight == 0))
  }

  /** The state after a run; a step that is not enabled does nothing. */
  function After(s: State, steps: seq<Step>): State
    decreases |steps|
  {
    if steps == [] then s else After(if Enabled(s, steps[0]) then Apply(s, steps[0]) else s, steps[1..])
  }

  // ---- What every run keeps ----

  predicate Finished(t: Task) { t.Lowered? || t.Done? }

  function Unfinished(tasks: seq<Task>): nat {
    if tasks == [] then 0 else (if Finished(tasks[|tasks| - 1]) then 0 else 1) + Unfinished(tasks[..|tasks| - 1])
  }

  lemma {:induction false} UnfinishedUpdate(tasks: seq<Task>, t: nat, to: Task)
    requires t < |tasks|
    ensures Unfinished(tasks[t := to]) ==
            Unfinished(tasks) - (if Finished(tasks[t]) then 0 else 1) + (if Finished(to) then 0 else 1)
  {
    var last := |tasks| - 1;
    if t < last {
      assert tasks[t := to][..last] == tasks[..last][t := to];
      UnfinishedUpdate(tasks[..last], t, to);
    } else {
      assert tasks[t := to][..last] == tasks[..last];
    }
  }

  lemma {:induction false} NoneUnfinished(tasks: seq<Task>)
    ensures Unfinished(tasks) == 0 <==> forall t :: 0 <= t < |tasks| ==> Finished(tasks[t])
  {
    if tasks != [] {
      var last := |tasks| - 1;
      NoneUnfinished(tasks[..last]);
      assert forall t :: 0 <= t < last ==> tasks[t] == tasks[..last][t];
    }
  }

  /** Some guard is between its decrement and its notify. */
  predicate Notifying(s: State) { exists t :: 0 <= t < |s.tasks| && s.tasks[t] == Lowered }

  /** No lost wake-up: a sleeper nobody has signalled still has someone to wait for. */
  ghost predicate NoLostWakeup(s: State) {
    forall f :: 0 <= f < |s.flushes| && s.flushes[f].place == Asleep(false) ==> s.inFlight > 0 || Notifying(s)
  }

  predicate AllFinished(s: State, n: nat) { n <= |s.tasks| && forall t :: 0 <= t < n ==> Finished(s.tasks[t]) }

  /** A flush that returned true left no task unfinished that was tracked before it. */
  ghost predicate TrueMeansFinished(s: State) {
    forall f :: 0 <= f < |s.flushes| ==>
      s.flushes[f].since <= |s.tasks| && (s.flushes[f].place == Returned(true) ==> AllFinished(s, s.flushes[f].since))
  }

  ghost predicate Inv(s: State) {
    s.inFlight == Unfinished(s.tasks) && NoLostWakeup(s) && TrueMeansFinished(s)
  }

  lemma CountKept(s: State, step: Step)
    requires s.inFlight == Unfinished(s.tasks) && Enabled(s, step)
    ensures Apply(s, step).inFlight == Unfinished(Apply(s, step).tasks)
  {
    match step
    case Track => assert (s.tasks + [Counted])[..|s.tasks|] == s.tasks;
    case Start(t) => UnfinishedUpdate(s.tasks, t, Running);
    case Abandon(t) => UnfinishedUpdate(s.tasks, t, Abandoned);
    case Lower(t) => UnfinishedUpdate(s.tasks, t, Lowered);
    case Notify(t) => UnfinishedUpdate(s.tasks, t, Done);
    case _ =>
  }

  lemma WakeupKept(s: State, step: Step)
    requires Inv(s) && Enabled(s, step)
    ensures NoLostWakeup(Apply(s, step))
  {
    hide Unfinished, TrueMeansFinished;
    var after := Apply(s, step);
    match step
    case Notify(t) =>
    case Lower(t) => assert after.tasks[t] == Lowered;
    case Start(t) => SameLowered(s, after, t, Running);
    case Abandon(t) => SameLowered(s, after, t, Abandoned);
    case Track => assert forall t :: 0 <= t < |s.tasks| ==> after.tasks[t] == s.tasks[t];
    case _ =>
  }

  lemma SameLowered(s: State, after: State, t: nat, to: Task)
    requires t < |s.tasks| && s.tasks[t] != Lowered && after.tasks == s.tasks[t := to]
    ensures Notifying(s) ==> Notifying(after)
  {
    if Notifying(s) {
      var k :| 0 <= k < |s.tasks| && s.tasks[k] == Lowered;
      assert after.tasks[k] == Lowered;
    }
  }

  lemma TrueKept(s: State, step: Step)
    requires Inv(s) && Enabled(s, step)
    ensures TrueMeansFinished(Apply(s, step))
  {
    hide Unfinished, NoLostWakeup;
    var after := Apply(s, step);
    NoneUnfinished(s.tasks);
    forall f | 0 <= f < |after.flushes|
      ensures after.flushes[f].since <= |after.tasks|
      ensures after.flushes[f].place == Returned(true) ==> AllFinished(after, after.flushes[f].since)
    {
      if f < |s.flushes| {
        assert after.flushes[f].since == s.flushes[f].since <= |s.tasks| <= |after.tasks|;
        assert forall t :: 0 <= t < |s.tasks| && Finished(s.tasks[t]) ==> Finished(after.tasks[t]);
      }
    }
  }

  lemma StepKeeps(s: State, step: Step)
    requires Inv(s) && Enabled(s, step)
    ensures Inv(Apply(s, step))
  {
    hide Unfinished, NoLostWakeup, TrueMeansFinished;
    CountKept(s, step);
    WakeupKept(s, step);
    TrueKept(s, step);
  }

  lemma {:induction false} RunKeeps(s: State, steps: seq<Step>)
    requires Inv(s)
    ensures Inv(After(s, steps))
    decreases |steps|
  {
    hide Inv;
    if steps != [] {
      if Enabled(s, steps[0]) { StepKeeps(s, steps[0]); }
      RunKeeps(if Enabled(s, steps[0]) then Apply(s, steps[0]) else s, steps[1..]);
    }
  }

  // ---- The theorems ----

  /** In every reachable state a flush that sleeps without having been notified
      has a task in flight, or one between its decrement and its notify. */
  lemma WakeupIsNeverLost(steps: seq<Step>, f: nat)
    requires f < |After(INITIAL, steps).flushes| && After(INITIAL, steps).flushes[f].place == Asleep(false)
    ensures var s := After(INITIAL, steps);
            (exists t :: 0 <= t < |s.tasks| && !Finished(s.tasks[t])) || Notifying(s)
  {
    RunKeeps(INITIAL, steps);
    NoneUnfinished(After(INITIAL, steps).tasks);
  }

  /** Whenever `flush` returns true, every task tracked before the call has
      finished, in the state it returns in and in every later one. */
  lemma TrueIsEarned(steps: seq<Step>, f: nat, t: nat)
    requires f < |After(INITIAL, steps).flushes| && After(INITIAL, steps).flushes[f].place == Returned(true)
    requires t < After(INITIAL, steps).flushes[f].since
    ensures t < |After(INITIAL, steps).tasks| && Finished(After(INITIAL, steps).tasks[t])
  {
    RunKeeps(INITIAL, steps);
  }

  function Took(s: State, step: Step): State { if Enabled(s, step) then Apply(s, step) else s }

  lemma {:induction false} AfterLast(s: State, steps: seq<Step>)
    requires steps != []
    ensures var n := |steps| - 1; After(s, steps) == Took(After(s, steps[..n]), steps[n])
    decreases |steps|
  {
    hide Enabled, Apply;
    if |steps| > 1 {
      assert steps[1..][..|steps| - 2] == steps[..|steps| - 1][1..];
      AfterLast(Took(s, steps[0]), steps[1..]);
    }
  }

  /** The k-th step of the run was `step`, and it took effect. */
  ghost predicate Happened(steps: seq<Step>, k: nat, step: Step) {
    k < |steps| && steps[k] == step && Enabled(After(INITIAL, steps[..k]), step)
  }

  predicate SomeUnfinished(s: State) { exists t :: 0 <= t < |s.tasks| && !Finished(s.tasks[t]) }

  /** Call `f` has timed out; or it has done so and then found a task unfinished. */
  ghost predicate TimedOut(steps: seq<Step>, f: nat) {
    exists j: nat :: Happened(steps, j, Expire(f))
  }

  ghost predicate FoundUnfinished(steps: seq<Step>, f: nat) {
    exists k: nat :: Happened(steps, k, LastLoad(f)) && TimedOut(steps[..k], f)
                     && SomeUnfinished(After(INITIAL, steps[..k]))
  }

  lemma TimedOutBefore(steps: seq<Step>, n: nat, f: nat)
    requires n <= |steps|
    ensures TimedOut(steps[..n], f) ==> TimedOut(steps, f)
    ensures FoundUnfinished(steps[..n], f) ==> FoundUnfinished(steps, f)
  {
    if TimedOut(steps[..n], f) {
      var j: nat :| Happened(steps[..n], j, Expire(f));
      assert steps[..n][..j] == steps[..j];
      assert Happened(steps, j, Expire(f));
    }
    if FoundUnfinished(steps[..n], f) {
      var k: nat :| Happened(steps[..n], k, LastLoad(f)) && TimedOut(steps[..n][..k], f)
                    && SomeUnfinished(After(INITIAL, steps[..n][..k]));
      assert steps[..n][..k] == steps[..k];
      assert Happened(steps, k, LastLoad(f));
    }
  }

  lemma StepOfCall(s: State, step: Step, f: nat)
    requires Enabled(s, step) && f < |Apply(s, step).flushes|
    ensures var place := Apply(s, step).flushes[f].place;
            && (place.Expired? ==> step == Expire(f) || (f < |s.flushes| && s.flushes[f].place.Expired?))
            && (place == Returned(false) ==>
                  || (f < |s.flushes| && s.flushes[f].place == Returned(false))
                  || (step == LastLoad(f) && f < |s.flushes| && s.flushes[f].place.Expired? && s.inFlight != 0))
  {
  }

  /** Whenever `flush` returns false, the timeout had passed and a task was then
      unfinished. */
  lemma {:induction false} FalseIsEarned(steps: seq<Step>, f: nat)
    ensures var s := After(INITIAL, steps);
            f < |s.flushes| ==>
              && (s.flushes[f].place.Expired? ==> TimedOut(steps, f))
              && (s.flushes[f].place == Returned(false) ==> FoundUnfinished(steps, f))
    decreases |steps|
  {
    if steps != [] {
      var n := |steps| - 1;
      var s, step := After(INITIAL, steps[..n]), steps[n];
      FalseIsEarned(steps[..n], f);
      TimedOutBefore(steps, n, f);
      AfterLast(INITIAL, steps);
      RunKeeps(INITIAL, steps[..n]);
      hide After, Apply, Enabled, NoLostWakeup, TrueMeansFinished, TimedOut, FoundUnfinished;
      if Enabled(s, step) && f < |Apply(s, step).flushes| {
        StepOfCall(s, step, f);
        NoneUnfinished(s.tasks);
        LastStep(steps, f);
      }
    }
  }

  lemma LastStep(steps: seq<Step>, f: nat)
    requires steps != []
    ensures var n := |steps| - 1;
            var s := After(INITIAL, steps[..n]);
            && (steps[n] == Expire(f) && Enabled(s, steps[n]) ==> TimedOut(steps, f))
            && (steps[n] == LastLoad(f) && Enabled(s, steps[n]) && TimedOut(steps[..n], f) && SomeUnfinished(s) ==>
                  FoundUnfinished(steps, f))
  {
    var n := |steps| - 1;
    if Enabled(After(INITIAL, steps[..n]), steps[n]) { assert Happened(steps, n, steps[n]); }
  }

  /** What call `f` does next when it does not time out. */
  function NextOf(s: State, f: nat): Option<Step>
    requires f < |s.flushes|
  {
    match s.flushes[f].place
    case Called => Some(FirstLoad(f))
    case Selecting => Some(Register(f))
    case Registered(_) => Some(Check(f))
    case Asleep(signalled) => if signalled then Some(Wake(f)) else None
    case Expired => Some(LastLoad(f))
    case Returned(_) => None
  }

  /** Call `f` running by itself for at most `n` steps. */
  function Alone(s: State, f: nat, n: nat): (steps: seq<Step>)
    requires f < |s.flushes|
    ensures |steps| <= n
    decreases n
  {
    if n == 0 || NextOf(s, f).None? then []
    else [NextOf(s, f).value] + Alone(Apply(s, NextOf(s, f).value), f, n - 1)
  }

  lemma AloneStep(s: State, f: nat, n: nat)
    requires f < |s.flushes| && n > 0 && NextOf(s, f).Some?
    ensures After(s, Alone(s, f, n)) ==
            After(Apply(s, NextOf(s, f).value), Alone(Apply(s, NextOf(s, f).value), f, n - 1))
  {
    assert Alone(s, f, n)[1..] == Alone(Apply(s, NextOf(s, f).value), f, n - 1);
  }

  /** Once every task has finished and notified, a flush that has not returned
      returns true in at most three more steps of its own, without the timeout. */
  lemma FlushReturns(steps: seq<Step>, f: nat)
    requires var s := After(INITIAL, steps);
             && f < |s.flushes| && !s.flushes[f].place.Returned?
             && forall t :: 0 <= t < |s.tasks| ==> s.tasks[t] == Done
    ensures var s := After(INITIAL, steps);
            f < |After(s, Alone(s, f, 3)).flushes| && After(s, Alone(s, f, 3)).flushes[f].place == Returned(true)
  {
    var s := After(INITIAL, steps);
    RunKeeps(INITIAL, steps);
    NoneUnfinished(s.tasks);
    FinishesAlone(s, f, 3);
  }

  /** How many steps a call is from returning when nothing is in flight. */
  function Distance(p: Place): nat {
    match p
    case Returned(_) => 0
    case Called => 1
    case Registered(_) => 1
    case Expired => 1
    case Selecting => 2
    case Asleep(_) => 3
  }

  lemma {:induction false} FinishesAlone(s: State, f: nat, n: nat)
    requires f < |s.flushes| && s.inFlight == 0 && s.flushes[f].place != Asleep(false)
    requires s.flushes[f].place != Returned(false) && Distance(s.flushes[f].place) <= n
    ensures f < |After(s, Alone(s, f, n)).flushes| && After(s, Alone(s, f, n)).flushes[f].place == Returned(true)
    decreases n
  {
    if s.flushes[f].place.Returned? {
      assert Alone(s, f, n) == [];
    } else {
      AloneStep(s, f, n);
      FinishesAlone(Apply(s, NextOf(s, f).value), f, n - 1);
    }
  }

  lemma {:induction false} AbandonedStays(s: State, steps: seq<Step>, t: nat, f: nat)
    requires Inv(s) && t < |s.tasks| && s.tasks[t] == Abandoned
    requires f < |s.flushes| ==> s.flushes[f].place != Returned(true)
    ensures var end := After(s, steps);
            && t < |end.tasks| && end.tasks[t] == Abandoned
            && (f < |end.flushes| ==> end.flushes[f].place != Returned(true))
    decreases |steps|
  {
    hide Unfinished, NoLostWakeup, TrueMeansFinished;
    if steps != [] {
      var step := steps[0];
      NoneUnfinished(s.tasks);
      if Enabled(s, step) {
        StepKeeps(s, step);
      }
      AbandonedStays(if Enabled(s, step) then Apply(s, step) else s, steps[1..], t, f);
    }
  }

  /** The guard is made when a task starts, so the counter is never lowered for
      a task dropped before that: from then on no flush returns true. */
  lemma AbandonedTaskBlocksFlush(steps: seq<Step>, later: seq<Step>, t: nat, f: nat)
    requires var s := After(INITIAL, steps);
             && t < |s.tasks| && s.tasks[t] == Abandoned
             && (f < |s.flushes| ==> s.flushes[f].place != Returned(true))
    ensures var end := After(After(INITIAL, steps), later);
            f < |end.flushes| ==> end.flushes[f].place != Returned(true)
  {
    RunKeeps(INITIAL, steps);
    AbandonedStays(After(INITIAL, steps), later, t, f);
  }

  predicate Settled(s: State) { forall t :: 0 <= t < |s.tasks| ==> s.tasks[t] == Done || s.tasks[t] == Abandoned }

  /** With every task done or abandoned, a call that has not returned can return
      true exactly when none was abandoned. */
  lemma ReturnsTrueIffNoneAbandoned(steps: seq<Step>, f: nat)
    requires var s := After(INITIAL, steps);
             f < |s.flushes| && !s.flushes[f].place.Returned? && Settled(s)
    ensures var s := After(INITIAL, steps);
            (exists later :: f < |After(s, later).flushes| && After(s, later).flushes[f].place == Returned(true)) <==>
            (forall t :: 0 <= t < |s.tasks| ==> s.tasks[t] != Abandoned)
  {
    var s := After(INITIAL, steps);
    if forall t :: 0 <= t < |s.tasks| ==> s.tasks[t] != Abandoned {
      RunKeeps(INITIAL, steps);
      NoneUnfinished(s.tasks);
      FinishesAlone(s, f, 3);
    } else {
      var t :| 0 <= t < |s.tasks| && s.tasks[t] == Abandoned;
      forall later
        ensures f < |After(s, later).flushes| ==> After(s, later).flushes[f].place != Returned(true)
      {
        AbandonedTaskBlocksFlush(steps, later, t, f);
      }
    }
  }
}
