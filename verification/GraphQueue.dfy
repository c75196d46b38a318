/** The order in which archives are taken, which are queued, and why one is
    refused (`src/graph_extract.rs`). */
module GraphQueues {
  import opened Text
  import opened GraphExtractors
  import opened GraphRuns
  import opened GraphSpending

  // ---- First in, first out ----

  /** Since the boot, what went into the queue was taken or is pending, in order. */
  ghost predicate InOrder(s: State) { s.atBoot <= |s.put| && s.put[s.atBoot..] == s.jobs + s.queue.pending }

  /** In three parts: `moved` go to the end of the queue, and one may leave the front. */
  lemma OrderMoves(s: State, t: State, moved: seq<nat>, taken: seq<nat>)
    requires InOrder(s) && t.atBoot == s.atBoot && t.put == s.put + moved && t.jobs == s.jobs + taken
    requires taken + t.queue.pending == s.queue.pending + moved
    ensures InOrder(t)
  {
    assert t.put[t.atBoot..] == s.put[s.atBoot..] + moved;
    assert s.jobs + s.queue.pending + moved == s.jobs + (s.queue.pending + moved);
    assert s.jobs + (taken + t.queue.pending) == s.jobs + taken + t.queue.pending;
  }

  lemma TakeKeepsOrder(s: State, i: nat)
    requires QueueInv(s) && InOrder(s) && Enabled(s, Take(i))
    ensures InOrder(TakenIn(s, i))
  {
    hide Refilled, IsTop, NoDuplicates, InOrder;
    var moved := RefillMoves(s.queue);
    var all, t := s.queue.pending + moved, TakenIn(s, i);
    assert all[|s.queue.pending|..] == moved && all[..|s.queue.pending|] == s.queue.pending;
    if all == [] {
      OrderMoves(s, t, moved, []);
    } else {
      assert [all[0]] + all[1..] == all;
      OrderMoves(s, t, moved, [all[0]]);
    }
  }

  lemma CatchUpKeepsOrder(s: State, logs: seq<nat>, listed: Option<set<nat>>)
    requires QueueInv(s) && InOrder(s) && s.scan.Some?
    ensures InOrder(CaughtUpIn(s, logs, listed))
  {
    hide Backlogged, Refilled, Found, IsTop, NoDuplicates, InOrder;
    var b := Backlogged(s.queue.(catchingUp := false), Found(logs, s.scan.value, listed));
    BackloggedKeeps(s.queue.(catchingUp := false), Found(logs, s.scan.value, listed));
    var moved := RefillMoves(b);
    var t := CaughtUpIn(s, logs, listed);
    assert (s.queue.pending + moved)[|s.queue.pending|..] == moved && s.jobs + [] == s.jobs;
    assert [] + t.queue.pending == t.queue.pending;
    OrderMoves(s, t, moved, []);
  }

  lemma OrderKept(s: State, step: Step)
    requires QueueInv(s) && InOrder(s)
    ensures InOrder(Took(s, step))
  {
    hide TakenIn, CaughtUpIn, NoDuplicates;
    if Enabled(s, step) {
      match step
      case CatchUp(logs, listed) => CatchUpKeepsOrder(s, logs, listed);
      case Take(i) => TakeKeepsOrder(s, i);
      case Enqueue(n) =>
        var t := EnqueuedIn(s, n);
        if t != s {
          assert s.jobs + [] == s.jobs && [] + t.queue.pending == t.queue.pending;
          OrderMoves(s, t, [n], []);
        }
      case _ =>
    }
  }

  lemma {:induction false} OrderAlways(s: State, steps: seq<Step>)
    requires QueueInv(s) && InOrder(s)
    ensures InOrder(After(s, steps))
    decreases |steps|
  {
    hide QueueInv, InOrder, Took;
    if steps != [] {
      QueueKept(s, steps[0]);
      OrderKept(s, steps[0]);
      OrderAlways(Took(s, steps[0]), steps[1..]);
    }
  }

  /** In every run across any restarts: the archives queued since the last boot
      are those taken and then those pending, each once and in the order queued. */
  lemma FirstInFirstOut(limit: nat, today: Day, steps: seq<Step>)
    ensures var s := After(Initial(limit, today), steps);
            s.atBoot <= |s.put| && s.put[s.atBoot..] == s.jobs + s.queue.pending
  {
    OrderAlways(Initial(limit, today), steps);
  }

  // ---- Which are queued ----

  /** The archives that `enqueue` was given when they were not pending already
      and fewer than 64 were. */
  function Offered(s: State, steps: seq<Step>): seq<nat>
    decreases |steps|
  {
    if steps == [] then []
    else
      (if steps[0].Enqueue? && steps[0].n !in s.queue.pending && |s.queue.pending| < 64 then [steps[0].n] else [])
      + Offered(Took(s, steps[0]), steps[1..])
  }

  predicate NoBacklog(s: State) { s.queue.backlog == [] && s.scan.None? }

  lemma OfferedStep(s: State, step: Step)
    requires NoBacklog(s) && !step.Boot?
    ensures var t := Took(s, step);
            && NoBacklog(t) && t.atBoot == s.atBoot
            && t.put == s.put + if step.Enqueue? && step.n !in s.queue.pending && |s.queue.pending| < 64
                                then [step.n] else []
  {
    hide ChargedFor;
    assert s.put + [] == s.put;
    assert s.queue.pending[|s.queue.pending|..] == [];
  }

  /** Between boots, with no catch-up to be made: what goes into the queue is
      exactly what was offered when there was room for it. */
  lemma {:induction false} QueuedAsOffered(s: State, steps: seq<Step>)
    requires NoBacklog(s) && forall k :: 0 <= k < |steps| ==> !steps[k].Boot?
    ensures After(s, steps).put == s.put + Offered(s, steps)
    decreases |steps|
  {
    hide Took;
    if steps == [] {
      assert s.put + [] == s.put;
    } else {
      OfferedStep(s, steps[0]);
      QueuedAsOffered(Took(s, steps[0]), steps[1..]);
      var first := if steps[0].Enqueue? && steps[0].n !in s.queue.pending && |s.queue.pending| < 64
                   then [steps[0].n] else [];
      var rest := Offered(Took(s, steps[0]), steps[1..]);
      assert s.put + first + rest == s.put + (first + rest);
    }
  }

  // ---- Why one is refused ----

  function WhyNot(s: State, isolated: bool): Option<Refusal> {
    Refused(s.queue, s.ledger, s.limit, isolated, s.today).1
  }

  /** The reason for leaving an archive, in every reachable state: isolation
      before a pause, and a pause before the budget. */
  lemma RefusalSays(limit: nat, today: Day, steps: seq<Step>, isolated: bool)
    requires limit <= U64_MAX
    ensures var s := After(Initial(limit, today), steps);
            var why := WhyNot(s, isolated);
            if isolated then why == Some(Isolated)
            else if s.today in StruckDays(s.log) then why == Some(Paused)
            else if limit > 0 && TokensOn(s.charges, s.today) >= limit then
              why == Some(BudgetSpent) || why == Some(BudgetNoted)
            else why == None
  {
    var s := After(Initial(limit, today), steps);
    StrikesAlways(Initial(limit, today), steps);
    BudgetAlways(Initial(limit, today), steps);
    BudgetIsTokens(s, limit);
    hide After, StruckDays, CallsAllowed, Strikes, Exhausted;
  }

  /** The spent budget has been noted today or, as days do not go back, later. */
  predicate Noted(s: State, day: Day) {
    s.today >= day && (s.today == day ==> s.queue.budgetNotedOn == Some(day))
  }

  lemma NotedStays(s: State, step: Step, day: Day)
    requires Noted(s, day) && !step.Boot?
    ensures Noted(Took(s, step), day)
  {
    hide Refilled, Backlogged, Added, Found, ChargedFor;
    RefillLeavesRest(s.queue);
    if step.CatchUp? && s.scan.Some? {
      var q, found := s.queue.(catchingUp := false), Found(step.logs, s.scan.value, step.listed);
      BackloggedKeeps(q, found);
      RefillLeavesRest(Backlogged(q, found));
    }
  }

  lemma {:induction false} RefillLeavesRest(q: Queue)
    ensures var r := Refilled(q).0; r == q.(pending := r.pending, backlog := r.backlog)
    decreases |q.backlog|
  {
    if |q.pending| < MAX_QUEUED && q.backlog != [] {
      RefillLeavesRest(q.(backlog := q.backlog[1..]));
      RefillLeavesRest(q.(pending := q.pending + [q.backlog[0]], backlog := q.backlog[1..]));
    }
  }

  lemma {:induction false} NotedAlways(s: State, steps: seq<Step>, day: Day)
    requires Noted(s, day) && forall k :: 0 <= k < |steps| ==> !steps[k].Boot?
    ensures Noted(After(s, steps), day)
    decreases |steps|
  {
    hide Took;
    if steps != [] {
      NotedStays(s, steps[0], day);
      NotedAlways(Took(s, steps[0]), steps[1..], day);
    }
  }

  /** That the budget is spent is said once a day: of the archives refused for it
      until the next boot, the first of a day is, and no later one of that day. */
  lemma SpentIsSaidOnce(s: State, i: nat, more: seq<Step>)
    requires Enabled(s, Begin(i, false)) && WhyNot(s, false) in {Some(BudgetSpent), Some(BudgetNoted)}
    requires forall k :: 0 <= k < |more| ==> !more[k].Boot?
    ensures WhyNot(s, false) == Some(BudgetSpent) <==> s.queue.budgetNotedOn != Some(s.today)
    ensures var t := After(Took(s, Begin(i, false)), more);
            t.today == s.today ==> WhyNot(t, false) != Some(BudgetSpent)
  {
    NotedAlways(Took(s, Begin(i, false)), more, s.today);
  }
}
