/** What a crash can lose: an archive waits to be extracted when the pulse goes
    down, and the watermark already covers it. */
module GraphLosses {
  import opened Text
  import opened GraphExtractors
  import opened GraphRuns
  import opened GraphCatchUps

  // ---- Which archives the next boot queues ----

  /** The watermark is the highest of `base`, that of the boot, and of `ns`, the
      numbers put in `pending` since. */
  predicate CoversSince(w: Option<nat>, base: nat, ns: seq<nat>) {
    w.Some? && base <= w.value && (forall n :: n in ns ==> n <= w.value) && (w.value == base || w.value in ns)
  }

  function PutSince(s: State, from: nat): seq<nat> { if from <= |s.put| then s.put[from..] else [] }

  ghost predicate SinceInv(s: State, base: nat, from: nat) {
    from <= |s.put| && CoversSince(s.ledger.watermark, base, PutSince(s, from))
  }

  lemma RaisingCovers(l: Ledger, base: nat, ns: seq<nat>, top: Option<nat>, more: seq<nat>)
    requires CoversSince(l.watermark, base, ns) && IsTop(top, more)
    ensures CoversSince(RaisedIf(l, top).watermark, base, ns + more)
  {
  }

  lemma PuttingKeepsSince(s: State, after: State, base: nat, from: nat, top: Option<nat>, more: seq<nat>)
    requires SinceInv(s, base, from) && IsTop(top, more)
    requires after.put == s.put + more && after.ledger.watermark == RaisedIf(s.ledger, top).watermark
    ensures SinceInv(after, base, from)
  {
    hide IsTop, CoversSince, RaisedIf;
    RaisingCovers(s.ledger, base, PutSince(s, from), top, more);
    assert PutSince(after, from) == PutSince(s, from) + more;
  }

  lemma SinceKept(s: State, step: Step, base: nat, from: nat)
    requires QueueInv(s) && SinceInv(s, base, from) && !step.Boot?
    ensures SinceInv(Took(s, step), base, from)
  {
    hide QueueInv, CaughtUpIn, TakenIn, FinishedIn, CoversSince, Enqueued;
    if Enabled(s, step) {
      match step
      case CatchUp(logs, listed) => CatchUpKeepsSince(s, logs, listed, base, from);
      case Take(i) => TakeKeepsSince(s, i, base, from);
      case Enqueue(n) =>
        if EnqueuedIn(s, n) != s {
          assert IsTop(Some(n), [n]);
          PuttingKeepsSince(s, EnqueuedIn(s, n), base, from, Some(n), [n]);
        }
      case Finish(i, o) => FinishKeepsSince(s, i, o, base, from);
      case _ =>
    }
  }

  lemma FinishKeepsSince(s: State, i: nat, o: Outcome, base: nat, from: nat)
    requires SinceInv(s, base, from) && Enabled(s, Finish(i, o))
    ensures SinceInv(FinishedIn(s, i, o), base, from)
  {
    hide CoversSince;
  }

  lemma TakeKeepsSince(s: State, i: nat, base: nat, from: nat)
    requires QueueInv(s) && SinceInv(s, base, from) && Enabled(s, Take(i))
    ensures SinceInv(TakenIn(s, i), base, from)
  {
    hide CoversSince, Added, IsTop, SinceInv;
    var moved := RefillPuts(s.queue);
    hide Refilled, QueueInv, RaisedIf;
    PuttingKeepsSince(s, TakenIn(s, i), base, from, Refilled(s.queue).1, moved);
  }

  lemma CatchUpKeepsSince(s: State, logs: seq<nat>, listed: Option<set<nat>>, base: nat, from: nat)
    requires QueueInv(s) && SinceInv(s, base, from) && s.scan.Some?
    ensures SinceInv(CaughtUpIn(s, logs, listed), base, from)
  {
    hide CoversSince, Added, IsTop, SinceInv, Found, Backlogged, NoDuplicates;
    var q := s.queue.(catchingUp := false);
    var b := Backlogged(q, Found(logs, s.scan.value, listed));
    BackloggedKeeps(q, Found(logs, s.scan.value, listed));
    var moved := RefillPuts(b);
    hide Refilled, QueueInv, RaisedIf;
    PuttingKeepsSince(s, CaughtUpIn(s, logs, listed), base, from, Refilled(b).1, moved);
  }

  lemma {:induction false} SinceAlways(s: State, steps: seq<Step>, base: nat, from: nat)
    requires QueueInv(s) && SinceInv(s, base, from) && forall k :: 0 <= k < |steps| ==> !steps[k].Boot?
    ensures QueueInv(After(s, steps)) && SinceInv(After(s, steps), base, from)
    decreases |steps|
  {
    hide QueueInv, SinceInv, Took;
    if steps != [] {
      QueueKept(s, steps[0]);
      SinceKept(s, steps[0], base, from);
      SinceAlways(Took(s, steps[0]), steps[1..], base, from);
    }
  }

  lemma BootBegins(s: State, highest: nat)
    ensures var b := Took(s, Boot(highest)); b.ledger.watermark.Some? && SinceInv(b, b.ledger.watermark.value, |s.put|)
  {
  }

  /** From any boot on, whatever is enqueued, caught up on, taken and extracted
      until the pulse goes down: of the archives that are on disk and pending in
      the store, the next boot queues exactly those above the watermark that the
      first boot left and above every number put in `pending` since. */
  lemma NextBootQueuesExactly(
      limit: nat, today: Day, before: seq<Step>, highest: nat, steps: seq<Step>,
      nextHighest: nat, onDisk: seq<nat>, stillPending: set<nat>, n: nat)
    requires forall k :: 0 <= k < |steps| ==> !steps[k].Boot?
    requires Sorted(onDisk) && (forall m :: m in onDisk ==> m <= nextHighest) && n in onDisk && n in stillPending
    ensures var s := After(Initial(limit, today), before);
            var booted := Took(s, Boot(highest));
            var t := After(booted, steps);
            var q := Took(Took(t, Boot(nextHighest)), CatchUp(onDisk, Some(stillPending))).queue;
            && booted.ledger.watermark.Some? && |s.put| <= |t.put|
            && (n in q.pending + q.backlog <==>
                  n > booted.ledger.watermark.value && forall m :: m in t.put[|s.put|..] ==> n > m)
  {
    hide QueueInv, After, Took;
    var s := After(Initial(limit, today), before);
    InitialQueue(limit, today);
    QueueAlways(Initial(limit, today), before);
    QueueKept(s, Boot(highest));
    var booted := Took(s, Boot(highest));
    BootBegins(s, highest);
    SinceAlways(booted, steps, booted.ledger.watermark.value, |s.put|);
    NextBootQueuesIff(After(booted, steps), nextHighest, onDisk, stillPending, n);
  }

  // ---- The backlog ----

  function AcceptedBy(s: State, step: Step): Option<nat> {
    if step.Enqueue? && Enqueued(s.queue, step.n).1 then Some(step.n) else None
  }

  /** The highest archive that an `enqueue` of the run accepted, if any did. */
  function HighestAccepted(s: State, steps: seq<Step>): Option<nat>
    decreases |steps|
  {
    if steps == [] then None else Higher(AcceptedBy(s, steps[0]), HighestAccepted(Took(s, steps[0]), steps[1..]))
  }

  predicate AllAbove(ns: seq<nat>, base: nat) { forall n :: n in ns ==> base < n }

  /** Within a boot: `base` is the watermark as raised by refills alone, and
      `top` the highest archive accepted by an `enqueue`. */
  ghost predicate BaseInv(s: State, base: nat, top: Option<nat>) {
    && s.ledger.watermark == Higher(Some(base), top)
    && Ascending(s.queue.backlog) && AllAbove(s.queue.backlog, base)
    && (s.scan.Some? ==> s.queue.backlog == [] && s.scan.value == base)
  }

  /** A step of one boot; the archives on disk are listed in order. */
  predicate OfOneBoot(step: Step) { !step.Boot? && (step.CatchUp? ==> Sorted(step.logs)) }

  function RaisedTo(base: nat, raised: Option<nat>): nat { if raised.Some? then Max(base, raised.value) else base }

  /** A refill leaves in an ascending backlog only what is above all it moved. */
  lemma {:induction false} RefillOfAscending(q: Queue, base: nat)
    requires Ascending(q.backlog) && AllAbove(q.backlog, base)
    ensures var (r, raised) := Refilled(q);
            Ascending(r.backlog) && AllAbove(r.backlog, RaisedTo(base, raised))
    decreases |q.backlog|
  {
    if |q.pending| < MAX_QUEUED && q.backlog != [] {
      var n, rest := q.backlog[0], q.backlog[1..];
      assert n in q.backlog && q.backlog == [n] + rest;
      if n in q.pending {
        RefillOfAscending(q.(backlog := rest), base);
      } else {
        assert AllAbove(rest, n);
        RefillOfAscending(q.(pending := q.pending + [n], backlog := rest), n);
      }
    }
  }

  lemma {:induction false} BackloggedAscends(q: Queue, found: seq<nat>, base: nat)
    requires q.backlog == [] && Sorted(found) && AllAbove(found, base)
    ensures Ascending(Backlogged(q, found).backlog) && AllAbove(Backlogged(q, found).backlog, base)
    decreases |found|
  {
    if found != [] {
      var before, last := found[..|found| - 1], found[|found| - 1];
      assert found == before + [last];
      PushAbove(before, last, base);
      BackloggedAscends(q, before, base);
      BackloggedKeeps(q, before);
      var b := Backlogged(q, before).backlog;
      if last !in b {
        forall n | n in b ensures n < last { assert n in before && n != last; }
        AscendPush(b, last);
        PushAbove(b, last, base);
      }
    }
  }

  lemma PushAbove(ns: seq<nat>, n: nat, base: nat)
    ensures AllAbove(ns + [n], base) <==> AllAbove(ns, base) && base < n
  {
    assert forall m :: m in ns ==> m in ns + [n];
    assert n in ns + [n];
  }

  lemma HigherOfThree(base: nat, top: Option<nat>, raised: Option<nat>)
    ensures Higher(Higher(Some(base), top), raised) == Higher(Some(RaisedTo(base, raised)), top)
    ensures Higher(Higher(Some(base), top), raised) == Higher(Some(base), Higher(top, raised))
  {
  }

  lemma RaisedIsHigher(l: Ledger, raised: Option<nat>)
    ensures RaisedIf(l, raised).watermark == Higher(l.watermark, raised)
  {
  }

  lemma RefillKeepsBase(s: State, q: Queue, base: nat, top: Option<nat>, after: State)
    requires BaseInv(s, base, top) && Ascending(q.backlog) && AllAbove(q.backlog, base)
    requires after.ledger == RaisedIf(s.ledger, Refilled(q).1) && after.queue.backlog == Refilled(q).0.backlog
    requires after.scan.None? || (after.scan == s.scan && q.backlog == [])
    ensures BaseInv(after, RaisedTo(base, Refilled(q).1), top)
  {
    hide Ascending, AllAbove, Higher, RaisedIf;
    RefillOfAscending(q, base);
    RaisedIsHigher(s.ledger, Refilled(q).1);
    HigherOfThree(base, top, Refilled(q).1);
  }

  lemma CatchUpKeepsBase(s: State, logs: seq<nat>, listed: Option<set<nat>>, base: nat, top: Option<nat>)
    returns (higher: nat)
    requires BaseInv(s, base, top) && s.scan.Some? && Sorted(logs)
    ensures BaseInv(CaughtUpIn(s, logs, listed), higher, top)
  {
    hide Found, Backlogged, Refilled, Sorted, Ascending, Higher, RaisedIf, Added;
    var found, q := Found(logs, base, listed), s.queue.(catchingUp := false);
    FoundIsSorted(logs, base, listed);
    FoundIsAbove(logs, base, listed);
    BackloggedAscends(q, found, base);
    higher := RaisedTo(base, Refilled(Backlogged(q, found)).1);
    RefillKeepsBase(s, Backlogged(q, found), base, top, CaughtUpIn(s, logs, listed));
  }

  lemma TakeKeepsBase(s: State, i: nat, base: nat, top: Option<nat>) returns (higher: nat)
    requires BaseInv(s, base, top) && Enabled(s, Take(i))
    ensures BaseInv(TakenIn(s, i), higher, top)
  {
    hide Refilled, Ascending, AllAbove, Higher, RaisedIf, Added;
    higher := RaisedTo(base, Refilled(s.queue).1);
    RefillKeepsBase(s, s.queue, base, top, TakenIn(s, i));
  }

  lemma EnqueueKeepsBase(s: State, n: nat, base: nat, top: Option<nat>)
    requires BaseInv(s, base, top)
    ensures BaseInv(EnqueuedIn(s, n), base, Higher(top, AcceptedBy(s, Enqueue(n))))
  {
    hide Ascending, AllAbove;
    HigherOfThree(base, top, AcceptedBy(s, Enqueue(n)));
    RaisedIsHigher(s.ledger, Some(n));
  }

  lemma BaseKept(s: State, step: Step, base: nat, top: Option<nat>) returns (higher: nat)
    requires BaseInv(s, base, top) && OfOneBoot(step)
    ensures BaseInv(Took(s, step), higher, Higher(top, AcceptedBy(s, step)))
  {
    hide CaughtUpIn, TakenIn, EnqueuedIn, Ascending, AllAbove, Enqueued;
    higher := base;
    if Enabled(s, step) {
      match step
      case CatchUp(logs, listed) => higher := CatchUpKeepsBase(s, logs, listed, base, top);
      case Take(i) => higher := TakeKeepsBase(s, i, base, top);
      case Enqueue(n) => EnqueueKeepsBase(s, n, base, top);
      case _ =>
    }
  }

  lemma {:induction false} BaseAlways(s: State, steps: seq<Step>, base: nat, top: Option<nat>) returns (higher: nat)
    requires BaseInv(s, base, top) && forall k :: 0 <= k < |steps| ==> OfOneBoot(steps[k])
    ensures BaseInv(After(s, steps), higher, Higher(top, HighestAccepted(s, steps)))
    decreases |steps|
  {
    hide BaseInv, Took, AcceptedBy, OfOneBoot;
    if steps == [] {
      higher := base;
    } else {
      var first := AcceptedBy(s, steps[0]);
      var next := BaseKept(s, steps[0], base, top);
      higher := BaseAlways(Took(s, steps[0]), steps[1..], next, Higher(top, first));
      assert Higher(Higher(top, first), HighestAccepted(Took(s, steps[0]), steps[1..])) ==
             Higher(top, HighestAccepted(s, steps));
    }
  }

  lemma BootHasBase(s: State, highest: nat) returns (base: nat)
    ensures BaseInv(Booted(s, highest), base, None)
  {
    base := Booted(s, highest).ledger.watermark.value;
  }

  /** The next boot, with archive `n` on disk and pending in the store, queues
      it exactly when it is above the watermark. */
  lemma NextBootQueuesIff(t: State, highest: nat, logs: seq<nat>, listed: set<nat>, n: nat)
    requires QueueInv(t) && t.ledger.watermark.Some? && Sorted(logs) && n in logs && n in listed
    requires forall m :: m in logs ==> m <= highest
    ensures var q := Took(Took(t, Boot(highest)), CatchUp(logs, Some(listed))).queue;
            n in q.pending + q.backlog <==> n > t.ledger.watermark.value
  {
    hide QueueInv, Took, Sorted;
    if t.ledger.watermark.value < highest {
      ScanQueues(t, highest, logs, listed);
    } else {
      NoScan(t, highest, logs, Some(listed));
    }
  }

  lemma ScanQueues(t: State, highest: nat, logs: seq<nat>, listed: set<nat>)
    requires QueueInv(t) && t.ledger.watermark.Some? && t.ledger.watermark.value < highest && Sorted(logs)
    ensures var q := Took(Took(t, Boot(highest)), CatchUp(logs, Some(listed))).queue;
            forall n :: n in q.pending + q.backlog <==> n in logs && n > t.ledger.watermark.value && n in listed
  {
    hide QueueInv, Plan, Found, Took, Ascending, Called, Sorted;
    var w := t.ledger.watermark.value;
    BootMakesPlan(t, highest, logs, Some(listed));
    FoundIsAbove(logs, w, Some(listed));
    PlanHolds(Found(logs, w, Some(listed)));
    NoJobsAfterBoot(t, highest, logs, Some(listed));
    var c := Took(Took(t, Boot(highest)), CatchUp(logs, Some(listed)));
    assert c.jobs + c.queue.pending + c.queue.backlog == c.queue.pending + c.queue.backlog;
  }

  lemma NoJobsAfterBoot(t: State, highest: nat, logs: seq<nat>, listed: Option<set<nat>>)
    ensures Took(Took(t, Boot(highest)), CatchUp(logs, listed)).jobs == []
  {
    hide CaughtUp, Found, Added;
  }

  lemma NoScan(t: State, highest: nat, logs: seq<nat>, listed: Option<set<nat>>)
    requires t.ledger.watermark.Some? && highest <= t.ledger.watermark.value
    ensures var q := Took(Took(t, Boot(highest)), CatchUp(logs, listed)).queue; q.pending == [] && q.backlog == []
  {
  }

  /** From any boot on, whatever is enqueued, taken and caught up on: an archive
      that waits in the backlog when the pulse goes down, and is still on disk
      and pending in the store, is queued by the next boot if and only if no
      `enqueue` was accepted since the first boot, or it is above the highest
      accepted. */
  lemma BacklogIsFoundAgainIff(
      limit: nat, today: Day, before: seq<Step>, highest: nat, steps: seq<Step>,
      n: nat, nextHighest: nat, onDisk: seq<nat>, stillPending: set<nat>)
    requires forall k :: 0 <= k < |steps| ==> OfOneBoot(steps[k])
    requires Sorted(onDisk) && (forall m :: m in onDisk ==> m <= nextHighest) && n in onDisk && n in stillPending
    ensures var booted := Took(After(Initial(limit, today), before), Boot(highest));
            var t := After(booted, steps);
            var q := Took(Took(t, Boot(nextHighest)), CatchUp(onDisk, Some(stillPending))).queue;
            var top := HighestAccepted(booted, steps);
            n in t.queue.backlog ==> (n in q.pending + q.backlog <==> top.None? || n > top.value)
  {
    hide QueueInv, After, Took;
    var s := After(Initial(limit, today), before);
    InitialQueue(limit, today);
    QueueAlways(Initial(limit, today), before);
    QueueKept(s, Boot(highest));
    var booted := Took(s, Boot(highest));
    var base := BootHasBase(s, highest);
    assert booted == Booted(s, highest) by { BootIs(s, highest); }
    QueueAlways(booted, steps);
    var higher := BaseAlways(booted, steps, base, None);
    NextBootQueuesIff(After(booted, steps), nextHighest, onDisk, stillPending, n);
  }

  lemma BootIs(s: State, highest: nat)
    ensures Took(s, Boot(highest)) == Booted(s, highest)
  {
  }

  /** So with nothing enqueued in between, no archive of the backlog is missed. */
  lemma BacklogSurvivesARestart(
      limit: nat, today: Day, before: seq<Step>, highest: nat, steps: seq<Step>,
      n: nat, nextHighest: nat, onDisk: seq<nat>, stillPending: set<nat>)
    requires forall k :: 0 <= k < |steps| ==> OfOneBoot(steps[k]) && !steps[k].Enqueue?
    requires Sorted(onDisk) && (forall m :: m in onDisk ==> m <= nextHighest) && n in onDisk && n in stillPending
    ensures var t := After(Took(After(Initial(limit, today), before), Boot(highest)), steps);
            var q := Took(Took(t, Boot(nextHighest)), CatchUp(onDisk, Some(stillPending))).queue;
            n in t.queue.backlog ==> n in q.pending + q.backlog
  {
    hide Took, After;
    BacklogIsFoundAgainIff(limit, today, before, highest, steps, n, nextHighest, onDisk, stillPending);
    NoneAccepted(Took(After(Initial(limit, today), before), Boot(highest)), steps);
  }

  lemma {:induction false} NoneAccepted(s: State, steps: seq<Step>)
    requires forall k :: 0 <= k < |steps| ==> !steps[k].Enqueue?
    ensures HighestAccepted(s, steps) == None
    decreases |steps|
  {
    if steps != [] { NoneAccepted(Took(s, steps[0]), steps[1..]); }
  }

  // ---- Archives that are missed ----

  /** One archive is found by a catch-up, which queues it, and the pulse goes down
      before the worker takes it: the next boot leaves it out. Nothing was
      enqueued, and the backend was never called. */
  lemma AQueuedArchiveIsMissed(limit: nat, today: Day)
    ensures var booted := Took(Took(Initial(limit, today), Boot(0)), Boot(1));
            var t := Took(booted, CatchUp([1], Some({1})));
            var q := Took(Took(t, Boot(1)), CatchUp([1], Some({1}))).queue;
            t.queue.pending == [1] && t.log == [Restart, Restart] && q.pending + q.backlog == []
  {
    var booted := Took(Took(Initial(limit, today), Boot(0)), Boot(1));
    OneIsFound(1, Some({1}));
    var filled := NEW_QUEUE.(backlog := [] + [1]);
    assert Backlogged(NEW_QUEUE, [1]) == filled by { assert [1][..0] == []; }
    assert Refilled(filled) == (NEW_QUEUE.(pending := [] + [1]), Some(1));
    var t := Took(booted, CatchUp([1], Some({1})));
    NoScan(t, 1, [1], Some({1}));
  }

  lemma OneIsFound(n: nat, listed: Option<set<nat>>)
    requires n > 0 && (listed.None? || n in listed.value)
    ensures Found([n], 0, listed) == [n]
  {
    assert [n][..0] == [];
  }

  /** An archive waits for the scan of a boot, a newer one is enqueued first, and
      the pulse goes down: the next boot leaves both out. */
  lemma AnArchiveBeforeItsScanIsMissed(limit: nat, today: Day)
    ensures var booted := Took(Took(Initial(limit, today), Boot(0)), Boot(1));
            var t := Took(booted, Enqueue(2));
            var q := Took(Took(t, Boot(2)), CatchUp([1, 2], Some({1, 2}))).queue;
            booted.scan == Some(0) && t.log == [Restart, Restart] && q.pending + q.backlog == []
  {
    var booted := Took(Took(Initial(limit, today), Boot(0)), Boot(1));
    var t := Took(booted, Enqueue(2));
    NoScan(t, 2, [1, 2], Some({1, 2}));
  }

  function UpTo(n: nat): (r: seq<nat>)
    ensures |r| == n
  {
    if n == 0 then [] else UpTo(n - 1) + [n]
  }

  lemma {:induction false} UpToAt(n: nat)
    ensures |UpTo(n)| == n && forall k :: 0 <= k < n ==> UpTo(n)[k] == k + 1
  {
    if n > 0 { UpToAt(n - 1); }
  }

  lemma {:induction false} AllAreFound(n: nat)
    ensures Found(UpTo(n), 0, None) == UpTo(n)
  {
    if n > 0 {
      AllAreFound(n - 1);
      assert UpTo(n)[..|UpTo(n)| - 1] == UpTo(n - 1);
    }
  }

  lemma {:induction false} AllArePlanned(n: nat)
    ensures Plan(UpTo(n)) == UpTo(n)
  {
    hide Plan;
    if n == 0 {
      PlanOfNothing();
    } else {
      AllArePlanned(n - 1);
      UpToAt(n - 1);
      assert UpTo(n)[..|UpTo(n)| - 1] == UpTo(n - 1);
      PlanStep(UpTo(n));
    }
  }

  lemma LastOf65()
    ensures UpTo(65)[..64] == UpTo(64) && UpTo(65)[64..] == [65]
  {
    assert UpTo(65) == UpTo(64) + [65];
  }

  /** 65 archives fill `pending`, and the last is left in the backlog. */
  lemma OneIsLeft(q: Queue)
    requires q.pending == [] && q.backlog == UpTo(65)
    ensures var r := Refilled(q).0;
            r == q.(pending := UpTo(64), backlog := [65])
  {
    hide Refilled, UpTo, IsTop;
    UpToAt(65);
    assert [] + UpTo(65) == UpTo(65);
    RefillConserves(q);
    var moved := RefillMoves(q);
    var r := Refilled(q).0;
    assert [] + moved == moved;
    SplitOf65(r.pending, r.backlog);
  }

  lemma SplitOf65(a: seq<nat>, b: seq<nat>)
    requires a + b == UpTo(65) && |a| <= 64 && (b == [] || |a| == 64)
    ensures a == UpTo(64) && b == [65]
  {
    hide UpTo;
    LastOf65();
    assert |a| == 64 && (a + b)[..64] == a && (a + b)[64..] == b;
  }

  const CAUGHT_UP := NEW_QUEUE.(pending := UpTo(64), backlog := [65], running := true)

  /** The pulse boots on an empty directory, and then on one of 65 archives. */
  lemma CaughtUpOn65(limit: nat, today: Day)
    ensures var s := Took(Took(Took(Initial(limit, today), Boot(0)), Boot(65)), CatchUp(UpTo(65), None));
            s.queue == CAUGHT_UP && s.workers == [] && s.toStart == 1
  {
    hide UpTo, Plan, Found, Backlogged, Refilled, Added;
    AllAreFound(65);
    AllArePlanned(65);
    BackloggedFromEmpty(NEW_QUEUE, UpTo(65));
    OneIsLeft(NEW_QUEUE.(backlog := UpTo(65)));
    UpToAt(65);
  }

  lemma TakesAndEnqueues(s: State)
    requires s.queue == CAUGHT_UP && s.workers == [] && s.toStart == 1
    ensures var t := Took(Took(s, Spawn), Take(0));
            && t.queue == CAUGHT_UP.(pending := UpTo(64)[1..]) && AcceptedBy(t, Enqueue(66)) == Some(66)
            && Took(t, Enqueue(66)).queue.backlog == [65]
  {
    hide UpTo, Added, RaisedIf;
    UpToAt(64);
    assert Refilled(s.queue) == (s.queue, None);
  }

  /** One archive too many for the queue, one taken, and a new one enqueued: a
      run after which the next boot, with all 66 on disk and pending, leaves out
      archive 65. */
  lemma AnArchiveIsMissed(limit: nat, today: Day)
    ensures var t := After(Took(Took(Initial(limit, today), Boot(0)), Boot(65)),
                           [CatchUp(UpTo(65), None), Spawn, Take(0), Enqueue(66)]);
            var q := Took(Took(t, Boot(66)), CatchUp(UpTo(66), Some(set n | n in UpTo(66)))).queue;
            65 in UpTo(66) && 65 in t.queue.backlog && 65 !in q.pending + q.backlog
  {
    hide Took, UpTo;
    var s := Took(Took(Initial(limit, today), Boot(0)), Boot(65));
    CaughtUpOn65(limit, today);
    var c := Took(s, CatchUp(UpTo(65), None));
    TakesAndEnqueues(c);
    var rest := [CatchUp(UpTo(65), None), Spawn, Take(0), Enqueue(66)];
    var t := Took(Took(c, Spawn), Take(0));
    FourSteps(s, CatchUp(UpTo(65), None), Spawn, Take(0), Enqueue(66));
    UpToAt(65);
    UpToAt(66);
    assert UpTo(66)[64] == 65;
    OneBoot(limit, today);
    BacklogIsFoundAgainIff(limit, today, [Boot(0)], 65, rest, 65, 66, UpTo(66), set n | n in UpTo(66));
  }

  lemma OneBoot(limit: nat, today: Day)
    ensures After(Initial(limit, today), [Boot(0)]) == Took(Initial(limit, today), Boot(0))
  {
  }

  lemma FourSteps(s: State, a: Step, b: Step, c: Step, d: Step)
    requires !a.Enqueue? && !b.Enqueue? && !c.Enqueue?
    ensures After(s, [a, b, c, d]) == Took(Took(Took(Took(s, a), b), c), d)
    ensures HighestAccepted(s, [a, b, c, d]) == AcceptedBy(Took(Took(Took(s, a), b), c), d)
  {
    hide Took;
    var one, two, three := Took(s, a), Took(Took(s, a), b), Took(Took(Took(s, a), b), c);
    Unfolds(s, a, [b, c, d]);
    Unfolds(one, b, [c, d]);
    Unfolds(two, c, [d]);
    Unfolds(three, d, []);
    assert [a] + [b, c, d] == [a, b, c, d] && [b] + [c, d] == [b, c, d] && [c] + [d] == [c, d] && [d] + [] == [d];
  }

  lemma Unfolds(s: State, step: Step, rest: seq<Step>)
    ensures After(s, [step] + rest) == After(Took(s, step), rest) && After(s, []) == s
    ensures rest != [] && !step.Enqueue? ==> HighestAccepted(s, [step] + rest) == HighestAccepted(Took(s, step), rest)
    ensures rest == [] ==> HighestAccepted(s, [step] + rest) == AcceptedBy(s, step)
  {
    hide Took;
    assert ([step] + rest)[1..] == rest;
  }
}
