/** Which archives a boot queues: the watermark, and the catch-up above it. */
module GraphCatchUps {
  import opened Text
  import opened GraphExtractors
  import opened GraphRuns

  // ---- The watermark ----

  predicate AtMost(ns: seq<nat>, w: Option<nat>) { forall n :: n in ns ==> w.Some? && n <= w.value }

  predicate Above(ns: seq<nat>, earlier: seq<nat>) { forall n, m :: n in ns && m in earlier ==> m < n }

  /** What was put in `pending` by earlier boots. */
  function Earlier(s: State): seq<nat> { if s.atBoot <= |s.put| then s.put[..s.atBoot] else s.put }

  ghost predicate WatermarkInv(s: State) {
    && s.atBoot <= |s.put| && AtMost(s.put, s.ledger.watermark)
    && (s.scan.Some? ==> AtMost(Earlier(s), s.scan))
    && Above(s.queue.backlog, Earlier(s))
  }

  lemma RaisedCovers(l: Ledger, ns: seq<nat>, top: Option<nat>, more: seq<nat>)
    requires AtMost(ns, l.watermark) && IsTop(top, more)
    ensures AtMost(ns + more, RaisedIf(l, top).watermark)
    ensures l.watermark.Some? ==>
              RaisedIf(l, top).watermark.Some? && l.watermark.value <= RaisedIf(l, top).watermark.value
  {
  }

  lemma {:induction false} FoundIsAbove(logs: seq<nat>, w: nat, listed: Option<set<nat>>)
    ensures forall n :: n in Found(logs, w, listed) <==> n in logs && n > w && (listed.None? || n in listed.value)
    decreases |logs|
  {
    if logs != [] {
      FoundIsAbove(logs[..|logs| - 1], w, listed);
      assert logs == logs[..|logs| - 1] + [logs[|logs| - 1]];
    }
  }

  /** A refill puts in `pending` only what was in the backlog. */
  lemma RefillPuts(q: Queue) returns (moved: seq<nat>)
    requires |q.pending| <= MAX_QUEUED && NoDuplicates(q.pending)
    ensures var (r, raised) := Refilled(q);
            && Added(q.pending, r.pending) == moved && IsTop(raised, moved)
            && r == q.(pending := q.pending + moved, backlog := r.backlog)
            && (forall n :: n in r.backlog ==> n in q.backlog) && (forall n :: n in moved ==> n in q.backlog)
  {
    hide NoDuplicates;
    moved := RefillMoves(q);
    assert (q.pending + moved)[|q.pending|..] == moved;
  }

  /** Putting `moved`, taken from a backlog of new archives, in `pending`. */
  lemma PuttingKeepsWatermark(s: State, after: State, from: seq<nat>, moved: seq<nat>, top: Option<nat>)
    requires WatermarkInv(s) && Above(from, Earlier(s)) && IsTop(top, moved)
    requires after.put == s.put + moved && after.atBoot == s.atBoot && after.ledger == RaisedIf(s.ledger, top)
    requires after.scan == None || after.scan == s.scan
    requires (forall n :: n in moved ==> n in from) && forall n :: n in after.queue.backlog ==> n in from
    ensures WatermarkInv(after) && Above(after.put[|s.put|..], Earlier(s))
  {
    RaisedCovers(s.ledger, s.put, top, moved);
    assert after.put[|s.put|..] == moved && Earlier(after) == Earlier(s);
    hide IsTop, RaisedIf;
  }

  lemma TakeKeepsWatermark(s: State, i: nat)
    requires QueueInv(s) && WatermarkInv(s) && Enabled(s, Take(i))
    ensures WatermarkInv(TakenIn(s, i))
    ensures Above(TakenIn(s, i).put[|s.put|..], Earlier(s))
  {
    hide WatermarkInv, Above, AtMost, Added, IsTop;
    BacklogOf(s);
    var moved := RefillPuts(s.queue);
    hide Refilled, QueueInv;
    PuttingKeepsWatermark(s, TakenIn(s, i), s.queue.backlog, moved, Refilled(s.queue).1);
  }

  lemma BacklogOf(s: State)
    requires WatermarkInv(s)
    ensures Above(s.queue.backlog, Earlier(s))
  {
  }

  lemma CatchUpKeepsWatermark(s: State, logs: seq<nat>, listed: Option<set<nat>>)
    requires QueueInv(s) && WatermarkInv(s) && s.scan.Some?
    ensures WatermarkInv(CaughtUpIn(s, logs, listed))
    ensures Above(CaughtUpIn(s, logs, listed).put[|s.put|..], Earlier(s))
  {
    hide WatermarkInv, QueueInv, Above, AtMost, Added, IsTop, Found, Backlogged, NoDuplicates;
    var b := Backlogged(s.queue.(catchingUp := false), Found(logs, s.scan.value, listed));
    BacklogIsNew(s, logs, listed);
    var moved := RefillPuts(b);
    hide Refilled;
    PuttingKeepsWatermark(s, CaughtUpIn(s, logs, listed), b.backlog, moved, Refilled(b).1);
  }

  lemma BacklogIsNew(s: State, logs: seq<nat>, listed: Option<set<nat>>)
    requires QueueInv(s) && WatermarkInv(s) && s.scan.Some?
    ensures var b := Backlogged(s.queue.(catchingUp := false), Found(logs, s.scan.value, listed));
            && b.pending == s.queue.pending && |b.pending| <= MAX_QUEUED && NoDuplicates(b.pending)
            && Above(b.backlog, Earlier(s))
  {
    BackloggedKeeps(s.queue.(catchingUp := false), Found(logs, s.scan.value, listed));
    FoundIsAbove(logs, s.scan.value, listed);
  }

  lemma WatermarkKept(s: State, step: Step)
    requires QueueInv(s) && WatermarkInv(s)
    ensures WatermarkInv(Took(s, step))
    ensures (step.CatchUp? || step.Take?) && Enabled(s, step) ==> Above(Took(s, step).put[|s.put|..], Earlier(s))
  {
    hide QueueInv, CaughtUpIn, TakenIn;
    if Enabled(s, step) {
      match step
      case Take(i) => TakeKeepsWatermark(s, i);
      case CatchUp(logs, listed) => CatchUpKeepsWatermark(s, logs, listed);
      case Enqueue(n) =>
        if Took(s, step).put != s.put {
          assert IsTop(Some(n), [n]);
          RaisedCovers(s.ledger, s.put, Some(n), [n]);
          assert Earlier(Took(s, step)) == Earlier(s);
        }
      case Boot(highest) => assert s.put[..|s.put|] == s.put;
      case _ =>
    }
  }

  lemma {:induction false} WatermarkAlways(s: State, steps: seq<Step>)
    requires QueueInv(s) && WatermarkInv(s)
    ensures QueueInv(After(s, steps)) && WatermarkInv(After(s, steps))
    decreases |steps|
  {
    hide QueueInv, WatermarkInv, Took;
    if steps != [] {
      QueueKept(s, steps[0]);
      WatermarkKept(s, steps[0]);
      WatermarkAlways(Took(s, steps[0]), steps[1..]);
    }
  }

  /** In every run the watermark is at least every number ever put in `pending`. */
  lemma WatermarkCoversTheQueue(limit: nat, today: Day, steps: seq<Step>)
    ensures var s := After(Initial(limit, today), steps);
            forall n :: n in s.put ==> s.ledger.watermark.Some? && n <= s.ledger.watermark.value
  {
    WatermarkAlways(Initial(limit, today), steps);
  }

  /** What a catch-up queues, now or from its backlog later, no earlier boot queued. */
  lemma NoLaterBootPicksItAgain(limit: nat, today: Day, steps: seq<Step>, step: Step)
    requires step.CatchUp? || step.Take?
    ensures var s := After(Initial(limit, today), steps);
            && s.atBoot <= |s.put| <= |Took(s, step).put|
            && forall n, m :: n in Took(s, step).put[|s.put|..] && m in s.put[..s.atBoot] ==> m < n
  {
    var s := After(Initial(limit, today), steps);
    WatermarkAlways(Initial(limit, today), steps);
    WatermarkKept(s, step);
    PutGrows(s, step);
    if !Enabled(s, step) { assert s.put[|s.put|..] == []; }
  }

  lemma PutGrows(s: State, step: Step)
    ensures s.put <= Took(s, step).put
  {
    hide Next, Refilled, CaughtUp, Added;
  }

  lemma StepKeepsWatermark(s: State, step: Step)
    requires s.ledger.watermark.Some?
    ensures Took(s, step).ledger.watermark.Some? && s.ledger.watermark.value <= Took(s, step).ledger.watermark.value
  {
    hide Next, Refilled, CaughtUp, Added;
  }

  /** Once there is a watermark, nothing that follows lowers it, restarts included. */
  lemma {:induction false} WatermarkNeverFalls(s: State, steps: seq<Step>)
    requires s.ledger.watermark.Some?
    ensures After(s, steps).ledger.watermark.Some?
    ensures s.ledger.watermark.value <= After(s, steps).ledger.watermark.value
    decreases |steps|
  {
    hide Took;
    if steps != [] {
      StepKeepsWatermark(s, steps[0]);
      WatermarkNeverFalls(Took(s, steps[0]), steps[1..]);
    }
  }

  // ---- The first boot ----

  /** What a boot scans: nothing on the first boot or when nothing newer is on
      disk, else all above the watermark. A first boot sets the watermark to the
      newest archive; any other leaves it. */
  lemma BootDecides(s: State, highest: nat)
    ensures var b, w := Took(s, Boot(highest)), s.ledger.watermark;
            && b.scan == (if w.Some? && w.value < highest then w else None)
            && b.ledger == s.ledger.(watermark := if w.None? then Some(highest) else w)
            && b.queue == NEW_QUEUE.(catchingUp := b.scan.Some?)
            && b.workers == [] && b.toStart == 0 && b.jobs == [] && b.put == s.put && b.log == s.log + [Restart]
  {
  }

  /** `first` archives were there at the first boot: they are behind the
      watermark, and no scan or backlog holds one. */
  ghost predicate FirstInv(s: State, first: nat) {
    && s.ledger.watermark.Some? && first <= s.ledger.watermark.value
    && (forall n :: n in s.queue.backlog ==> first < n)
    && (s.scan.Some? ==> first <= s.scan.value)
  }

  lemma FirstKept(s: State, step: Step, first: nat)
    requires QueueInv(s) && FirstInv(s, first)
    ensures FirstInv(Took(s, step), first)
    ensures step.CatchUp? || step.Take? ==>
              |s.put| <= |Took(s, step).put| && forall n :: n in Took(s, step).put[|s.put|..] ==> first < n
  {
    hide QueueInv, CaughtUpIn, TakenIn;
    PutGrows(s, step);
    StepKeepsWatermark(s, step);
    if Enabled(s, step) {
      match step
      case CatchUp(logs, listed) => CatchUpKeepsFirst(s, logs, listed, first);
      case Take(i) => TakeKeepsFirst(s, i, first);
      case Boot(highest) => BootDecides(s, highest);
      case _ =>
    }
  }

  lemma TakeKeepsFirst(s: State, i: nat, first: nat)
    requires QueueInv(s) && FirstInv(s, first) && Enabled(s, Take(i))
    ensures forall n :: n in TakenIn(s, i).queue.backlog ==> first < n
    ensures TakenIn(s, i).scan == s.scan
    ensures |s.put| <= |TakenIn(s, i).put| && forall n :: n in TakenIn(s, i).put[|s.put|..] ==> first < n
  {
    hide IsTop;
    var moved := RefillPuts(s.queue);
    hide Refilled, QueueInv, Added;
    assert TakenIn(s, i).put[|s.put|..] == moved;
  }

  lemma CatchUpKeepsFirst(s: State, logs: seq<nat>, listed: Option<set<nat>>, first: nat)
    requires QueueInv(s) && FirstInv(s, first) && s.scan.Some?
    ensures forall n :: n in CaughtUpIn(s, logs, listed).queue.backlog ==> first < n
    ensures CaughtUpIn(s, logs, listed).scan == None
    ensures var t := CaughtUpIn(s, logs, listed);
            |s.put| <= |t.put| && forall n :: n in t.put[|s.put|..] ==> first < n
  {
    hide IsTop, Found, Backlogged, NoDuplicates;
    var q, found := s.queue.(catchingUp := false), Found(logs, s.scan.value, listed);
    BackloggedKeeps(q, found);
    FoundIsAbove(logs, s.scan.value, listed);
    var moved := RefillPuts(Backlogged(q, found));
    hide Refilled, QueueInv, Added;
    assert CaughtUpIn(s, logs, listed).put[|s.put|..] == moved;
  }

  lemma {:induction false} FirstAlways(s: State, steps: seq<Step>, first: nat)
    requires QueueInv(s) && FirstInv(s, first)
    ensures QueueInv(After(s, steps)) && FirstInv(After(s, steps), first)
    decreases |steps|
  {
    hide QueueInv, FirstInv, Took;
    if steps != [] {
      QueueKept(s, steps[0]);
      FirstKept(s, steps[0], first);
      FirstAlways(Took(s, steps[0]), steps[1..], first);
    }
  }

  /** The first boot leaves the historical backlog alone, for good: the watermark
      is the newest archive on disk right after it and never less from then on,
      and no later catch-up, nor the refills after it, in this boot or another,
      queues an archive that was there. Only an `enqueue` can. */
  lemma FirstBootLeavesTheBacklog(limit: nat, today: Day, highest: nat, steps: seq<Step>, step: Step)
    ensures var booted := Took(Initial(limit, today), Boot(highest));
            var s := After(booted, steps);
            && booted.ledger.watermark == Some(highest) && booted.queue == NEW_QUEUE && booted.scan == None
            && s.ledger.watermark.Some? && highest <= s.ledger.watermark.value
            && (step.CatchUp? || step.Take? ==>
                  |s.put| <= |Took(s, step).put| && forall n :: n in Took(s, step).put[|s.put|..] ==> highest < n)
  {
    hide QueueInv, After, Took;
    var booted := Took(Initial(limit, today), Boot(highest));
    InitialQueue(limit, today);
    QueueKept(Initial(limit, today), Boot(highest));
    BootDecides(Initial(limit, today), highest);
    FirstAlways(booted, steps, highest);
    FirstKept(After(booted, steps), step, highest);
  }

  // ---- A catch-up by itself ----

  predicate Ascending(s: seq<nat>) { forall i, j :: 0 <= i < j < |s| ==> s[i] < s[j] }

  predicate Sorted(s: seq<nat>) { forall i, j :: 0 <= i <= j < |s| ==> s[i] <= s[j] }

  /** The archives of a catch-up, each once. */
  function Plan(found: seq<nat>): seq<nat> { Backlogged(NEW_QUEUE, found).backlog }

  lemma {:induction false} FoundIsSorted(logs: seq<nat>, w: nat, listed: Option<set<nat>>)
    requires Sorted(logs)
    ensures Sorted(Found(logs, w, listed))
    decreases |logs|
  {
    if logs != [] {
      FoundIsSorted(logs[..|logs| - 1], w, listed);
      FoundIsAbove(logs[..|logs| - 1], w, listed);
      var before := Found(logs[..|logs| - 1], w, listed);
      forall n | n in before ensures n <= logs[|logs| - 1] {
        assert n in logs[..|logs| - 1];
      }
      SortedPush(before, logs[|logs| - 1]);
      assert before + [] == before;
    }
  }

  lemma PlanStep(found: seq<nat>)
    requires found != []
    ensures var before, last := Plan(found[..|found| - 1]), found[|found| - 1];
            Plan(found) == if last in before then before else before + [last]
  {
    BackloggedKeeps(NEW_QUEUE, found[..|found| - 1]);
  }

  lemma AscendPush(s: seq<nat>, n: nat)
    requires Ascending(s) && forall m :: m in s ==> m < n
    ensures Ascending(s + [n])
  {
    forall i | 0 <= i < |s| ensures s[i] < n {
      assert s[i] in s;
    }
  }

  lemma SortedPush(s: seq<nat>, n: nat)
    requires Sorted(s) && forall m :: m in s ==> m <= n
    ensures Sorted(s + [n])
  {
    forall i | 0 <= i < |s| ensures s[i] <= n {
      assert s[i] in s;
    }
  }

  lemma {:induction false} PlanHolds(found: seq<nat>)
    ensures forall n :: n in Plan(found) <==> n in found
    decreases |found|
  {
    hide Plan;
    if found == [] {
      PlanOfNothing();
    } else {
      PlanHolds(found[..|found| - 1]);
      PlanStep(found);
      assert found == found[..|found| - 1] + [found[|found| - 1]];
    }
  }

  lemma PlanOfNothing()
    ensures Plan([]) == []
  {
  }

  lemma {:induction false} PlanAscends(found: seq<nat>)
    requires Sorted(found)
    ensures Ascending(Plan(found))
    decreases |found|
  {
    hide Plan;
    if found == [] {
      PlanOfNothing();
    } else {
      var before, last := found[..|found| - 1], found[|found| - 1];
      PlanAscends(before);
      PlanStep(found);
      PlanHolds(before);
      var plan := Plan(before);
      if last !in plan {
        forall n | n in plan ensures n < last { assert n in before && n != last; }
        AscendPush(plan, last);
      }
    }
  }

  lemma {:induction false} BackloggedFromEmpty(q: Queue, found: seq<nat>)
    requires q.pending == [] && q.backlog == []
    ensures Backlogged(q, found) == q.(backlog := Plan(found))
    decreases |found|
  {
    if found != [] {
      BackloggedFromEmpty(q, found[..|found| - 1]);
      PlanStep(found);
    }
  }

  /** A refill of distinct archives only moves the front of the backlog over. */
  lemma {:induction false} RefillConserves(q: Queue)
    requires NoDuplicates(q.pending + q.backlog)
    ensures Refilled(q).0.pending + Refilled(q).0.backlog == q.pending + q.backlog
    decreases |q.backlog|
  {
    if |q.pending| < MAX_QUEUED && q.backlog != [] {
      var n, rest := q.backlog[0], q.backlog[1..];
      assert q.pending + [n] + rest == q.pending + q.backlog;
      NextIsNew(q.pending, q.backlog);
      RefillConserves(q.(pending := q.pending + [n], backlog := rest));
    }
  }

  lemma NextIsNew(pending: seq<nat>, backlog: seq<nat>)
    requires NoDuplicates(pending + backlog) && backlog != []
    ensures backlog[0] !in pending
  {
    forall i | 0 <= i < |pending| ensures pending[i] != backlog[0] {
      assert (pending + backlog)[i] == pending[i] && (pending + backlog)[|pending|] == backlog[0];
    }
  }

  /** The archives on which the backend has been called in this boot. */
  function Called(log: seq<Entry>): seq<nat> {
    if log == [] then []
    else
      match log[|log| - 1]
      case Restart => []
      case Call(_, n) => Called(log[..|log| - 1]) + [n]
      case _ => Called(log[..|log| - 1])
  }

  /** Within a boot without `enqueue`: what was taken, waits, or is left of the
      backlog is the plan, in its order; a held archive is the last taken. */
  ghost predicate PlanInv(s: State, plan: seq<nat>) {
    && s.jobs + s.queue.pending + s.queue.backlog == plan && Ascending(plan)
    && (forall n :: n in Called(s.log) ==> n in s.jobs) && Ascending(Called(s.log))
    && (forall i :: 0 <= i < |s.workers| && s.workers[i].Holding? ==>
          s.workers[i].log in s.jobs && forall n :: n in Called(s.log) ==> n < s.workers[i].log)
  }

  /** Steps of one boot, in which nothing is enqueued and no further scan made. */
  predicate Quiet(step: Step) { !step.Boot? && !step.Enqueue? && !step.CatchUp? }

  lemma CalledPush(log: seq<Entry>, e: Entry)
    ensures Called(log + [e]) == if e.Restart? then [] else if e.Call? then Called(log) + [e.log] else Called(log)
  {
    assert (log + [e])[..|log|] == log;
  }

  lemma TakeKeepsPlan(s: State, plan: seq<nat>, i: nat)
    requires QueueInv(s) && PlanInv(s, plan) && Enabled(s, Take(i))
    ensures PlanInv(TakenIn(s, i), plan)
  {
    hide QueueInv, Called;
    RefillOfPlan(s, plan);
    var (r, raised) := Refilled(s.queue);
    hide Refilled;
    var after := TakenIn(s, i);
    OneWorkerOnly(s);
    if r.pending == [] {
      assert s.jobs + [] == s.jobs;
    } else {
      var n := r.pending[0];
      assert s.jobs + [n] + r.pending[1..] == s.jobs + r.pending;
      assert after.jobs == s.jobs + [n];
      FrontIsHighest(s.jobs, n, r.pending[1..] + r.backlog, plan);
    }
  }

  lemma OneWorkerOnly(s: State)
    requires QueueInv(s)
    ensures |s.workers| <= 1
  {
  }

  lemma RefillOfPlan(s: State, plan: seq<nat>)
    requires s.jobs + s.queue.pending + s.queue.backlog == plan && Ascending(plan)
    ensures var r := Refilled(s.queue).0; s.jobs + r.pending + r.backlog == plan
  {
    var tail := s.queue.pending + s.queue.backlog;
    assert s.jobs + tail == plan;
    assert NoDuplicates(tail) by {
      forall i, j | 0 <= i < j < |tail| ensures tail[i] != tail[j] {
        assert tail[i] == plan[|s.jobs| + i] && tail[j] == plan[|s.jobs| + j];
      }
    }
    RefillConserves(s.queue);
    var r := Refilled(s.queue).0;
    assert s.jobs + (r.pending + r.backlog) == s.jobs + r.pending + r.backlog;
  }

  lemma FrontIsHighest(jobs: seq<nat>, n: nat, rest: seq<nat>, plan: seq<nat>)
    requires jobs + [n] + rest == plan && Ascending(plan)
    ensures forall m :: m in jobs ==> m < n
  {
    forall m | m in jobs ensures m < n {
      var i :| 0 <= i < |jobs| && jobs[i] == m;
      assert plan[i] == m && plan[|jobs|] == n;
    }
  }

  lemma QuietKeepsPlan(s: State, plan: seq<nat>, step: Step)
    requires QueueInv(s) && PlanInv(s, plan) && Quiet(step)
    ensures PlanInv(Took(s, step), plan)
  {
    hide QueueInv, TakenIn, Called, Ascending;
    if Enabled(s, step) {
      match step
      case Take(i) => TakeKeepsPlan(s, plan, i);
      case Begin(i, isolated) => BeginKeepsPlan(s, plan, i, isolated);
      case Finish(i, o) => FinishKeepsPlan(s, plan, i, o);
      case _ =>
    }
  }

  lemma BeginKeepsPlan(s: State, plan: seq<nat>, i: nat, isolated: bool)
    requires QueueInv(s) && PlanInv(s, plan) && Enabled(s, Begin(i, isolated))
    ensures PlanInv(BegunIn(s, i, isolated), plan)
  {
    hide QueueInv, Called, Exhausted, Ascending;
    OneWorkerOnly(s);
    CalledPush(s.log, Call(s.today, s.workers[i].log));
    AscendPush(Called(s.log), s.workers[i].log);
  }

  lemma FinishKeepsPlan(s: State, plan: seq<nat>, i: nat, o: Outcome)
    requires QueueInv(s) && PlanInv(s, plan) && Enabled(s, Finish(i, o))
    ensures PlanInv(FinishedIn(s, i, o), plan)
  {
    hide QueueInv, Called, ChargedFor, Ascending;
    OneWorkerOnly(s);
    match o
    case Extracted(_) => CalledPush(s.log, Success);
    case Failure(_) => CalledPush(s.log, Strike(s.workers[i].day));
    case _ => assert s.log + [] == s.log;
  }

  lemma {:induction false} QuietAlways(s: State, plan: seq<nat>, steps: seq<Step>)
    requires QueueInv(s) && PlanInv(s, plan) && forall k :: 0 <= k < |steps| ==> Quiet(steps[k])
    ensures QueueInv(After(s, steps)) && PlanInv(After(s, steps), plan)
    decreases |steps|
  {
    hide QueueInv, PlanInv, Took;
    if steps != [] {
      QueueKept(s, steps[0]);
      QuietKeepsPlan(s, plan, steps[0]);
      QuietAlways(Took(s, steps[0]), plan, steps[1..]);
    }
  }

  /** A boot that scans: the state before its catch-up. */
  lemma BootScans(s: State, highest: nat)
    requires s.ledger.watermark.Some? && s.ledger.watermark.value < highest
    ensures var b := Booted(s, highest);
            && b.scan == s.ledger.watermark && b.queue == NEW_QUEUE.(catchingUp := true) && b.jobs == []
            && b.workers == []
            && Called(b.log) == []
  {
    CalledPush(s.log, Restart);
  }

  lemma ScanMakesPlan(b: State, logs: seq<nat>, listed: Option<set<nat>>)
    requires b.scan.Some? && b.queue == NEW_QUEUE.(catchingUp := true) && b.jobs == [] && b.workers == []
             && Called(b.log) == []
    requires Sorted(logs)
    ensures PlanInv(CaughtUpIn(b, logs, listed), Plan(Found(logs, b.scan.value, listed)))
  {
    hide Called;
    var found := Found(logs, b.scan.value, listed);
    FoundIsSorted(logs, b.scan.value, listed);
    PlanAscends(found);
    hide Found;
    var q := b.queue.(catchingUp := false);
    BackloggedFromEmpty(q, found);
    var filled := Backlogged(q, found);
    var at := b.(queue := filled);
    assert [] + [] + Plan(found) == Plan(found);
    RefillOfPlan(at, Plan(found));
  }

  /** A boot that catches up, with nothing enqueued meanwhile: whatever its size,
      archives are taken in ascending order, each at most once, and the backend
      is called on them in that order; they are exactly those above the
      watermark that the store has pending; and when no worker is left, all of
      them have been taken. */
  lemma CatchUpTakesEachOnceAscending(
      limit: nat, today: Day, before: seq<Step>, highest: nat, logs: seq<nat>, listed: Option<set<nat>>,
      steps: seq<Step>)
    requires var s := After(Initial(limit, today), before);
             s.ledger.watermark.Some? && s.ledger.watermark.value < highest
    requires Sorted(logs) && forall k :: 0 <= k < |steps| ==> Quiet(steps[k])
    ensures var s := After(Initial(limit, today), before);
            var plan := Plan(Found(logs, s.ledger.watermark.value, listed));
            var t := After(Took(Took(s, Boot(highest)), CatchUp(logs, listed)), steps);
            && t.jobs <= plan && Ascending(plan)
            && (forall n :: n in plan <==>
                  n in logs && n > s.ledger.watermark.value && (listed.None? || n in listed.value))
            && Ascending(Called(t.log)) && (forall n :: n in Called(t.log) ==> n in t.jobs)
            && (t.workers == [] && t.toStart == 0 ==> t.jobs == plan)
  {
    hide Called, QueueInv, PlanInv, Plan, Found, Took;
    var s := After(Initial(limit, today), before);
    InitialQueue(limit, today);
    QueueAlways(Initial(limit, today), before);
    var found := Found(logs, s.ledger.watermark.value, listed);
    BootMakesPlan(s, highest, logs, listed);
    var c := Took(Took(s, Boot(highest)), CatchUp(logs, listed));
    QuietAlways(c, Plan(found), steps);
    FoundIsAbove(logs, s.ledger.watermark.value, listed);
    PlanHolds(found);
    PlanTells(After(c, steps), Plan(found));
  }

  lemma BootMakesPlan(s: State, highest: nat, logs: seq<nat>, listed: Option<set<nat>>)
    requires QueueInv(s) && s.ledger.watermark.Some? && s.ledger.watermark.value < highest && Sorted(logs)
    ensures var c := Took(Took(s, Boot(highest)), CatchUp(logs, listed));
            QueueInv(c) && PlanInv(c, Plan(Found(logs, s.ledger.watermark.value, listed)))
  {
    hide QueueInv, CaughtUpIn, PlanInv, Plan, Found, Called;
    QueueKept(s, Boot(highest));
    QueueKept(Took(s, Boot(highest)), CatchUp(logs, listed));
    BootScans(s, highest);
    ScanMakesPlan(Booted(s, highest), logs, listed);
  }

  lemma PlanTells(t: State, plan: seq<nat>)
    requires QueueInv(t) && PlanInv(t, plan)
    ensures t.jobs <= plan && Ascending(plan) && (t.workers == [] && t.toStart == 0 ==> t.jobs == plan)
    ensures Ascending(Called(t.log)) && forall n :: n in Called(t.log) ==> n in t.jobs
  {
    hide Called, Ascending;
    PlanPrefix(t, plan);
    NothingLeft(t);
  }

  lemma InitialQueue(limit: nat, today: Day)
    ensures QueueInv(Initial(limit, today))
  {
  }

  lemma PlanPrefix(t: State, plan: seq<nat>)
    requires t.jobs + t.queue.pending + t.queue.backlog == plan
    ensures t.jobs <= plan && (t.queue.pending == [] && t.queue.backlog == [] ==> t.jobs == plan)
  {
  }

  lemma NothingLeft(t: State)
    requires QueueInv(t)
    ensures t.workers == [] && t.toStart == 0 ==> t.queue.pending == [] && t.queue.backlog == []
  {
  }
}
