/** Every run of the extraction scheduler, across restarts. */
module GraphRuns {
  import opened Text
  import opened GraphExtractors

  /** A worker task: about to ask for a job, holding one, or extracting it on `day`. */
  datatype Worker = Idle | Holding(log: nat) | Extracting(log: nat, day: Day)

  datatype Charge = Charge(day: Day, tokens: nat)

  /** What happened to extraction: `Call` is a call of the backend. */
  datatype Entry = Restart | Call(day: Day, log: nat) | Success | Strike(day: Day)

  /** `toStart`: workers that a caller is about to spawn. `scan`: the watermark
      of a catch-up still to be made. The rest is history: numbers put in
      `pending` (`atBoot` of them before this boot), jobs taken in this boot,
      charges, and calls. */
  datatype State = State(
    limit: nat,
    today: Day,
    queue: Queue,
    ledger: Ledger,
    toStart: nat,
    workers: seq<Worker>,
    scan: Option<nat>,
    put: seq<nat>,
    atBoot: nat,
    jobs: seq<nat>,
    charges: seq<Charge>,
    log: seq<Entry>)

  function Initial(limit: nat, today: Day): State {
    State(limit, today, NEW_QUEUE, NEW_LEDGER, 0, [], None, [], 0, [], [], [])
  }

  datatype Step =
    | Boot(highest: nat)
    | Tomorrow(day: Day)
    | Enqueue(n: nat)
    | CatchUp(logs: seq<nat>, listed: Option<set<nat>>)
    | Spawn
    | Take(i: nat)
    | Begin(i: nat, isolated: bool)
    | Finish(i: nat, outcome: Outcome)

  predicate Enabled(s: State, step: Step) {
    match step
    case Boot(_) => true
    case Enqueue(_) => true
    case Tomorrow(day) => s.today <= day
    case CatchUp(logs, _) => s.scan.Some?
    case Spawn => s.toStart > 0
    case Take(i) => i < |s.workers| && s.workers[i].Idle?
    case Begin(i, _) => i < |s.workers| && s.workers[i].Holding?
    case Finish(i, _) => i < |s.workers| && s.workers[i].Extracting?
  }

  function Without(workers: seq<Worker>, i: nat): seq<Worker>
    requires i < |workers|
  {
    workers[..i] + workers[i + 1..]
  }

  /** What `after` holds in `pending` beyond `before`. */
  function Added(before: seq<nat>, after: seq<nat>): seq<nat> {
    if |before| <= |after| then after[|before|..] else []
  }

  function ToLog(day: Day, outcome: Outcome): seq<Entry> {
    match outcome
    case Extracted(_) => [Success]
    case Failure(_) => [Strike(day)]
    case _ => []
  }

  function Booted(s: State, highest: nat): State {
    var (q, l, scan) := Started(NEW_QUEUE, s.ledger, highest);
    s.(queue := q, ledger := l, scan := scan, toStart := 0, workers := [], atBoot := |s.put|, jobs := [],
       log := s.log + [Restart])
  }

  function EnqueuedIn(s: State, n: nat): State {
    var (q, accepted, start) := Enqueued(s.queue, n);
    if accepted then
      s.(queue := q, ledger := Raised(s.ledger, n), put := s.put + [n], toStart := s.toStart + if start then 1 else 0)
    else s
  }

  function CaughtUpIn(s: State, logs: seq<nat>, listed: Option<set<nat>>): State
    requires s.scan.Some?
  {
    var (q, raised, start) := CaughtUp(s.queue, Found(logs, s.scan.value, listed));
    s.(queue := q, ledger := RaisedIf(s.ledger, raised), scan := None,
       put := s.put + Added(s.queue.pending, q.pending), toStart := s.toStart + if start then 1 else 0)
  }

  function TakenIn(s: State, i: nat): State
    requires i < |s.workers|
  {
    var (q, job, raised) := Next(s.queue);
    s.(queue := q, ledger := RaisedIf(s.ledger, raised),
       put := s.put + Added(s.queue.pending, Refilled(s.queue).0.pending),
       jobs := s.jobs + if job.Some? then [job.value] else [],
       workers := if job.Some? then s.workers[i := Holding(job.value)] else Without(s.workers, i))
  }

  function BegunIn(s: State, i: nat, isolated: bool): State
    requires i < |s.workers| && s.workers[i].Holding?
  {
    var (q, why) := Refused(s.queue, s.ledger, s.limit, isolated, s.today);
    if why.Some? then s.(queue := q, workers := s.workers[i := Idle])
    else
      s.(queue := q, workers := s.workers[i := Extracting(s.workers[i].log, s.today)],
         log := s.log + [Call(s.today, s.workers[i].log)])
  }

  function FinishedIn(s: State, i: nat, o: Outcome): State
    requires i < |s.workers| && s.workers[i].Extracting?
  {
    var day := s.workers[i].day;
    s.(queue := Reported(s.queue, day, o), ledger := ChargedFor(s.ledger, day, o),
       workers := s.workers[i := Idle], log := s.log + ToLog(day, o),
       charges := s.charges + if TokensOf(o) > 0 then [Charge(day, TokensOf(o))] else [])
  }

  function Apply(s: State, step: Step): State
    requires Enabled(s, step)
  {
    match step
    case Boot(highest) => Booted(s, highest)
    case Tomorrow(day) => s.(today := day)
    case Enqueue(n) => EnqueuedIn(s, n)
    case CatchUp(logs, listed) => CaughtUpIn(s, logs, listed)
    case Spawn => s.(toStart := s.toStart - 1, workers := s.workers + [Idle])
    case Take(i) => TakenIn(s, i)
    case Begin(i, isolated) => BegunIn(s, i, isolated)
    case Finish(i, outcome) => FinishedIn(s, i, outcome)
  }

  function Took(s: State, step: Step): State { if Enabled(s, step) then Apply(s, step) else s }

  /** The state after a run; a step that is not enabled does nothing. */
  function After(s: State, steps: seq<Step>): State
    decreases |steps|
  {
    if steps == [] then s else After(Took(s, steps[0]), steps[1..])
  }

  lemma AfterFirst(s: State, step: Step, rest: seq<Step>)
    ensures After(s, [step] + rest) == After(Took(s, step), rest)
  {
    assert ([step] + rest)[1..] == rest;
  }

  // ---- `refill` ----

  predicate NoDuplicates(s: seq<nat>) { forall i, j :: 0 <= i < j < |s| ==> s[i] != s[j] }

  /** `top` is the highest of `ns`, if there is one. */
  predicate IsTop(top: Option<nat>, ns: seq<nat>) {
    if top.None? then ns == [] else top.value in ns && forall n :: n in ns ==> n <= top.value
  }

  /** What a refill does: it moves archives from the backlog to the end of
      `pending`, up to 64 and without duplicates, and reports the highest. */
  lemma {:induction false} RefillMoves(q: Queue) returns (moved: seq<nat>)
    requires |q.pending| <= MAX_QUEUED && NoDuplicates(q.pending)
    ensures var (r, raised) := Refilled(q);
            && r == q.(pending := q.pending + moved, backlog := r.backlog)
            && |r.pending| <= MAX_QUEUED && NoDuplicates(r.pending)
            && (r.backlog == [] || |r.pending| == MAX_QUEUED)
            && (forall n :: n in r.backlog ==> n in q.backlog)
            && (forall n :: n in moved ==> n in q.backlog)
            && IsTop(raised, moved)
    decreases |q.backlog|
  {
    moved := [];
    assert q.pending + [] == q.pending;
    if |q.pending| < MAX_QUEUED && q.backlog != [] {
      var n, rest := q.backlog[0], q.backlog[1..];
      if n in q.pending {
        moved := RefillMoves(q.(backlog := rest));
      } else {
        PushKeepsDistinct(q.pending, n);
        hide NoDuplicates, IsTop;
        var more := RefillMoves(q.(pending := q.pending + [n], backlog := rest));
        moved := [n] + more;
        assert q.pending + [n] + more == q.pending + moved;
        TopGrows(n, more, Refilled(q.(pending := q.pending + [n], backlog := rest)).1);
      }
    }
  }

  lemma TopGrows(n: nat, more: seq<nat>, top: Option<nat>)
    requires IsTop(top, more)
    ensures IsTop(Some(if top.Some? then Max(n, top.value) else n), [n] + more)
  {
  }

  lemma PushKeepsDistinct(s: seq<nat>, n: nat)
    requires NoDuplicates(s)
    ensures n !in s ==> NoDuplicates(s + [n])
  {
  }

  // ---- One worker, a bounded queue, nothing stranded ----

  ghost predicate QueueInv(s: State) {
    && |s.workers| + s.toStart == (if s.queue.running then 1 else 0)
    && |s.queue.pending| <= MAX_QUEUED && NoDuplicates(s.queue.pending)
    && (s.queue.pending != [] || s.queue.backlog != [] ==> s.queue.running)
  }

  lemma {:induction false} BackloggedKeeps(q: Queue, found: seq<nat>)
    ensures var b := Backlogged(q, found);
            && b == q.(backlog := b.backlog) && q.backlog <= b.backlog
            && forall n :: n in b.backlog ==> n in q.backlog || n in found
    decreases |found|
  {
    if found != [] { BackloggedKeeps(q, found[..|found| - 1]); }
  }

  lemma CatchUpKeepsQueue(s: State, logs: seq<nat>, listed: Option<set<nat>>)
    requires QueueInv(s) && s.scan.Some?
    ensures QueueInv(CaughtUpIn(s, logs, listed))
  {
    hide Backlogged, Refilled, Found, Added, NoDuplicates;
    var b := Backlogged(s.queue.(catchingUp := false), Found(logs, s.scan.value, listed));
    BackloggedKeeps(s.queue.(catchingUp := false), Found(logs, s.scan.value, listed));
    var moved := RefillMoves(b);
  }

  lemma TakeKeepsQueue(s: State, i: nat)
    requires QueueInv(s) && Enabled(s, Take(i))
    ensures QueueInv(TakenIn(s, i))
  {
    hide Refilled, Added, IsTop;
    var moved := RefillMoves(s.queue);
  }

  lemma QueueKept(s: State, step: Step)
    requires QueueInv(s)
    ensures QueueInv(Took(s, step))
  {
    hide Refilled, Added, Backlogged;
    if Enabled(s, step) {
      match step
      case CatchUp(logs, listed) => CatchUpKeepsQueue(s, logs, listed);
      case Take(i) => TakeKeepsQueue(s, i);
      case Enqueue(n) => PushKeepsDistinct(s.queue.pending, n);
      case _ =>
    }
  }

  lemma {:induction false} QueueAlways(s: State, steps: seq<Step>)
    requires QueueInv(s)
    ensures QueueInv(After(s, steps))
    decreases |steps|
  {
    hide QueueInv, Took;
    if steps != [] {
      QueueKept(s, steps[0]);
      QueueAlways(Took(s, steps[0]), steps[1..]);
    }
  }

  /** In every run across any restarts: at most one worker exists or is about
      to, `pending` holds at most 64 archives, each once, and work is never
      stranded: a queue or backlog that is not empty has that worker. */
  lemma OneWorkerNothingStranded(limit: nat, today: Day, steps: seq<Step>)
    ensures var s := After(Initial(limit, today), steps);
            && |s.workers| + s.toStart <= 1
            && |s.queue.pending| <= 64 && NoDuplicates(s.queue.pending)
            && (s.queue.pending != [] || s.queue.backlog != [] ==> |s.workers| + s.toStart == 1)
  {
    QueueAlways(Initial(limit, today), steps);
  }
}
