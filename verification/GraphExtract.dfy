/** The scheduler of background graph extraction (`src/graph_extract.rs`): a
    bounded queue, a catch-up backlog, and a ledger that outlives restarts. */
module GraphExtractors {
  import opened Text

  const MAX_QUEUED := 64
  const MAX_CONSECUTIVE_FAILURES := 3
  const U64_MAX := 0xffff_ffff_ffff_ffff

  type Day = nat

  // ---- The ledger ----

  datatype Ledger = Ledger(day: Option<Day>, tokens: nat, watermark: Option<nat>)

  const NEW_LEDGER := Ledger(None, 0, None)

  function Max(a: nat, b: nat): nat { if a < b then b else a }

  /** `raise_watermark`. */
  function Raised(l: Ledger, log: nat): Ledger {
    if l.watermark.Some? && l.watermark.value >= log then l else l.(watermark := Some(log))
  }

  function RaisedIf(l: Ledger, log: Option<nat>): Ledger { if log.Some? then Raised(l, log.value) else l }

  function Spent(l: Ledger, day: Day): nat { if l.day == Some(day) then l.tokens else 0 }

  /** A limit of zero is no limit. */
  predicate Exhausted(l: Ledger, limit: nat, day: Day) { limit > 0 && Spent(l, day) >= limit }

  /** `charge`, whose addition saturates. */
  function Charged(l: Ledger, day: Day, tokens: nat): Ledger {
    var total := Spent(l, day) + tokens;
    l.(day := Some(day), tokens := if total > U64_MAX then U64_MAX else total)
  }

  // ---- The queue ----

  datatype Queue = Queue(
    pending: seq<nat>,
    backlog: seq<nat>,
    running: bool,
    catchingUp: bool,
    failures: nat,
    pausedOn: Option<Day>,
    budgetNotedOn: Option<Day>)

  const NEW_QUEUE := Queue([], [], false, false, 0, None, None)

  /** `refill`: the queue, and the highest log moved. */
  function Refilled(q: Queue): (Queue, Option<nat>)
    decreases |q.backlog|
  {
    if |q.pending| >= MAX_QUEUED || q.backlog == [] then (q, None)
    else if q.backlog[0] in q.pending then Refilled(q.(backlog := q.backlog[1..]))
    else
      var (end, raised) := Refilled(q.(pending := q.pending + [q.backlog[0]], backlog := q.backlog[1..]));
      (end, Some(if raised.Some? then Max(q.backlog[0], raised.value) else q.backlog[0]))
  }

  /** The locked part of `enqueue`: the queue, whether the archive went in, and
      whether a worker is to be started. */
  function Enqueued(q: Queue, log: nat): (Queue, bool, bool) {
    if log in q.pending || |q.pending| >= MAX_QUEUED then (q, false, false)
    else (q.(pending := q.pending + [log], running := true), true, !q.running)
  }

  /** The locked part of `next_job`: the queue, the job, and the watermark to raise. */
  function Next(q: Queue): (Queue, Option<nat>, Option<nat>) {
    var (r, raised) := Refilled(q);
    if r.pending == [] then (r.(running := false), None, raised)
    else (r.(pending := r.pending[1..]), Some(r.pending[0]), raised)
  }

  function Backlogged(q: Queue, found: seq<nat>): Queue
    decreases |found|
  {
    if found == [] then q
    else
      var before, log := Backlogged(q, found[..|found| - 1]), found[|found| - 1];
      if log in before.pending || log in before.backlog then before else before.(backlog := before.backlog + [log])
  }

  /** The locked part of `catch_up`: the queue, the watermark to raise, and
      whether a worker is to be started. */
  function CaughtUp(q: Queue, found: seq<nat>): (Queue, Option<nat>, bool) {
    var (r, raised) := Refilled(Backlogged(q.(catchingUp := false), found));
    if r.pending != [] then (r.(running := true), raised, !r.running) else (r, raised, false)
  }

  /** The archives above `watermark` that the store has pending; all of those
      above it when the store cannot say. */
  function Found(logs: seq<nat>, watermark: nat, listed: Option<set<nat>>): seq<nat>
    decreases |logs|
  {
    if logs == [] then []
    else
      Found(logs[..|logs| - 1], watermark, listed) +
      var log := logs[|logs| - 1];
      if log > watermark && (listed.None? || log in listed.value) then [log] else []
  }

  /** `start_catch_up`, with the highest archive on disk: the queue, the ledger,
      and the watermark above which a catch-up is to be made. */
  function Started(q: Queue, l: Ledger, highest: nat): (Queue, Ledger, Option<nat>) {
    if l.watermark.None? then (q, Raised(l, highest), None)
    else if highest <= l.watermark.value then (q, l, None)
    else (q.(catchingUp := true), l, Some(l.watermark.value))
  }

  // ---- One archive ----

  datatype Refusal = Isolated | Paused | BudgetSpent | BudgetNoted

  /** `refusal`, and the queue with the budget line noted. */
  function Refused(q: Queue, l: Ledger, limit: nat, isolated: bool, today: Day): (Queue, Option<Refusal>) {
    if isolated then (q, Some(Isolated))
    else if q.pausedOn == Some(today) then (q, Some(Paused))
    else if !Exhausted(l, limit, today) then (q, None)
    else if q.budgetNotedOn == Some(today) then (q, Some(BudgetNoted))
    else (q.(budgetNotedOn := Some(today)), Some(BudgetSpent))
  }

  /** What one attempt came to, with the tokens it spent. `Failure` includes a timeout. */
  datatype Outcome = Extracted(tokens: nat) | NothingPending | Unavailable(tokens: nat) | Failure(tokens: nat)

  function TokensOf(o: Outcome): nat { if o.NothingPending? then 0 else o.tokens }

  function ChargedFor(l: Ledger, today: Day, o: Outcome): Ledger {
    if TokensOf(o) > 0 then Charged(l, today, TokensOf(o)) else l
  }

  function FailureRecorded(q: Queue, today: Day): Queue {
    if q.failures + 1 >= MAX_CONSECUTIVE_FAILURES then q.(failures := 0, pausedOn := Some(today))
    else q.(failures := q.failures + 1)
  }

  /** `report`. */
  function Reported(q: Queue, today: Day, o: Outcome): Queue {
    match o
    case Extracted(_) => q.(failures := 0)
    case Failure(_) => FailureRecorded(q, today)
    case _ => q
  }

  class GraphExtractor {
    const limit: nat
    var pending: seq<nat>
    var backlog: seq<nat>
    var running: bool
    var catchingUp: bool
    var failures: nat
    var pausedOn: Option<Day>
    var budgetNotedOn: Option<Day>
    /** The ledger, which is a file. */
    var ledger: Ledger

    function Held(): Queue
      reads this
    {
      Queue(pending, backlog, running, catchingUp, failures, pausedOn, budgetNotedOn)
    }

    constructor (limit: nat, ledger: Ledger)
      ensures this.limit == limit && Held() == NEW_QUEUE && this.ledger == ledger
    {
      this.limit, this.ledger := limit, ledger;
      pending, backlog, running, catchingUp, failures, pausedOn, budgetNotedOn := [], [], false, false, 0, None, None;
    }

    method StartCatchUp(highest: nat) returns (above: Option<nat>)
      modifies `catchingUp, `ledger
      ensures (Held(), ledger, above) == Started(old(Held()), old(ledger), highest)
    {
      if ledger.watermark.None? {
        RaiseWatermark(highest);
        return None;
      }
      if highest <= ledger.watermark.value {
        return None;
      }
      catchingUp := true;
      return Some(ledger.watermark.value);
    }

    /** True when a worker is to be started. */
    method Enqueue(log: nat) returns (start: bool)
      modifies `pending, `running, `ledger
      ensures (Held(), ledger, start) ==
              var (q, accepted, start) := Enqueued(old(Held()), log);
              (q, if accepted then Raised(old(ledger), log) else old(ledger), start)
    {
      if log in pending {
        return false;
      }
      if |pending| >= MAX_QUEUED {
        return false;
      }
      pending := pending + [log];
      start := !running;
      running := true;
      RaiseWatermark(log);
    }

    method RaiseWatermark(log: nat)
      modifies `ledger
      ensures ledger == Raised(old(ledger), log)
    {
      if ledger.watermark.Some? && ledger.watermark.value >= log {
        return;
      }
      ledger := ledger.(watermark := Some(if ledger.watermark.Some? then Max(ledger.watermark.value, log) else log));
    }

    method Refill() returns (raised: Option<nat>)
      modifies `pending, `backlog
      ensures (Held(), raised) == Refilled(old(Held()))
    {
      raised := None;
      ghost var all := Refilled(Held());
      while |pending| < MAX_QUEUED && backlog != []
        invariant Held() == old(Held()).(pending := pending, backlog := backlog)
        invariant all.0 == Refilled(Held()).0
        invariant all.1 == Higher(raised, Refilled(Held()).1)
        decreases |backlog|
      {
        var log := backlog[0];
        backlog := backlog[1..];
        if log !in pending {
          pending := pending + [log];
          raised := Some(if raised.Some? then Max(raised.value, log) else log);
        }
      }
    }

    method NextJob() returns (job: Option<nat>)
      modifies `pending, `backlog, `running, `ledger
      ensures var (q, next, raised) := Next(old(Held()));
              Held() == q && job == next && ledger == RaisedIf(old(ledger), raised)
    {
      var raised := Refill();
      if pending == [] {
        job := None;
        running := false;
      } else {
        job := Some(pending[0]);
        pending := pending[1..];
      }
      if raised.Some? {
        RaiseWatermark(raised.value);
      }
    }

    /** The second half of `catch_up`, once the store has answered. */
    method CatchUp(found: seq<nat>) returns (start: bool)
      modifies `pending, `backlog, `running, `catchingUp, `ledger
      ensures var (q, raised, begin) := CaughtUp(old(Held()), found);
              Held() == q && start == begin && ledger == RaisedIf(old(ledger), raised)
    {
      catchingUp := false;
      ghost var q := Held();
      for n := 0 to |found|
        invariant Held() == Backlogged(q, found[..n])
        invariant ledger == old(ledger)
      {
        assert found[..n + 1][..n] == found[..n];
        if found[n] !in pending && found[n] !in backlog {
          backlog := backlog + [found[n]];
        }
      }
      assert found[..|found|] == found;
      var raised := Refill();
      start := pending != [] && !running;
      if pending != [] {
        running := true;
      }
      if raised.Some? {
        RaiseWatermark(raised.value);
      }
    }

    /** `refusal`. */
    method Refuse(isolated: bool, today: Day) returns (why: Option<Refusal>)
      modifies `budgetNotedOn
      ensures (Held(), why) == Refused(old(Held()), ledger, limit, isolated, today)
    {
      if isolated {
        return Some(Isolated);
      }
      if pausedOn == Some(today) {
        return Some(Paused);
      }
      if !Exhausted(ledger, limit, today) {
        return None;
      }
      if budgetNotedOn == Some(today) {
        return Some(BudgetNoted);
      }
      budgetNotedOn := Some(today);
      return Some(BudgetSpent);
    }

    /** The end of `process`, when the attempt came to `o`. */
    method Finish(today: Day, o: Outcome)
      modifies `failures, `pausedOn, `ledger
      ensures Held() == Reported(old(Held()), today, o) && ledger == ChargedFor(old(ledger), today, o)
    {
      if TokensOf(o) > 0 {
        if ledger.day != Some(today) {
          ledger := ledger.(day := Some(today), tokens := 0);
        }
        var total := ledger.tokens + TokensOf(o);
        ledger := ledger.(tokens := if total > U64_MAX then U64_MAX else total);
      }
      match o {
        case Extracted(_) => failures := 0;
        case Failure(_) =>
          failures := failures + 1;
          if failures >= MAX_CONSECUTIVE_FAILURES {
            failures := 0;
            pausedOn := Some(today);
          }
        case _ =>
      }
    }
  }

  function Higher(a: Option<nat>, b: Option<nat>): Option<nat> {
    if a.None? then b else if b.None? then a else Some(Max(a.value, b.value))
  }
}
