/** What extraction may spend in a day, and when failures stop it. */
module GraphSpending {
  import opened Text
  import opened GraphExtractors
  import opened GraphRuns

  // ---- The daily budget ----

  function TokensOn(charges: seq<Charge>, day: Day): nat {
    if charges == [] then 0
    else
      var last := charges[|charges| - 1];
      TokensOn(charges[..|charges| - 1], day) + if last.day == day then last.tokens else 0
  }

  /** The tokens charged to `day` before its last charge. */
  function BeforeLast(charges: seq<Charge>, day: Day): nat {
    if charges == [] then 0
    else
      var init := charges[..|charges| - 1];
      if charges[|charges| - 1].day == day then TokensOn(init, day) else BeforeLast(init, day)
  }

  function Capped(n: nat): nat { if n > U64_MAX then U64_MAX else n }

  /** The ledger holds what was charged on its day, the last day charged. */
  ghost predicate LedgerInv(s: State) {
    && (s.ledger.day.None? ==> s.charges == [])
    && (s.ledger.day.Some? ==>
          s.ledger.day.value <= s.today && s.ledger.tokens == Capped(TokensOn(s.charges, s.ledger.day.value)))
    && (forall c :: c in s.charges ==> s.ledger.day.Some? && c.day <= s.ledger.day.value)
  }

  /** An archive being extracted was begun within the cap, on a day not before any charged. */
  ghost predicate BegunInv(s: State) {
    forall i :: 0 <= i < |s.workers| && s.workers[i].Extracting? ==>
      var day := s.workers[i].day;
      && day <= s.today && (s.ledger.day.Some? ==> s.ledger.day.value <= day)
      && !Exhausted(s.ledger, s.limit, day)
  }

  ghost predicate BudgetInv(s: State) {
    && LedgerInv(s) && BegunInv(s)
    && (s.limit > 0 ==> forall day :: BeforeLast(s.charges, day) < s.limit)
  }

  lemma {:induction false} NothingOn(charges: seq<Charge>, day: Day)
    requires forall c :: c in charges ==> c.day < day
    ensures TokensOn(charges, day) == 0
  {
    if charges != [] {
      assert charges[|charges| - 1] in charges;
      NothingOn(charges[..|charges| - 1], day);
    }
  }

  lemma ChargePush(charges: seq<Charge>, c: Charge, day: Day)
    ensures TokensOn(charges + [c], day) == TokensOn(charges, day) + if c.day == day then c.tokens else 0
    ensures BeforeLast(charges + [c], day) == if c.day == day then TokensOn(charges, day) else BeforeLast(charges, day)
  {
    assert (charges + [c])[..|charges|] == charges;
  }

  /** What the ledger says was spent on a day not before its own. */
  lemma SpentIsCharged(s: State, day: Day)
    requires LedgerInv(s) && (s.ledger.day.Some? ==> s.ledger.day.value <= day)
    ensures Spent(s.ledger, day) == Capped(TokensOn(s.charges, day))
  {
    if s.ledger.day != Some(day) { NothingOn(s.charges, day); }
  }

  lemma FinishKeepsBudget(s: State, i: nat, o: Outcome)
    requires QueueInv(s) && BudgetInv(s) && s.limit <= U64_MAX && Enabled(s, Finish(i, o))
    ensures BudgetInv(FinishedIn(s, i, o))
  {
    hide QueueInv, TokensOn, BeforeLast, Reported, ToLog;
    var after := FinishedIn(s, i, o);
    assert |s.workers| == 1 by { OneWorker(s); }
    var day := s.workers[i].day;
    if TokensOf(o) > 0 {
      var c := Charge(day, TokensOf(o));
      SpentIsCharged(s, day);
      ChargePush(s.charges, c, day);
      assert after.charges == s.charges + [c];
      if s.limit > 0 {
        forall d ensures BeforeLast(after.charges, d) < s.limit { ChargePush(s.charges, c, d); }
      }
    } else {
      assert s.charges + [] == s.charges;
    }
  }

  lemma OneWorker(s: State)
    requires QueueInv(s)
    ensures |s.workers| <= 1
  {
  }

  lemma TakeExtractsNothing(s: State, i: nat)
    requires Enabled(s, Take(i))
    ensures forall k :: 0 <= k < |TakenIn(s, i).workers| && TakenIn(s, i).workers[k].Extracting? ==>
              TakenIn(s, i).workers[k] in s.workers
  {
    hide Next, Refilled;
  }

  lemma BudgetKept(s: State, step: Step)
    requires QueueInv(s) && BudgetInv(s) && s.limit <= U64_MAX
    ensures BudgetInv(Took(s, step))
  {
    hide QueueInv, CaughtUp, Next, Refilled, Enqueued, FinishedIn, TokensOn, BeforeLast;
    if Enabled(s, step) {
      match step
      case Finish(i, o) => FinishKeepsBudget(s, i, o);
      case Take(i) => TakeExtractsNothing(s, i);
      case _ =>
    }
  }

  lemma {:induction false} BudgetAlways(s: State, steps: seq<Step>)
    requires QueueInv(s) && BudgetInv(s) && s.limit <= U64_MAX
    ensures BudgetInv(After(s, steps)) && After(s, steps).limit == s.limit
    decreases |steps|
  {
    hide QueueInv, BudgetInv, Took;
    if steps != [] {
      QueueKept(s, steps[0]);
      BudgetKept(s, steps[0]);
      LimitStays(s, steps[0]);
      BudgetAlways(Took(s, steps[0]), steps[1..]);
    }
  }

  lemma LimitStays(s: State, step: Step)
    ensures Took(s, step).limit == s.limit
  {
  }

  /** With a cap, as days do not go back and across any restarts: what was
      charged to a day before its last charge is below the cap, so the cap is
      overrun by at most one archive. */
  lemma OverrunIsOneArchive(limit: nat, today: Day, steps: seq<Step>, day: Day)
    requires 0 < limit <= U64_MAX
    ensures BeforeLast(After(Initial(limit, today), steps).charges, day) < limit
  {
    BudgetAlways(Initial(limit, today), steps);
  }

  // ---- Three strikes ----

  /** Failures since the last success or restart. */
  function Strikes(log: seq<Entry>): nat {
    if log == [] then 0
    else
      match log[|log| - 1]
      case Strike(_) => Strikes(log[..|log| - 1]) + 1
      case Call(_, _) => Strikes(log[..|log| - 1])
      case _ => 0
  }

  /** Entry `k` is every third failure with no success between, on `day`. */
  predicate StruckOut(log: seq<Entry>, k: nat, day: Day) {
    k < |log| && log[k] == Strike(day) && Strikes(log[..k + 1]) % 3 == 0
  }

  /** The days struck out since the last restart. */
  function StruckDays(log: seq<Entry>): set<Day> {
    if log == [] then {}
    else
      var before := StruckDays(log[..|log| - 1]);
      match log[|log| - 1]
      case Restart => {}
      case Strike(day) => if Strikes(log) % 3 == 0 then before + {day} else before
      case _ => before
  }

  ghost predicate CallsAllowed(log: seq<Entry>) {
    forall m :: 0 <= m < |log| && log[m].Call? ==> log[m].day !in StruckDays(log[..m])
  }

  ghost predicate StrikeInv(s: State) {
    && s.queue.failures == Strikes(s.log) % 3
    && (forall day :: day in StruckDays(s.log) ==> day < s.today || s.queue.pausedOn == Some(day))
    && (forall day :: day in StruckDays(s.log) ==> day <= s.today)
    && (s.queue.pausedOn.Some? ==> s.queue.pausedOn.value in StruckDays(s.log))
    && (forall i :: 0 <= i < |s.workers| && s.workers[i].Extracting? ==>
          s.workers[i].day <= s.today && forall day :: day in StruckDays(s.log) ==> day < s.workers[i].day)
    && CallsAllowed(s.log)
  }

  lemma LogPush(log: seq<Entry>, e: Entry)
    ensures Strikes(log + [e]) == if e.Strike? then Strikes(log) + 1 else if e.Call? then Strikes(log) else 0
    ensures StruckDays(log + [e]) ==
            if e.Restart? then {}
            else if e.Strike? && Strikes(log + [e]) % 3 == 0 then StruckDays(log) + {e.day}
            else StruckDays(log)
    ensures CallsAllowed(log) && (e.Call? ==> e.day !in StruckDays(log)) ==> CallsAllowed(log + [e])
  {
    assert (log + [e])[..|log|] == log;
    forall m | 0 <= m < |log| ensures (log + [e])[..m] == log[..m] {
    }
  }

  lemma FinishKeepsStrikes(s: State, i: nat, o: Outcome)
    requires QueueInv(s) && StrikeInv(s) && Enabled(s, Finish(i, o))
    ensures StrikeInv(FinishedIn(s, i, o))
  {
    hide QueueInv, Strikes, StruckDays, CallsAllowed, ChargedFor;
    OneWorker(s);
    var day := s.workers[i].day;
    match o
    case Extracted(_) => LogPush(s.log, Success);
    case Failure(_) => LogPush(s.log, Strike(day));
    case _ => assert s.log + [] == s.log;
  }

  lemma BeginKeepsStrikes(s: State, i: nat, isolated: bool)
    requires StrikeInv(s) && Enabled(s, Begin(i, isolated))
    ensures StrikeInv(BegunIn(s, i, isolated))
  {
    hide Strikes, StruckDays, CallsAllowed, Exhausted;
    LogPush(s.log, Call(s.today, s.workers[i].log));
  }

  lemma TakeKeepsStrikes(s: State, i: nat)
    requires StrikeInv(s) && Enabled(s, Take(i)) && QueueInv(s)
    ensures StrikeInv(TakenIn(s, i))
  {
    hide Strikes, StruckDays, CallsAllowed, NoDuplicates;
    var moved := RefillMoves(s.queue);
    hide Refilled, QueueInv;
    TakeExtractsNothing(s, i);
  }

  lemma CatchUpKeepsStrikes(s: State, logs: seq<nat>, listed: Option<set<nat>>)
    requires StrikeInv(s) && Enabled(s, CatchUp(logs, listed)) && QueueInv(s)
    ensures StrikeInv(CaughtUpIn(s, logs, listed))
  {
    hide Strikes, StruckDays, CallsAllowed, NoDuplicates, Refilled, Backlogged, Found;
    BackloggedKeeps(s.queue.(catchingUp := false), Found(logs, s.scan.value, listed));
    var moved := RefillMoves(Backlogged(s.queue.(catchingUp := false), Found(logs, s.scan.value, listed)));
  }

  lemma StrikesKept(s: State, step: Step)
    requires QueueInv(s) && StrikeInv(s)
    ensures StrikeInv(Took(s, step))
  {
    hide QueueInv, CaughtUpIn, TakenIn, FinishedIn, BegunIn, Strikes, StruckDays, CallsAllowed;
    if Enabled(s, step) {
      match step
      case Finish(i, o) => FinishKeepsStrikes(s, i, o);
      case Begin(i, isolated) => BeginKeepsStrikes(s, i, isolated);
      case Take(i) => TakeKeepsStrikes(s, i);
      case CatchUp(logs, listed) => CatchUpKeepsStrikes(s, logs, listed);
      case Boot(highest) => LogPush(s.log, Restart);
      case _ =>
    }
  }

  lemma {:induction false} StrikesAlways(s: State, steps: seq<Step>)
    requires QueueInv(s) && StrikeInv(s)
    ensures StrikeInv(After(s, steps))
    decreases |steps|
  {
    hide QueueInv, StrikeInv, Took;
    if steps != [] {
      QueueKept(s, steps[0]);
      StrikesKept(s, steps[0]);
      StrikesAlways(Took(s, steps[0]), steps[1..]);
    }
  }

  lemma {:induction false} StruckUntilRestart(log: seq<Entry>, k: nat, m: nat, day: Day)
    requires StruckOut(log, k, day) && k < m <= |log|
    requires forall r :: k < r < m ==> log[r] != Restart
    ensures day in StruckDays(log[..m])
    decreases m
  {
    assert log[..m][..m - 1] == log[..m - 1];
    if m - 1 > k { StruckUntilRestart(log, k, m - 1, day); }
  }

  /** After every third failure with no success between, the backend is not
      called again that day, unless the pulse is restarted. */
  lemma ThreeStrikesStopTheDay(limit: nat, today: Day, steps: seq<Step>, k: nat, m: nat, day: Day)
    requires var log := After(Initial(limit, today), steps).log;
             k < m < |log| && StruckOut(log, k, day) && log[m].Call? && log[m].day == day
    ensures var log := After(Initial(limit, today), steps).log;
            exists r :: k < r < m && log[r] == Restart
  {
    var s := Initial(limit, today);
    StrikesAlways(s, steps);
    var log := After(s, steps).log;
    if forall r :: k < r < m ==> log[r] != Restart {
      StruckUntilRestart(log, k, m, day);
    }
  }

  /** What an attempt that was begun on `day` comes to: its tokens are charged to
      that day, whatever became of it; an extraction ends a streak of failures, a
      third failure pauses the day, and an attempt that found nothing or no
      backend counts as neither. */
  lemma AttemptCounts(s: State, i: nat, o: Outcome, d: Day)
    requires i < |s.workers| && s.workers[i].Extracting?
    ensures var t, day := Took(s, Finish(i, o)), s.workers[i].day;
            var tokens := match o
                          case Extracted(n) => n
                          case NothingPending => 0
                          case Unavailable(n) => n
                          case Failure(n) => n;
            && TokensOn(t.charges, d) == TokensOn(s.charges, d) + (if d == day then tokens else 0)
            && t.queue.failures == (if o.Extracted? then 0
                                    else if !o.Failure? then s.queue.failures
                                    else if s.queue.failures < 2 then s.queue.failures + 1 else 0)
            && t.queue.pausedOn == (if o.Failure? && s.queue.failures >= 2 then Some(day) else s.queue.pausedOn)
            && t.queue.pending == s.queue.pending && t.workers == s.workers[i := Idle]
  {
    hide TokensOn, BeforeLast, ChargedFor, ToLog;
    var day := s.workers[i].day;
    if TokensOf(o) > 0 { ChargePush(s.charges, Charge(day, TokensOf(o)), d); }
    assert s.charges + [] == s.charges;
  }

  lemma BudgetIsTokens(s: State, limit: nat)
    requires BudgetInv(s) && s.limit == limit <= U64_MAX
    ensures !Exhausted(s.ledger, s.limit, s.today) <==> limit == 0 || TokensOn(s.charges, s.today) < limit
  {
    SpentIsCharged(s, s.today);
  }

  /** In any reachable state an archive that a worker holds is extracted exactly
      when the pulse is not isolated, the day's tokens are below the cap if there
      is one, and today has not been struck out since the last restart. */
  lemma CallsExactlyWhen(limit: nat, today: Day, steps: seq<Step>, i: nat, isolated: bool)
    requires limit <= U64_MAX
    requires var s := After(Initial(limit, today), steps); i < |s.workers| && s.workers[i].Holding?
    ensures var s := After(Initial(limit, today), steps);
            Took(s, Begin(i, isolated)).log == s.log + [Call(s.today, s.workers[i].log)] <==>
            && !isolated && (limit == 0 || TokensOn(s.charges, s.today) < limit)
            && s.today !in StruckDays(s.log)
  {
    StrikesAlways(Initial(limit, today), steps);
    BudgetAlways(Initial(limit, today), steps);
    BudgetIsTokens(After(Initial(limit, today), steps), limit);
    var s := After(Initial(limit, today), steps);
    hide After, StruckDays, CallsAllowed, Strikes, Exhausted;
    assert s.log != s.log + [Call(s.today, s.workers[i].log)];
  }

  function StrikesIn(log: seq<Entry>): nat {
    if log == [] then 0 else StrikesIn(log[..|log| - 1]) + if log[|log| - 1].Strike? then 1 else 0
  }

  lemma {:induction false} StrikesSince(log: seq<Entry>, more: seq<Entry>)
    requires Strikes(log) % 3 == 0 && StrikesIn(more) <= 2 && Restart !in more
    ensures Strikes(log + more) % 3 <= StrikesIn(more) && StruckDays(log + more) == StruckDays(log)
    decreases |more|
  {
    hide Strikes, StruckDays;
    if more == [] {
      assert log + more == log;
    } else {
      var init, last := more[..|more| - 1], more[|more| - 1];
      assert more == init + [last];
      StrikesSince(log, init);
      LogPush(log + init, last);
      assert log + more == log + init + [last];
    }
  }

  lemma StepLogs(s: State, step: Step)
    requires !step.Boot?
    ensures s.log <= Took(s, step).log && Restart !in Took(s, step).log[|s.log|..]
  {
    hide Next, Refilled, CaughtUp, Enqueued, Added, Reported, ChargedFor;
  }

  lemma {:induction false} RunLogs(s: State, steps: seq<Step>)
    requires forall k :: 0 <= k < |steps| ==> !steps[k].Boot?
    ensures s.log <= After(s, steps).log && Restart !in After(s, steps).log[|s.log|..]
    decreases |steps|
  {
    hide Took;
    if steps != [] {
      var t := Took(s, steps[0]);
      StepLogs(s, steps[0]);
      RunLogs(t, steps[1..]);
      var end := After(t, steps[1..]);
      assert end.log[|s.log|..] == t.log[|s.log|..] + end.log[|t.log|..];
    }
  }

  /** The count starts again at each pause: in every run in which a day has just
      been struck out, however it goes on without a restart, up to two further
      failures strike out no other day. So on a day not struck out by then an
      archive that a worker holds is extracted, if the pulse is not isolated and
      the budget allows it, although up to five failures in a row came before. */
  lemma CountStartsAgain(limit: nat, today: Day, steps: seq<Step>, k: nat, day: Day, more: seq<Step>, i: nat)
    requires limit <= U64_MAX
    requires var s := After(Initial(limit, today), steps); |s.log| == k + 1 && StruckOut(s.log, k, day)
    requires forall j :: 0 <= j < |more| ==> !more[j].Boot?
    requires var s := After(Initial(limit, today), steps); var t := After(s, more);
             |s.log| <= |t.log| && StrikesIn(t.log[|s.log|..]) <= 2 && i < |t.workers| && t.workers[i].Holding?
    ensures var s := After(Initial(limit, today), steps); var t := After(s, more);
            && StruckDays(t.log) == StruckDays(s.log)
            && (Took(t, Begin(i, false)).log == t.log + [Call(t.today, t.workers[i].log)] <==>
                (limit == 0 || TokensOn(t.charges, t.today) < limit) && t.today !in StruckDays(s.log))
  {
    hide Took, StruckDays, Strikes, TokensOn;
    var s := After(Initial(limit, today), steps);
    var t := After(s, more);
    assert s.log[..k + 1] == s.log;
    RunLogs(s, more);
    StrikesSince(s.log, t.log[|s.log|..]);
    assert s.log + t.log[|s.log|..] == t.log;
    RunsOn(Initial(limit, today), steps, more);
    CallsExactlyWhen(limit, today, steps + more, i, false);
  }

  lemma {:induction false} RunsOn(s: State, a: seq<Step>, b: seq<Step>)
    ensures After(s, a + b) == After(After(s, a), b)
    decreases |a|
  {
    hide Took;
    if a == [] {
      assert a + b == b;
    } else {
      assert (a + b)[1..] == a[1..] + b;
      RunsOn(Took(s, a[0]), a[1..], b);
    }
  }

  // ---- Five failures in a row ----

  /** One worker is at hand, and `pending` is all there is to do. */
  ghost predicate AtHand(s: State, pending: seq<nat>) {
    && s.workers == [Idle] && s.queue.pending == pending && s.queue.backlog == [] && s.limit == 0
  }

  /** The next archive is taken and extracted, which fails. */
  function Failing(s: State): State {
    var t := Took(Took(s, Take(0)), Begin(0, false));
    Took(t, Finish(0, Failure(0)))
  }

  lemma OneTakes(s: State, n: nat, rest: seq<nat>)
    requires AtHand(s, [n] + rest) && s.queue.pausedOn != Some(s.today)
    ensures var t := Took(Took(s, Take(0)), Begin(0, false));
            && t.workers == [Extracting(n, s.today)] && t.queue == s.queue.(pending := rest) && t.limit == s.limit
            && t.log == s.log + [Call(s.today, n)] && t.today == s.today
  {
    assert Refilled(s.queue) == (s.queue, None);
    assert ([n] + rest)[1..] == rest && s.workers[0 := Holding(n)] == [Holding(n)];
    var t := Took(s, Take(0));
    assert t.workers[0 := Extracting(n, s.today)] == [Extracting(n, s.today)];
  }

  lemma OneFails(s: State, n: nat, rest: seq<nat>)
    requires AtHand(s, [n] + rest) && s.queue.pausedOn != Some(s.today)
    ensures var t := Failing(s);
            && AtHand(t, rest) && t.today == s.today && t.log == s.log + [Call(s.today, n)] + [Strike(s.today)]
            && t.queue.failures == (if s.queue.failures + 1 >= 3 then 0 else s.queue.failures + 1)
            && t.queue.pausedOn == if s.queue.failures + 1 >= 3 then Some(s.today) else s.queue.pausedOn
  {
    OneTakes(s, n, rest);
    hide BegunIn, TakenIn;
    var t := Took(Took(s, Take(0)), Begin(0, false));
    hide AtHand;
    FinishFails(t, n, rest);
  }

  lemma FinishFails(t: State, n: nat, rest: seq<nat>)
    requires t.workers == [Extracting(n, t.today)] && t.queue.pending == rest && t.queue.backlog == [] && t.limit == 0
    ensures var u := Took(t, Finish(0, Failure(0)));
            && AtHand(u, rest) && u.today == t.today && u.log == t.log + [Strike(t.today)]
            && u.queue == FailureRecorded(t.queue, t.today)
  {
    assert t.workers[0 := Idle] == [Idle];
  }

  /** From any state with six archives to do and no failure counted: three fail,
      the day is over, two more fail, and the sixth is extracted all the same. */
  lemma FiveFailuresInARow(s: State, a: nat, b: nat, c: nat, d: nat, e: nat, f: nat, tomorrow: Day)
    requires AtHand(s, [a, b, c, d, e, f]) && s.queue.failures == 0 && s.queue.pausedOn == None && s.today < tomorrow
    ensures var paused := Failing(Failing(Failing(s)));
            var t := Failing(Failing(Took(paused, Tomorrow(tomorrow))));
            var u := Took(Took(t, Take(0)), Begin(0, false));
            && paused.queue.pausedOn == Some(s.today)
            && u.log == s.log + [Call(s.today, a)] + [Strike(s.today)] + [Call(s.today, b)] + [Strike(s.today)]
                      + [Call(s.today, c)] + [Strike(s.today)] + [Call(tomorrow, d)] + [Strike(tomorrow)]
                      + [Call(tomorrow, e)] + [Strike(tomorrow)] + [Call(tomorrow, f)]
  {
    hide Failing, Apply;
    assert [a, b, c, d, e, f] == [a] + [b, c, d, e, f] && [b, c, d, e, f] == [b] + [c, d, e, f];
    assert [c, d, e, f] == [c] + [d, e, f] && [d, e, f] == [d] + [e, f] && [e, f] == [e] + [f] && [f] == [f] + [];
    OneFails(s, a, [b, c, d, e, f]);
    OneFails(Failing(s), b, [c, d, e, f]);
    OneFails(Failing(Failing(s)), c, [d, e, f]);
    var paused := Failing(Failing(Failing(s)));
    var next := Took(paused, Tomorrow(tomorrow));
    assert next == paused.(today := tomorrow) by { ADayPasses(paused, tomorrow); }
    OneFails(next, d, [e, f]);
    OneFails(Failing(next), e, [f]);
    OneTakes(Failing(Failing(next)), f, []);
  }

  function Enqueues(ns: seq<nat>): seq<Step> { seq(|ns|, k requires 0 <= k < |ns| => Enqueue(ns[k])) }

  /** Such a state is reached by enqueueing the archives. */
  lemma AllAtHand(today: Day, ns: seq<nat>)
    requires 0 < |ns| <= MAX_QUEUED && NoDuplicates(ns)
    ensures var s := After(Initial(0, today), Enqueues(ns) + [Spawn]);
            AtHand(s, ns) && s.queue.failures == 0 && s.queue.pausedOn == None && s.today == today
  {
    hide AtHand, OnlyEnqueued, Took;
    var s := Initial(0, today);
    assert OnlyEnqueued(s, []) by { NothingDone(today); }
    AllEnqueued(s, ns, |ns|);
    assert Enqueues(ns)[..|ns|] == Enqueues(ns) && ns[..|ns|] == ns;
    RunsOn(s, Enqueues(ns), [Spawn]);
    Spawned(After(s, Enqueues(ns)), ns);
  }

  lemma NothingDone(today: Day)
    ensures OnlyEnqueued(Initial(0, today), [])
  {
  }

  lemma {:induction false} AllEnqueued(s: State, ns: seq<nat>, n: nat)
    requires OnlyEnqueued(s, []) && NoDuplicates(ns) && n <= |ns| <= MAX_QUEUED
    ensures OnlyEnqueued(After(s, Enqueues(ns)[..n]), ns[..n]) && After(s, Enqueues(ns)[..n]).today == s.today
    decreases n
  {
    hide OnlyEnqueued, Took;
    if n == 0 {
      AfterNone(s);
      assert Enqueues(ns)[..0] == [] && ns[..0] == [];
    } else {
      AllEnqueued(s, ns, n - 1);
      assert Enqueues(ns)[..n] == Enqueues(ns)[..n - 1] + [Enqueue(ns[n - 1])] && ns[..n] == ns[..n - 1] + [ns[n - 1]];
      RunsOn(s, Enqueues(ns)[..n - 1], [Enqueue(ns[n - 1])]);
      OneEnqueued(After(s, Enqueues(ns)[..n - 1]), ns[..n - 1], ns[n - 1]);
    }
  }

  /** Nothing has been done but to enqueue `pending`. */
  ghost predicate OnlyEnqueued(s: State, pending: seq<nat>) {
    && s.queue == NEW_QUEUE.(pending := pending, running := pending != []) && s.workers == [] && s.limit == 0
    && s.toStart == if pending == [] then 0 else 1
  }

  lemma OneEnqueued(s: State, pending: seq<nat>, n: nat)
    requires OnlyEnqueued(s, pending) && n !in pending && |pending| < MAX_QUEUED
    ensures OnlyEnqueued(Took(s, Enqueue(n)), pending + [n]) && Took(s, Enqueue(n)).today == s.today
  {
  }

  lemma Spawned(s: State, pending: seq<nat>)
    requires OnlyEnqueued(s, pending) && pending != []
    ensures var t := Took(s, Spawn);
            AtHand(t, pending) && t.queue.failures == 0 && t.queue.pausedOn == None && t.today == s.today
  {
  }

  lemma ADayPasses(s: State, tomorrow: Day)
    requires s.today <= tomorrow
    ensures Took(s, Tomorrow(tomorrow)) == s.(today := tomorrow)
  {
  }

  /** The pause is not on disk: from any state, paused or not, a restart and one
      archive lead to another call on the same day, if the budget allows. */
  lemma RestartForgetsThePause(s: State, n: nat)
    requires !Exhausted(s.ledger, s.limit, s.today)
    ensures var t := After(s, [Boot(0), Enqueue(n), Spawn, Take(0), Begin(0, false)]);
            t.log == s.log + [Restart] + [Call(s.today, n)]
  {
    var booted := Took(s, Boot(0));
    var queued := Took(booted, Enqueue(n));
    var spawned := Took(queued, Spawn);
    QueuedAfterBoot(s, n);
    TakesTheOnly(spawned, n);
    var taken := Took(spawned, Take(0));
    FiveSteps(s, Boot(0), Enqueue(n), Spawn, Take(0), Begin(0, false));
    BeginsAfterBoot(s, taken, n);
  }

  lemma BeginsAfterBoot(s: State, taken: State, n: nat)
    requires taken.workers == [Holding(n)] && taken.queue.pausedOn == None && taken.limit == s.limit
    requires taken.ledger.day == s.ledger.day && taken.ledger.tokens == s.ledger.tokens && taken.today == s.today
    requires !Exhausted(s.ledger, s.limit, s.today)
    ensures Took(taken, Begin(0, false)).log == taken.log + [Call(s.today, n)]
  {
  }

  lemma QueuedAfterBoot(s: State, n: nat)
    ensures var t := Took(Took(Took(s, Boot(0)), Enqueue(n)), Spawn);
            && t.queue == NEW_QUEUE.(pending := [n], running := true) && t.workers == [Idle] && t.limit == s.limit
            && t.ledger.day == s.ledger.day && t.ledger.tokens == s.ledger.tokens && t.today == s.today
            && t.log == s.log + [Restart]
  {
    assert Took(s, Boot(0)).queue == NEW_QUEUE;
    assert [] + [n] == [n];
  }

  lemma TakesTheOnly(s: State, n: nat)
    requires s.queue == NEW_QUEUE.(pending := [n], running := true) && s.workers == [Idle]
    ensures var t := Took(s, Take(0));
            && t.workers == [Holding(n)] && t.queue.pausedOn == None && t.limit == s.limit
            && t.ledger == s.ledger && t.today == s.today && t.log == s.log
  {
    assert Refilled(s.queue) == (s.queue, None);
    assert s.workers[0 := Holding(n)] == [Holding(n)];
  }

  lemma FiveSteps(s: State, a: Step, b: Step, c: Step, d: Step, e: Step)
    ensures After(s, [a, b, c, d, e]) == Took(Took(Took(Took(Took(s, a), b), c), d), e)
  {
    hide Took, After;
    var one, two, three, four := Took(s, a), Took(Took(s, a), b), Took(Took(Took(s, a), b), c),
        Took(Took(Took(Took(s, a), b), c), d);
    AfterFirst(s, a, [b, c, d, e]);
    AfterFirst(one, b, [c, d, e]);
    AfterFirst(two, c, [d, e]);
    AfterFirst(three, d, [e]);
    AfterFirst(four, e, []);
    AfterNone(Took(four, e));
    assert [a] + [b, c, d, e] == [a, b, c, d, e] && [b] + [c, d, e] == [b, c, d, e] && [c] + [d, e] == [c, d, e];
    assert [d] + [e] == [d, e] && [e] + [] == [e];
  }

  lemma AfterNone(s: State)
    ensures After(s, []) == s
  {
  }
}
