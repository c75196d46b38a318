/** A watcher of a dialogue: the snapshot it joins with, and then the live
    events, some of which it may be too slow for (`src/comms.rs`, the stream of
    `src/server/handlers/comms.rs`). */
module DialogueWatches {
  import opened Text
  import opened Dialogues
  import opened DialogueRuns

  /** `shown`: the turns passed on. `closed`: the stream has ended, with the
      broadcast's own ending if `heardEnd`, else with a snapshot that was over. */
  datatype Watcher = Watcher(cursor: nat, last: nat, shown: seq<Turn>, closed: bool, heardEnd: bool)

  /** The turns numbered above `n`. */
  function Newer(turns: seq<Turn>, n: nat): seq<Turn> {
    if turns == [] then [] else (if turns[0].n > n then [turns[0]] else []) + Newer(turns[1..], n)
  }

  function LastN(turns: seq<Turn>, n: nat): nat { if turns == [] then n else turns[|turns| - 1].n }

  function Joined(s: State): Watcher {
    Watcher(|s.sent|, LastN(s.inner.turns, 0), s.inner.turns, s.inner.phase.IsOver(), false)
  }

  /** The watcher fell behind: a new snapshot, of which it shows what it missed. */
  function Rejoined(w: Watcher, s: State): Watcher {
    var missed := Newer(s.inner.turns, w.last);
    Watcher(|s.sent|, LastN(missed, w.last), w.shown + missed, s.inner.phase.IsOver(), false)
  }

  function Received(w: Watcher, e: Event): Watcher {
    var on := w.(cursor := w.cursor + 1);
    match e
    case TurnEvent(turn) => if turn.n <= w.last then on else on.(last := turn.n, shown := w.shown + [turn])
    case StatusEvent(_) => on
    case _ => on.(closed := true, heardEnd := true)
  }

  datatype WatchStep = Main(step: Step) | Receive | Lag

  function Watched(s: State, w: Watcher, step: WatchStep): (State, Watcher) {
    match step
    case Main(m) => (Took(s, m), w)
    case Receive => (s, if !w.closed && w.cursor < |s.sent| then Received(w, s.sent[w.cursor]) else w)
    case Lag => (s, if w.closed then w else Rejoined(w, s))
  }

  function WatchedAll(s: State, w: Watcher, steps: seq<WatchStep>): (State, Watcher)
    decreases |steps|
  {
    if steps == [] then (s, w) else var (t, v) := Watched(s, w, steps[0]); WatchedAll(t, v, steps[1..])
  }

  // ---- What a watcher keeps ----

  lemma {:induction false} HeardGrows(a: seq<Event>, b: seq<Event>)
    ensures Heard(a) <= Heard(a + b)
    decreases |b|
  {
    hide Heard;
    if b == [] {
      assert a + b == a;
    } else {
      HeardGrows(a, b[..|b| - 1]);
      HeardPush(a + b[..|b| - 1], b[|b| - 1]);
      LastApart(a, b);
    }
  }

  lemma LastApart(a: seq<Event>, b: seq<Event>)
    requires b != []
    ensures a + b[..|b| - 1] + [b[|b| - 1]] == a + b
  {
  }

  /** The event at `k`, when it is no status, is the next of the account. */
  lemma HeardAt(sent: seq<Event>, k: nat)
    requires k < |sent|
    ensures Heard(sent[..k]) <= Heard(sent)
    ensures Heard(sent[..k + 1]) == Heard(sent[..k]) + if sent[k].StatusEvent? then [] else [sent[k]]
    ensures !sent[k].StatusEvent? ==> |Heard(sent[..k])| < |Heard(sent)| && Heard(sent)[|Heard(sent[..k])|] == sent[k]
  {
    hide Heard;
    HeardPush(sent[..k], sent[k]);
    assert sent[..k] + [sent[k]] == sent[..k + 1];
    HeardGrows(sent[..k], sent[k..]);
    HeardGrows(sent[..k + 1], sent[k + 1..]);
    assert sent[..k] + sent[k..] == sent && sent[..k + 1] + sent[k + 1..] == sent;
  }

  lemma {:induction false} NewerIsRest(turns: seq<Turn>, from: nat, n: nat)
    requires forall k :: 0 <= k < |turns| ==> turns[k].n == from + k + 1
    ensures Newer(turns, n) == if n <= from then turns else if n - from <= |turns| then turns[n - from..] else []
  {
    if turns != [] {
      NewerIsRest(turns[1..], from + 1, n);
      assert turns == [turns[0]] + turns[1..];
      if n > from && n - from <= |turns| { assert turns[1..][n - from - 1..] == turns[n - from..]; }
    }
  }

  /** What has been shown is a prefix of the transcript, and goes past whatever
      was broadcast before the cursor. */
  ghost predicate WatchInv(s: State, w: Watcher) {
    && w.cursor <= |s.sent| && w.last <= |s.inner.turns| && w.shown == s.inner.turns[..w.last]
    && (w.heardEnd ==> w.closed && s.task.Gone? && w.last == |s.inner.turns|)
    && (!w.closed ==> |Heard(s.sent[..w.cursor])| <= w.last)
  }

  lemma JoinedFits(s: State)
    requires TranscriptInv(s) && BroadcastInv(s)
    ensures WatchInv(s, Joined(s))
  {
    hide Heard, TurnEvents;
    assert s.sent[..|s.sent|] == s.sent;
    if s.inner.turns != [] { LastNumber(s.inner.turns); }
    assert s.inner.turns[..|s.inner.turns|] == s.inner.turns;
    if !s.inner.phase.IsOver() { AccountLength(s); }
  }

  lemma LastNumber(turns: seq<Turn>)
    requires WellNumbered(turns) && turns != []
    ensures turns[|turns| - 1].n == |turns|
  {
  }

  lemma AccountLength(s: State)
    requires TranscriptInv(s) && BroadcastInv(s) && !s.inner.phase.IsOver()
    ensures |Heard(s.sent)| <= |s.inner.turns|
  {
    hide Heard, WellNumbered;
  }

  lemma RejoinedFits(s: State, w: Watcher)
    requires TranscriptInv(s) && BroadcastInv(s) && WatchInv(s, w) && !w.closed
    ensures WatchInv(s, Rejoined(w, s)) && Rejoined(w, s).last == |s.inner.turns|
  {
    hide Heard, WellNumbered, PlaceFits, Newer, LastN, Account, EndingInv;
    NewerTurns(s.inner.turns, w.last);
    assert s.inner.turns[..|s.inner.turns|] == s.inner.turns && s.sent[..|s.sent|] == s.sent;
    if !s.inner.phase.IsOver() { AccountLength(s); }
  }

  lemma NewerTurns(turns: seq<Turn>, n: nat)
    requires WellNumbered(turns) && n <= |turns|
    ensures turns[..n] + Newer(turns, n) == turns && LastN(Newer(turns, n), n) == |turns|
  {
    NewerIsRest(turns, 0, n);
    if n > 0 { assert Newer(turns, n) == turns[n..]; }
  }

  lemma ReceivedFits(s: State, w: Watcher)
    requires TranscriptInv(s) && BroadcastInv(s) && WatchInv(s, w) && !w.closed && w.cursor < |s.sent|
    ensures WatchInv(s, Received(w, s.sent[w.cursor]))
  {
    hide Heard, PlaceFits;
    HeardAt(s.sent, w.cursor);
    var h, turns := |Heard(s.sent[..w.cursor])|, s.inner.turns;
    var e := s.sent[w.cursor];
    if !e.StatusEvent? {
      assert e == Account(s)[h];
      if h < |ToldTurns(s)| {
        assert e == TurnEvent(turns[h]) && turns[h].n == h + 1;
        if w.last == h { assert turns[..h + 1] == turns[..h] + [turns[h]]; }
      } else {
        assert s.task.Gone? && e == Ending(StatusOf(s.inner));
      }
    }
  }

  lemma MainGrows(s: State, step: Step)
    ensures s.sent <= Took(s, step).sent && s.inner.turns <= Took(s, step).inner.turns
  {
    hide RequestStep;
    if Enabled(s, step) && !ByTask(step) {
      hide Enabled;
      RequestLeavesTask(s, step);
    }
  }

  lemma GoneStays(s: State, step: Step)
    requires s.task.Gone?
    ensures Took(s, step).task.Gone? && Took(s, step).inner.turns == s.inner.turns
  {
    hide RequestStep;
    if Enabled(s, step) && !ByTask(step) {
      hide Enabled;
      RequestLeavesTask(s, step);
    }
  }

  lemma MainFits(s: State, w: Watcher, step: Step)
    requires WatchInv(s, w)
    ensures WatchInv(Took(s, step), w)
  {
    hide Took, Heard;
    MainGrows(s, step);
    if s.task.Gone? { GoneStays(s, step); }
    assert Took(s, step).sent[..w.cursor] == s.sent[..w.cursor];
    assert Took(s, step).inner.turns[..w.last] == s.inner.turns[..w.last];
  }

  lemma {:induction false} WatchAlways(s: State, w: Watcher, steps: seq<WatchStep>)
    requires TranscriptInv(s) && BroadcastInv(s) && WatchInv(s, w)
    ensures var (t, v) := WatchedAll(s, w, steps);
            TranscriptInv(t) && BroadcastInv(t) && WatchInv(t, v)
    decreases |steps|
  {
    hide TranscriptInv, BroadcastInv, WatchInv, Took, Received, Rejoined;
    if steps != [] {
      var (t, v) := Watched(s, w, steps[0]);
      match steps[0] {
        case Main(m) =>
          BroadcastStep(s, m);
          MainFits(s, w, m);
        case Receive => if !w.closed && w.cursor < |s.sent| { ReceivedFits(s, w); }
        case Lag => if !w.closed { RejoinedFits(s, w); }
      }
      WatchAlways(t, v, steps[1..]);
    }
  }

  lemma BroadcastStep(s: State, step: Step)
    requires TranscriptInv(s) && BroadcastInv(s)
    ensures TranscriptInv(Took(s, step)) && BroadcastInv(Took(s, step))
  {
    hide TranscriptInv, BroadcastInv, Took;
    BroadcastAlways(s, [step]);
    assert After(s, [step]) == Took(s, step) by { AfterPush(s, [], step); assert [] + [step] == [step]; }
  }

  /** A watcher that joins any reachable state - a turn pushed and not yet
      broadcast included - and then receives and lags in any way shows the
      turns in order, each once; all of them whenever it has caught up, and all
      of them when it hears the ending. */
  lemma WatcherShowsEachTurnOnce(requested: nat, before: seq<Step>, steps: seq<WatchStep>)
    ensures var joined := After(Initial(requested), before);
            var (s, w) := WatchedAll(joined, Joined(joined), steps);
            && w.shown <= s.inner.turns
            && (!w.closed && w.cursor == |s.sent| && !s.task.Telling? ==> w.shown == s.inner.turns)
            && (w.heardEnd ==> w.shown == s.inner.turns && s.task.Gone?)
  {
    InitialIsFine(requested);
    BroadcastAlways(Initial(requested), before);
    var joined := After(Initial(requested), before);
    JoinedFits(joined);
    WatchAlways(joined, Joined(joined), steps);
    var (s, w) := WatchedAll(joined, Joined(joined), steps);
    CaughtUp(s, w);
  }

  lemma CaughtUp(s: State, w: Watcher)
    requires BroadcastInv(s) && WatchInv(s, w)
    ensures !w.closed && w.cursor == |s.sent| && !s.task.Telling? ==> w.shown == s.inner.turns
    ensures w.heardEnd ==> w.shown == s.inner.turns && s.task.Gone?
  {
    hide Heard;
    assert s.sent[..|s.sent|] == s.sent && s.inner.turns[..|s.inner.turns|] == s.inner.turns;
  }

  // ---- A snapshot that is over ----

  /** How far the task is from its next turn. */
  function Rank(s: State): nat {
    match s.task
    case Telling(_) => 20
    case Waiting(_) => if s.parked then 19 else if s.mayGoOn then 17 else 18
    case Unpolled => if s.parked then 16 else 15
    case Checking(_) => 14
    case Announcing(_) => 13
    case Reading(_) => 12
    case Sending(_, _) => 11
    case Asking(_) => if s.parked then 10 else 9
    case _ => 8
  }

  /** Steps that bring a task that is not ending nearer to its next turn. */
  function Nearer(s: State): seq<Step> {
    if s.parked then [Resume]
    else
      match s.task
      case Telling(_) => [Tell]
      case Waiting(_) => if s.mayGoOn then [Pass] else [Call(false), Flag(|s.pauses|)]
      case Unpolled => [Poll]
      case Checking(_) => [Check(false)]
      case Announcing(_) => [Announce]
      case Reading(_) => [ReadStatus]
      case Sending(_, _) => [SendStatus]
      case Asking(_) => [Answer(Some("hello"), "")]
      case _ => []
  }

  /** The task is parked with an abort requested: it is not polled again. */
  predicate Doomed(s: State) { s.parked && s.aborted }

  lemma StepsNearer(s: State)
    requires TranscriptInv(s) && !Winding(s.task) && !Doomed(s) && |s.inner.turns| < s.max && !s.task.Pushing?
    ensures var t := After(s, Nearer(s));
            && TranscriptInv(t) && !Winding(t.task) && !Doomed(t)
            && t.inner.turns == s.inner.turns && t.max == s.max && Rank(t) < Rank(s)
  {
    hide TranscriptInv, After, Rank;
    TranscriptAlways(s, Nearer(s));
    AfterNothing(s);
    if s.task.Waiting? && !s.parked && !s.mayGoOn {
      AfterPush(s, [], Call(false));
      AfterPush(s, [] + [Call(false)], Flag(|s.pauses|));
      assert [] + [Call(false)] + [Flag(|s.pauses|)] == Nearer(s);
      ResumeRanks(s);
    } else {
      NearerIsStep(s);
      AfterPush(s, [], Nearer(s)[0]);
      StepRanks(s);
    }
  }

  lemma NearerIsStep(s: State)
    requires TranscriptInv(s) && !Winding(s.task) && !s.task.Pushing? && !(s.task.Waiting? && !s.parked && !s.mayGoOn)
    ensures Nearer(s) != [] && [] + [Nearer(s)[0]] == Nearer(s)
  {
    hide WellNumbered;
  }

  lemma ResumeRanks(s: State)
    requires s.task.Waiting? && !s.parked && !s.mayGoOn
    ensures var t := Took(Took(s, Call(false)), Flag(|s.pauses|));
            t.task == s.task && !t.parked && t.inner == s.inner && t.max == s.max && Rank(t) < Rank(s)
  {
    assert Took(s, Call(false)).pauses[|s.pauses|] == Flagging(false);
  }

  lemma StepRanks(s: State)
    requires TranscriptInv(s) && !Winding(s.task) && !Doomed(s) && |s.inner.turns| < s.max && !s.task.Pushing?
    requires !(s.task.Waiting? && !s.parked && !s.mayGoOn) && Nearer(s) != []
    ensures var t := Took(s, Nearer(s)[0]);
            !Winding(t.task) && !t.parked && t.inner.turns == s.inner.turns && t.max == s.max && Rank(t) < Rank(s)
  {
    if s.parked || s.task.Reading? || s.task.Sending? || s.task.Telling? {
      hide RequestStep, GuardStep, WellNumbered, PlaceFits, Announced, Pushed;
      if s.task.Reading? || s.task.Sending? { NextAsks(s); }
      if s.task.Telling? { ToldIsNotLast(s); }
    } else {
      hide TranscriptInv;
      TurnRanks(s);
    }
  }

  lemma TurnRanks(s: State)
    requires !Winding(s.task) && !s.parked && !s.task.Pushing? && !s.task.Reading? && !s.task.Sending?
    requires !s.task.Telling? && !(s.task.Waiting? && !s.mayGoOn) && Nearer(s) != []
    ensures var t := Took(s, Nearer(s)[0]);
            !Winding(t.task) && !t.parked && t.inner.turns == s.inner.turns && t.max == s.max && Rank(t) < Rank(s)
  {
    hide RequestStep, GuardStep, Pushed, NextPlace;
  }

  lemma NextAsks(s: State)
    requires TranscriptInv(s) && !Winding(s.task) && (s.task.Reading? || s.task.Sending?)
    ensures s.task.next.Asking?
  {
  }

  lemma ToldIsNotLast(s: State)
    requires TranscriptInv(s) && s.task.Telling? && |s.inner.turns| < s.max
    ensures s.task.turn.n < s.max
  {
  }

  lemma {:induction false} CanStillSpeak(s: State) returns (steps: seq<Step>)
    requires TranscriptInv(s) && !Winding(s.task) && !Doomed(s) && |s.inner.turns| < s.max
    ensures After(s, steps).inner.turns != s.inner.turns
    decreases Rank(s)
  {
    hide TranscriptInv;
    if s.task.Pushing? {
      steps := [] + [Push];
      AfterPush(s, [], Push);
      assert |After(s, steps).inner.turns| == |s.inner.turns| + 1;
    } else {
      hide After, Nearer, Winding, Rank;
      StepsNearer(s);
      var more := CanStillSpeak(After(s, Nearer(s)));
      steps := Nearer(s) + more;
      AfterConcat(s, Nearer(s), more);
    }
  }

  /** The task will push no further turn. */
  predicate Silent(s: State) { Winding(s.task) || |s.inner.turns| == s.max || Doomed(s) }

  lemma {:induction false} SpeaksNoMore(s: State, steps: seq<Step>)
    requires TranscriptInv(s) && Silent(s)
    ensures After(s, steps).inner.turns == s.inner.turns
    decreases |steps|
  {
    hide TranscriptInv, Silent, Took;
    if steps != [] {
      TranscriptKept(s, steps[0]);
      StaysSilent(s, steps[0]);
      SpeaksNoMore(Took(s, steps[0]), steps[1..]);
    }
  }

  lemma StaysSilent(s: State, step: Step)
    requires TranscriptInv(s) && Silent(s)
    ensures Took(s, step).inner.turns == s.inner.turns && Silent(Took(s, step))
  {
    hide TranscriptInv, TaskStep, RequestStep;
    if Enabled(s, step) {
      hide Enabled;
      if ByTask(step) {
        hide Silent;
        TaskStaysSilent(s, step);
      } else {
        RequestLeavesTask(s, step);
      }
    }
  }

  lemma TaskStaysSilent(s: State, step: Step)
    requires TranscriptInv(s) && Silent(s) && Enabled(s, step) && ByTask(step)
    ensures TaskStep(s, step).inner.turns == s.inner.turns && Silent(TaskStep(s, step))
  {
    hide TaskStep, Enabled, TranscriptInv;
    if Winding(s.task) {
      WindingStays(s, step);
    } else {
      hide Winding;
      if Doomed(s) { DoomedIsDropped(s, step); } else { FullIsSilent(s, step); }
    }
  }

  lemma OnlyPushAddsATurn(s: State, step: Step)
    requires Enabled(s, step) && ByTask(step) && !step.Push?
    ensures TaskStep(s, step).inner.turns == s.inner.turns && TaskStep(s, step).max == s.max
  {
    hide Enabled, ByTask, SpeakStep;
    if !ByGuard(step) {
      hide GuardStep;
      SpeechAddsNoTurn(s, step);
    }
  }

  lemma SpeechAddsNoTurn(s: State, step: Step)
    requires Enabled(s, step) && ByTask(step) && !ByGuard(step) && !step.Push?
    ensures SpeakStep(s, step).inner.turns == s.inner.turns && SpeakStep(s, step).max == s.max
  {
    hide Enabled, ByTask, NextPlace;
  }

  lemma WindingStays(s: State, step: Step)
    requires Winding(s.task) && Enabled(s, step) && ByTask(step)
    ensures TaskStep(s, step).inner.turns == s.inner.turns && Winding(TaskStep(s, step).task)
  {
    hide Cancelling, Archived, Ending, Pushed, NextPlace, PhaseSet;
    assert !step.Push?;
    OnlyPushAddsATurn(s, step);
  }

  lemma DoomedIsDropped(s: State, step: Step)
    requires TranscriptInv(s) && Doomed(s) && Enabled(s, step) && ByTask(step)
    ensures TaskStep(s, step).inner.turns == s.inner.turns && Winding(TaskStep(s, step).task)
  {
    hide WellNumbered, PlaceFits;
  }

  lemma FullIsSilent(s: State, step: Step)
    requires TranscriptInv(s) && |s.inner.turns| == s.max && Enabled(s, step) && ByTask(step)
    ensures TaskStep(s, step).inner.turns == s.inner.turns && TaskStep(s, step).max == s.max
  {
    hide WellNumbered, TaskStep;
    assert !step.Push?;
    OnlyPushAddsATurn(s, step);
  }

  /** The transcript is final exactly when the task is already ending, the cap is
      reached, or the task is parked with its abort requested. */
  lemma TranscriptIsFinalIff(s: State)
    requires TranscriptInv(s)
    ensures (forall later :: After(s, later).inner.turns == s.inner.turns) <==>
            Winding(s.task) || |s.inner.turns| == s.max || (s.parked && s.aborted)
  {
    hide TranscriptInv, Winding;
    if Silent(s) {
      forall later ensures After(s, later).inner.turns == s.inner.turns { SpeaksNoMore(s, later); }
    } else {
      assert |s.inner.turns| <= s.max by { WithinCap(s); }
      var later := CanStillSpeak(s);
      assert After(s, later).inner.turns != s.inner.turns;
    }
  }

  /** A stop ends a dialogue before its task is gone, and a watcher that joins
      then is shown the snapshot and an ending. That snapshot is the final
      transcript exactly when the task is already ending, the cap is reached, or
      the task is parked with its abort requested: a task that is being polled
      when it is stopped may still push a turn. */
  lemma OverSnapshotIsFinalIff(requested: nat, steps: seq<Step>)
    requires After(Initial(requested), steps).inner.phase.IsOver()
    ensures var s := After(Initial(requested), steps);
            && Joined(s).closed
            && ((forall later :: After(s, later).inner.turns == Joined(s).shown) <==>
                (Winding(s.task) || |s.inner.turns| == s.max || (s.parked && s.aborted)))
  {
    hide TranscriptInv, Winding;
    InitialIsFine(requested);
    TranscriptAlways(Initial(requested), steps);
    TranscriptIsFinalIff(After(Initial(requested), steps));
  }

  /** The same of a watcher that has joined any reachable state, has received and
      lagged in any way, and falls behind when the dialogue is over: it is shown
      what it missed and an ending. */
  lemma OverResyncIsFinalIff(requested: nat, before: seq<Step>, steps: seq<WatchStep>)
    requires var joined := After(Initial(requested), before);
             var (s, w) := WatchedAll(joined, Joined(joined), steps);
             !w.closed && s.inner.phase.IsOver()
    ensures var joined := After(Initial(requested), before);
            var (s, w) := WatchedAll(joined, Joined(joined), steps);
            var v := Watched(s, w, Lag).1;
            && v.closed && v.shown == s.inner.turns
            && ((forall later :: After(s, later).inner.turns == v.shown) <==>
                (Winding(s.task) || |s.inner.turns| == s.max || (s.parked && s.aborted)))
  {
    hide TranscriptInv, BroadcastInv, Winding, Newer;
    InitialIsFine(requested);
    BroadcastAlways(Initial(requested), before);
    var joined := After(Initial(requested), before);
    JoinedFits(joined);
    WatchAlways(joined, Joined(joined), steps);
    var (s, w) := WatchedAll(joined, Joined(joined), steps);
    RejoinedFits(s, w);
    assert s.inner.turns[..|s.inner.turns|] == s.inner.turns;
    TranscriptIsFinalIff(s);
  }

  /** The task has resumed with an answer and is about to push it when the
      dialogue is stopped and its abort requested. */
  lemma StoppedWithAnAnswer() returns (steps: seq<Step>)
    ensures var s := After(Initial(1), steps);
            && s.inner == Inner([], Cancelled, None, false, false)
            && s.task == Pushing(Local, "hello") && s.aborted && !s.parked
  {
    hide After;
    steps := AnswerAwaited();
    var s := After(Initial(1), steps);
    hide GuardStep;
    steps, s := Further(1, steps, s, Park);
    steps, s := Further(1, steps, s, Resume);
    steps, s := Further(1, steps, s, Answer(Some("hello"), ""));
    steps, s := Further(1, steps, s, Stop);
    steps, s := Further(1, steps, s, RequestAbort);
  }

  lemma AboutToAnnounce() returns (steps: seq<Step>)
    ensures After(Initial(1), steps) == Initial(1).(task := Announcing(Local), parked := false)
  {
    AfterNothing(Initial(1));
    hide After, Took;
    steps := [];
    var s := Initial(1);
    FirstPoll(s);
    steps, s := Further(1, steps, s, Resume);
    steps, s := Further(1, steps, s, Poll);
    steps, s := Further(1, steps, s, Check(false));
  }

  lemma FirstPoll(s: State)
    requires s.task.Unpolled? && s.parked && !s.aborted
    ensures Took(Took(Took(s, Resume), Poll), Check(false)) == s.(task := Announcing(Local), parked := false)
  {
    hide GuardStep, RequestStep, PhaseSet, NextPlace, Pushed;
  }

  lemma AnswerAwaited() returns (steps: seq<Step>)
    ensures After(Initial(1), steps) == Initial(1).(
              task := Asking(Local), parked := false, sent := [StatusEvent(StatusOf(NEW_INNER))])
  {
    hide After, GuardStep, RequestStep;
    steps := AboutToAnnounce();
    var s := After(Initial(1), steps);
    steps, s := Further(1, steps, s, Announce);
    steps, s := Further(1, steps, s, ReadStatus);
    steps, s := Further(1, steps, s, SendStatus);
  }

  /** A run in which a turn follows a stop: the task was about to push an answer
      it had waited for. A watcher that joins in between is shown an ending. */
  lemma ATurnCanFollowAStop() returns (steps: seq<Step>)
    ensures var s := After(Initial(1), steps);
            && s.aborted && Joined(s).closed && Joined(s).shown == []
            && After(s, [Push]).inner.turns == [Turn(Local, "hello", 1)]
  {
    steps := StoppedWithAnAnswer();
    var s := After(Initial(1), steps);
    hide After;
    AfterNothing(s);
    AfterPush(s, [], Push);
    assert [] + [Push] == [Push] && [] + [Turn(Local, "hello", 1)] == [Turn(Local, "hello", 1)];
  }

  lemma WithinCap(s: State)
    requires TranscriptInv(s)
    ensures |s.inner.turns| <= s.max
  {
  }
}
