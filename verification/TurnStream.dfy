/** What a streaming client is shown of a whole turn, in the order it is shown
    (`invoke_with_tool_loop_streaming` in `src/tool_loop.rs`). */
module TurnStreams {
  import opened Text
  import opened TurnEvents
  import opened Messages
  import opened SpeechGates
  import opened ProgressSinks
  import opened ToolLoops
  import opened TurnProperties

  // ---- The stream of one reply, up to its end ----

  predicate IsEnd(e: StreamEvent) { e.Done? || e.Broken? }

  /** The events before the response or the failure. */
  function Live(events: seq<Timed>): seq<StreamEvent> {
    if events == [] || IsEnd(events[0].event) then [] else [events[0].event] + Live(events[1..])
  }

  predicate HasText(live: seq<StreamEvent>) { exists k :: 0 <= k < |live| && live[k].TextDelta? }

  predicate HasBoundary(live: seq<StreamEvent>) { exists k :: 0 <= k < |live| && live[k].SegmentEnd? }

  /** The tools announced, in order. */
  function Announced(live: seq<StreamEvent>): seq<string> {
    if live == [] then []
    else Announced(live[..|live| - 1]) + if live[|live| - 1].ToolUseEvent? then [live[|live| - 1].name] else []
  }

  lemma {:induction false} LivePush(events: seq<Timed>, e: Timed)
    ensures Outcome(events + [e]).Some? <==> Outcome(events).Some? || IsEnd(e.event)
    ensures Live(events + [e]) ==
            if Outcome(events).Some? || IsEnd(e.event) then Live(events) else Live(events) + [e.event]
    decreases |events|
  {
    assert (events + [e])[..|events|] == events;
    if events == [] {
      assert [e][1..] == [];
    } else {
      var first, rest := events[0], events[1..];
      LivePush(rest, e);
      assert (events + [e])[1..] == rest + [e] && [first] + rest == events;
      FirstEnds(first, rest);
    }
  }

  lemma {:induction false} FirstEnds(first: Timed, rest: seq<Timed>)
    ensures Outcome([first] + rest).Some? <==> IsEnd(first.event) || Outcome(rest).Some?
    decreases |rest|
  {
    var all := [first] + rest;
    if rest == [] {
      assert all[..0] == [];
    } else {
      assert all[..|all| - 1] == [first] + rest[..|rest| - 1];
      FirstEnds(first, rest[..|rest| - 1]);
    }
  }

  // ---- What a text client is shown ----

  /** Boundaries among `out` that the channel accepted. */
  function Accepted(takes: seq<TurnEvent> -> bool, out: seq<TurnEvent>): nat {
    if out == [] then 0
    else Accepted(takes, out[..|out| - 1]) + if out[|out| - 1].Segment? && takes(out) then 1 else 0
  }

  /** A boundary is numbered by the boundaries accepted before it. */
  function Bounded(takes: seq<TurnEvent> -> bool, out: seq<TurnEvent>, tool: bool): seq<TurnEvent> {
    out + [Segment(Accepted(takes, out), tool)]
  }

  /** `out` and then the stream of a reply: "responding" before the first text,
      every text, and every boundary of the provider. */
  function Spoke(takes: seq<TurnEvent> -> bool, out: seq<TurnEvent>, live: seq<StreamEvent>): seq<TurnEvent> {
    if live == [] then out + [Status(Thinking)]
    else
      var init, before := live[..|live| - 1], Spoke(takes, out, live[..|live| - 1]);
      match live[|live| - 1]
      case TextDelta(text) => before + (if HasText(init) then [] else [Status(Responding)]) + [Delta(text)]
      case SegmentEnd(tool) => Bounded(takes, before, tool)
      case _ => before
  }

  /** The provider has marked boundaries in a reply from index `from` on. */
  predicate Marks(env: Env, history: seq<Message>, from: nat) {
    exists i :: from <= i < |history| && history[i].role == Assistant && HasBoundary(Live(env.stream(history[..i])))
  }

  /** Everything shown by the time `history` stands: each reply as it was
      streamed and, when it was answered, a boundary unless the provider marks
      its own, and the tools announced. */
  function Shown(env: Env, takes: seq<TurnEvent> -> bool, history: seq<Message>, from: nat): seq<TurnEvent>
    decreases |history|
  {
    if |history| <= from then []
    else
      var before, n := Shown(env, takes, history[..|history| - 1], from), |history| - 1;
      if history[n].role == Assistant then Spoke(takes, before, Live(env.stream(history[..n])))
      else if n == 0 then before
      else
        (if Marks(env, history, from) then before else Bounded(takes, before, true))
        + Statuses(Announced(Live(env.stream(history[..n - 1]))))
  }

  /** Everything shown of a finished turn: a last boundary closes a reply that
      came after tools, and of a failed turn also the part of the stream before
      the failure. */
  function ShownInAll(env: Env, takes: seq<TurnEvent> -> bool, turn: Turn, from: nat): seq<TurnEvent> {
    var shown := Shown(env, takes, turn.history, from);
    match turn.result
    case Err(_) => Spoke(takes, shown, Live(env.stream(turn.history)))
    case Ok(result) =>
      if result.toolRounds > 0 && !result.wasTruncated && !Marks(env, turn.history, from) then
        Bounded(takes, shown, false)
      else shown
  }

  // ---- A sink that does not hold ----

  /** Such a sink has passed on `out`, with the boundaries counted. */
  ghost predicate Passed(sp: Speaker, takes: seq<TurnEvent> -> bool, out: seq<TurnEvent>, marks: bool) {
    sp.sink == Sink(None, out, takes) && sp.next == Accepted(takes, out) && sp.fromProvider == marks
  }

  lemma AcceptedPush(takes: seq<TurnEvent> -> bool, out: seq<TurnEvent>, event: TurnEvent)
    ensures Accepted(takes, out + [event]) ==
            Accepted(takes, out) + if event.Segment? && takes(out + [event]) then 1 else 0
  {
    assert (out + [event])[..|out|] == out;
  }

  lemma {:induction false} AcceptedStatuses(takes: seq<TurnEvent> -> bool, out: seq<TurnEvent>, names: seq<string>)
    ensures Accepted(takes, out + Statuses(names)) == Accepted(takes, out)
    decreases |names|
  {
    if names == [] {
      assert out + Statuses(names) == out;
    } else {
      hide Accepted;
      var init := names[..|names| - 1];
      AcceptedStatuses(takes, out, init);
      AcceptedPush(takes, out + Statuses(init), Status(Tool(names[|names| - 1])));
      StatusesPush(out, names);
    }
  }

  lemma StatusesPush(out: seq<TurnEvent>, names: seq<string>)
    requires names != []
    ensures out + Statuses(names) == out + Statuses(names[..|names| - 1]) + [Status(Tool(names[|names| - 1]))]
  {
  }

  lemma TellPasses(sp: Speaker, takes: seq<TurnEvent> -> bool, out: seq<TurnEvent>, marks: bool, event: TurnEvent,
                   now: nat)
    requires Passed(sp, takes, out, marks) && !event.Segment?
    ensures Passed(Tell(sp, event, now), takes, out + [event], marks)
  {
    AcceptedPush(takes, out, event);
  }

  lemma BoundaryPasses(sp: Speaker, takes: seq<TurnEvent> -> bool, out: seq<TurnEvent>, marks: bool, tool: bool)
    requires Passed(sp, takes, out, marks)
    ensures Passed(Boundary(sp, tool), takes, Bounded(takes, out, tool), marks)
    ensures Passed(KeptBoundary(sp, tool), takes, Bounded(takes, out, tool), marks)
  {
    AcceptedPush(takes, out, Segment(sp.next, tool));
  }

  lemma {:induction false} DrivePasses(sp: Speaker, takes: seq<TurnEvent> -> bool, out: seq<TurnEvent>, marks: bool,
                                       events: seq<Timed>)
    requires sp.Valid() && Passed(sp, takes, out + [Status(Thinking)], marks)
    ensures var d, live := Drive(sp, events), Live(events);
            && Passed(d.sp, takes, Spoke(takes, out, live), marks || HasBoundary(live))
            && d.responding == HasText(live) && d.names == Announced(live) && d.got == Outcome(events)
    decreases |events|
  {
    if events != [] {
      var before, e := events[..|events| - 1], events[|events| - 1];
      DrivePasses(sp, takes, out, marks, before);
      DriveGetsOutcome(sp, events);
      DriveGetsOutcome(sp, before);
      LivePush(before, e);
      assert before + [e] == events;
      if Outcome(before).None? && !IsEnd(e.event) {
        HeardPasses(Drive(sp, before), takes, out, marks, Live(before), e);
      }
    }
  }

  lemma LiveStep(live: seq<StreamEvent>, e: StreamEvent)
    ensures HasText(live + [e]) == (HasText(live) || e.TextDelta?)
    ensures HasBoundary(live + [e]) == (HasBoundary(live) || e.SegmentEnd?)
    ensures Announced(live + [e]) == Announced(live) + if e.ToolUseEvent? then [e.name] else []
  {
    var all := live + [e];
    assert all[|live|] == e && all[..|live|] == live;
    if k :| 0 <= k < |live| && live[k].TextDelta? { assert all[k].TextDelta?; }
    if k :| 0 <= k < |live| && live[k].SegmentEnd? { assert all[k].SegmentEnd?; }
  }

  lemma HeardPasses(d: Driven, takes: seq<TurnEvent> -> bool, out: seq<TurnEvent>, marks: bool,
                    live: seq<StreamEvent>, e: Timed)
    requires d.sp.Valid() && d.got.None? && !IsEnd(e.event)
    requires Passed(d.sp, takes, Spoke(takes, out, live), marks || HasBoundary(live))
    requires d.responding == HasText(live) && d.names == Announced(live)
    ensures var t, more := Heard(d, e), live + [e.event];
            && Passed(t.sp, takes, Spoke(takes, out, more), marks || HasBoundary(more))
            && t.responding == HasText(more) && t.names == Announced(more)
  {
    hide HasText, HasBoundary, Announced, Accepted;
    LiveStep(live, e.event);
    var shown, more := Spoke(takes, out, live), live + [e.event];
    assert more[..|more| - 1] == live && Announced(live) + [] == Announced(live);
    match e.event {
      case TextDelta(text) =>
        var sp := d.sp;
        if !d.responding {
          TellPasses(sp, takes, shown, marks || HasBoundary(live), Status(Responding), 0);
          sp := Tell(sp, Status(Responding), 0);
        }
        var next := shown + if d.responding then [] else [Status(Responding)];
        TellPasses(sp, takes, next, marks || HasBoundary(live), Delta(text), e.now);
      case SegmentEnd(tool) =>
        BoundaryPasses(d.sp.(fromProvider := true), takes, shown, true, tool);
      case _ =>
    }
  }

  lemma ToolsPass(sp: Speaker, takes: seq<TurnEvent> -> bool, out: seq<TurnEvent>, marks: bool, names: seq<string>)
    requires Passed(sp, takes, out, marks)
    ensures Passed(TellTools(sp, names), takes, out + Statuses(names), marks)
  {
    AcceptedStatuses(takes, out, names);
  }

  /** A reply that came with `names`, once its round is over. */
  function Closed(takes: seq<TurnEvent> -> bool, out: seq<TurnEvent>, marks: bool, names: seq<string>,
                  outcome: RoundOutcome): seq<TurnEvent> {
    match outcome
    case Continue => (if marks then out else Bounded(takes, out, true)) + Statuses(names)
    case TurnOver(result) =>
      if result.toolRounds > 0 && !result.wasTruncated && !marks then Bounded(takes, out, false) else out
  }

  lemma ClosePasses(env: Env, rs: Rounds, history: seq<Message>, sp: Speaker, takes: seq<TurnEvent> -> bool,
                    out: seq<TurnEvent>, marks: bool, r: Response, names: seq<string>)
    requires sp.Valid() && Passed(sp, takes, out, marks)
    ensures var outcome := RoundFinished(env, rs, history, r).2;
            Passed(AfterFinish(env, BeforeFinish(env, sp, r, names, rs.rounds), r, names, rs.rounds, outcome),
                   takes, Closed(takes, out, marks, names, outcome), marks)
  {
    hide RoundFinished, Accepted, Survives;
    SurvivesIffContinues(env, rs, history, r);
    BoundaryPasses(sp, takes, out, marks, true);
    BoundaryPasses(sp, takes, out, marks, false);
    ToolsPass(sp, takes, out, marks, names);
    ToolsPass(KeptBoundary(sp, true), takes, Bounded(takes, out, true), marks, names);
  }

  lemma RoundAppends(env: Env, rs: Rounds, history: seq<Message>, r: Response)
    ensures var (_, history1, outcome) := RoundFinished(env, rs, history, r);
            var reply := Message(Assistant, env.guard(r.content).0);
            match outcome
            case TurnOver(_) => history1 == history + [reply]
            case Continue => exists blocks :: history1 == history + [reply] + [Message(User, blocks)]
  {
    hide ToolLoops.Spoken, ToolLoops.ResultOf, ToolLoops.Execute, ToolLoops.Nudged;
    var (_, history1, outcome) := RoundFinished(env, rs, history, r);
    var before := history + [Message(Assistant, env.guard(r.content).0)];
    if outcome.Continue? { assert history1 == before + [Message(User, history1[|before|].blocks)]; }
  }

  lemma ShownAfter(env: Env, takes: seq<TurnEvent> -> bool, history: seq<Message>, from: nat, reply: Message)
    requires from <= |history| && reply.role == Assistant
    ensures var live := Live(env.stream(history));
            && Shown(env, takes, history + [reply], from) == Spoke(takes, Shown(env, takes, history, from), live)
            && Marks(env, history + [reply], from) == (Marks(env, history, from) || HasBoundary(live))
  {
    hide Live, HasBoundary;
    var more := history + [reply];
    assert more[..|history|] == history;
    forall i | from <= i < |history| ensures more[..i] == history[..i] && more[i] == history[i] {
    }
    if Marks(env, history, from) {
      var i :| from <= i < |history| && history[i].role == Assistant && HasBoundary(Live(env.stream(history[..i])));
      assert more[i].role == Assistant && HasBoundary(Live(env.stream(more[..i])));
    }
    if HasBoundary(Live(env.stream(history))) {
      assert more[|history|].role == Assistant && HasBoundary(Live(env.stream(more[..|history|])));
    }
  }

  lemma ShownAnswered(env: Env, takes: seq<TurnEvent> -> bool, history: seq<Message>, from: nat, reply: Message,
                      answer: Message)
    requires from <= |history| && answer.role == User
    ensures var before, more := history + [reply], history + [reply] + [answer];
            var shown := Shown(env, takes, before, from);
            && Marks(env, more, from) == Marks(env, before, from)
            && Shown(env, takes, more, from) ==
               (if Marks(env, before, from) then shown else Bounded(takes, shown, true))
               + Statuses(Announced(Live(env.stream(history))))
  {
    hide Live, HasBoundary, Announced, Statuses, Spoke;
    var before, more := history + [reply], history + [reply] + [answer];
    assert more[..|before|] == before && more[..|history|] == history;
    forall i | from <= i < |before| ensures more[..i] == before[..i] && more[i] == before[i] {
    }
    if Marks(env, before, from) {
      var i :| from <= i < |before| && before[i].role == Assistant && HasBoundary(Live(env.stream(before[..i])));
      assert more[i].role == Assistant && HasBoundary(Live(env.stream(more[..i])));
    }
  }

  lemma RoundPasses(env: Env, rs: Rounds, history: seq<Message>, sp: Speaker, takes: seq<TurnEvent> -> bool, from: nat)
    requires sp.Valid() && from <= |history|
    requires Passed(sp, takes, Shown(env, takes, history, from), Marks(env, history, from))
    ensures var s := StreamRound(env, rs, history, sp);
            if s.outcome.Err? then
              && s.history == history
              && s.sp.sink.out == Spoke(takes, Shown(env, takes, history, from), Live(env.stream(history)))
            else if s.outcome.value.TurnOver? then
              s.sp.sink.out == ShownInAll(env, takes, Turn(Ok(s.outcome.value.result), s.rs, s.history, 0), from)
            else
              && from <= |s.history|
              && Passed(s.sp, takes, Shown(env, takes, s.history, from), Marks(env, s.history, from))
  {
    hide RoundFinished, BeforeFinish, AfterFinish, Drive, Accepted, Marks, Shown, Live, Spoke, HasBoundary, Announced;
    var shown, marks, live := Shown(env, takes, history, from), Marks(env, history, from), Live(env.stream(history));
    TellPasses(sp, takes, shown, marks, Status(Thinking), 0);
    DrivePasses(RoundOpened(sp, rs.rounds), takes, shown, marks, env.stream(history));
    var d := Drive(RoundOpened(sp, rs.rounds), env.stream(history));
    if d.got.Some? && d.got.value.Ok? {
      var r := d.got.value.value;
      ClosePasses(env, rs, history, d.sp, takes, Spoke(takes, shown, live), marks || HasBoundary(live), r, d.names);
      RoundAppends(env, rs, history, r);
      var (_, history1, outcome) := RoundFinished(env, rs, history, r);
      var reply := Message(Assistant, env.guard(r.content).0);
      ShownAfter(env, takes, history, from, reply);
      if outcome.Continue? {
        var blocks :| history1 == history + [reply] + [Message(User, blocks)];
        ShownAnswered(env, takes, history, from, reply, Message(User, blocks));
      }
    }
  }

  lemma {:induction false} LoopShows(env: Env, rs: Rounds, history: seq<Message>, sp: Speaker,
                                     takes: seq<TurnEvent> -> bool, from: nat, calls: nat)
    requires rs.rounds <= env.maxRounds && sp.Valid() && from <= |history|
    requires Passed(sp, takes, Shown(env, takes, history, from), Marks(env, history, from))
    ensures var (turn, end) := StreamLoop(env, rs, history, sp, calls);
            end.sink.out == ShownInAll(env, takes, turn, from)
    decreases env.maxRounds - rs.rounds
  {
    hide StreamRound, Passed, Marks, Shown, Live, Spoke;
    var s := StreamRound(env, rs, history, sp);
    RoundPasses(env, rs, history, sp, takes, from);
    if s.outcome == Ok(Continue) {
      StreamContinueCounts(env, rs, history, sp);
      LoopShows(env, s.rs, s.history, s.sp, takes, from, calls + 1);
    }
  }

  /** A text client is shown exactly this of a turn, whatever the channel takes. */
  lemma TextClientIsShown(env: Env, history: seq<Message>, takes: seq<TurnEvent> -> bool)
    ensures var (turn, end) := StreamLoop(env, NO_ROUNDS, history, Speaker(Sink(None, [], takes), 0, false), 0);
            end.sink.out == ShownInAll(env, takes, turn, |history|)
  {
    assert !Marks(env, history, |history|);
    LoopShows(env, NO_ROUNDS, history, Speaker(Sink(None, [], takes), 0, false), takes, |history|, 0);
  }

  // ---- A sink that holds ----

  function Kinds(segments: seq<(nat, bool)>): seq<bool> {
    seq(|segments|, i requires 0 <= i < |segments| => segments[i].1)
  }

  /** A sink that holds has passed on the statuses that one that does not hold
      has, and unless its hold has overflowed it has passed on or holds the same
      boundaries. */
  ghost predicate Same(s: Sink, t: Sink) {
    && s.Valid() && s.held.Some? && t.held.None?
    && StatusesOf(s.out) == StatusesOf(t.out)
    && (!Overflowed(s) ==> Kinds(SegmentsOf(s.out) + s.held.value.segments) == Kinds(SegmentsOf(t.out)))
  }

  /** The events may differ in the number of a boundary: it depends on what the
      channel accepts. */
  predicate SameEvent(a: TurnEvent, b: TurnEvent) { a == b || (a.Segment? && b.Segment? && a.tool == b.tool) }

  lemma KindsAppend(a: seq<(nat, bool)>, b: seq<(nat, bool)>)
    ensures Kinds(a + b) == Kinds(a) + Kinds(b)
  {
  }

  lemma SendKeepsSame(s: Sink, t: Sink, a: TurnEvent, b: TurnEvent, now: nat)
    requires Same(s, t) && SameEvent(a, b)
    ensures Same(Sent(s, a, now), Sent(t, b, now))
    ensures !a.Segment? && s.held.value.segments == [] ==> Sent(s, a, now).held.value.segments == []
  {
    hide StatusesOf, SegmentsOf, Kinds, Pushed;
    CallPassesStatus(s, Send(a, now));
    CallPassesStatus(t, Send(b, now));
    SendCountsResets(s, a, now);
    DeliverOne(t.out, b);
    var more := if a.Segment? then [(a.index, a.tool)] else [];
    if !Overflowed(Sent(s, a, now)) {
      CallKeepsBoundaries(s, Send(a, now));
      KindsAppend(SegmentsOf(s.out) + s.held.value.segments, more);
      KindsAppend(SegmentsOf(t.out), if b.Segment? then [(b.index, b.tool)] else []);
      KindsOfOne(a, b);
    }
  }

  lemma KindsOfOne(a: TurnEvent, b: TurnEvent)
    requires SameEvent(a, b)
    ensures Kinds(if a.Segment? then [(a.index, a.tool)] else []) ==
            Kinds(if b.Segment? then [(b.index, b.tool)] else [])
  {
  }

  lemma OwnKeepsSame(s: Sink, t: Sink, call: SinkCall)
    requires Same(s, t) && !call.Send? && !call.Discard?
    ensures Same(Called(s, call), t) && Called(t, call) == t
    ensures s.held.value.segments == [] || call.Flush? ==> Called(s, call).held.value.segments == []
  {
    hide StatusesOf, SegmentsOf, Kinds, Finished, Pieces, SkipBytes;
    CallPassesStatus(s, call);
    CallCountsResets(s, call);
    if !Overflowed(Called(s, call)) { CallKeepsBoundaries(s, call); }
    assert StatusesOf(s.out) + [] == StatusesOf(s.out);
    var all := SegmentsOf(s.out) + s.held.value.segments;
    assert all + [] == all;
  }

  lemma PassKeepsSame(s: Sink, t: Sink, a: TurnEvent, b: TurnEvent)
    requires Same(s, t) && SameEvent(a, b) && (a.Segment? ==> s.held.value.segments == [])
    ensures Same(s.(out := s.out + [a]), t.(out := t.out + [b]))
  {
    hide SegmentsOf, Kinds;
    DeliverOne(s.out, a);
    DeliverOne(t.out, b);
    var held, now := s.held.value.segments, if a.Segment? then [(a.index, a.tool)] else [];
    var after := if b.Segment? then [(b.index, b.tool)] else [];
    KindsAppend(SegmentsOf(s.out) + held, now);
    KindsAppend(SegmentsOf(t.out), after);
    KindsOfOne(a, b);
    assert SegmentsOf(s.out) + now + held == SegmentsOf(s.out) + held + now;
    assert (s.out + [a])[..|s.out|] == s.out && (t.out + [b])[..|t.out|] == t.out;
  }

  ghost predicate Alike(sp: Speaker, tp: Speaker) {
    && Same(sp.sink, tp.sink) && sp.fromProvider == tp.fromProvider
    && (!sp.fromProvider ==> sp.sink.held.value.segments == [])
  }

  lemma {:induction false} ToolsKeepAlike(sp: Speaker, tp: Speaker, names: seq<string>)
    requires Alike(sp, tp)
    ensures Alike(TellTools(sp, names), TellTools(tp, names))
    decreases |names|
  {
    if names == [] {
      assert TellTools(sp, names) == sp && TellTools(tp, names) == tp;
    } else {
      hide Same;
      var init, last := names[..|names| - 1], Status(Tool(names[|names| - 1]));
      ToolsKeepAlike(sp, tp, init);
      PassKeepsSame(TellTools(sp, init).sink, TellTools(tp, init).sink, last, last);
      StatusesPush(sp.sink.out, names);
      StatusesPush(tp.sink.out, names);
    }
  }

  lemma {:induction false} DriveKeepsAlike(sp: Speaker, tp: Speaker, events: seq<Timed>)
    requires sp.Valid() && tp.Valid() && Alike(sp, tp)
    ensures var d, e := Drive(sp, events), Drive(tp, events);
            Alike(d.sp, e.sp) && d.responding == e.responding && d.names == e.names && d.got == e.got
    decreases |events|
  {
    if events != [] {
      DriveKeepsAlike(sp, tp, events[..|events| - 1]);
      HeardKeepsAlike(Drive(sp, events[..|events| - 1]), Drive(tp, events[..|events| - 1]), events[|events| - 1]);
    }
  }

  lemma HeardKeepsAlike(d: Driven, e: Driven, event: Timed)
    requires d.sp.Valid() && e.sp.Valid() && Alike(d.sp, e.sp)
    requires d.responding == e.responding && d.names == e.names && d.got == e.got
    ensures var a, b := Heard(d, event), Heard(e, event);
            Alike(a.sp, b.sp) && a.responding == b.responding && a.names == b.names && a.got == b.got
  {
    hide Same, Sent, BlockBegun;
    if d.got.None? {
      match event.event {
        case TextDelta(text) =>
          var s, t := d.sp, e.sp;
          if !d.responding {
            SendKeepsSame(s.sink, t.sink, Status(Responding), Status(Responding), 0);
            s, t := Tell(s, Status(Responding), 0), Tell(t, Status(Responding), 0);
          }
          SendKeepsSame(s.sink, t.sink, Delta(text), Delta(text), event.now);
        case TextBlockEnd => OwnKeepsSame(d.sp.sink, e.sp.sink, SinkCall.BeginBlock);
        case SegmentEnd(tool) =>
          SendKeepsSame(d.sp.sink, e.sp.sink, Segment(d.sp.next, tool), Segment(e.sp.next, tool), 0);
        case _ =>
      }
    }
  }

  lemma OpenKeepsAlike(sp: Speaker, tp: Speaker, rounds: nat)
    requires sp.Valid() && tp.Valid() && Alike(sp, tp)
    ensures Alike(RoundOpened(sp, rounds), RoundOpened(tp, rounds))
  {
    hide Same, Sent, RoundBegun;
    var s, t := sp.sink, tp.sink;
    OwnKeepsSame(s, t, BeginRound);
    if rounds > 0 { s := RoundBegun(s); }
    SendKeepsSame(s, t, Status(Thinking), Status(Thinking), 0);
  }

  lemma SettleKeepsAlike(sp: Speaker, tp: Speaker)
    requires sp.Valid() && tp.Valid() && Alike(sp, tp)
    ensures Alike(Settle(sp), tp) && Settle(tp) == tp && Settle(sp).sink.held.value.segments == []
  {
    hide Same, Flushed;
    OwnKeepsSame(sp.sink, tp.sink, Flush);
  }

  lemma BoundaryKeepsAlike(sp: Speaker, tp: Speaker, tool: bool)
    requires sp.Valid() && tp.Valid() && Alike(sp, tp) && sp.sink.held.value.segments == []
    ensures Alike(KeptBoundary(sp, tool), KeptBoundary(tp, tool))
    ensures KeptBoundary(sp, tool).sink.held.value.segments == []
  {
    hide Same;
    PassKeepsSame(sp.sink, tp.sink, Segment(sp.next, tool), Segment(tp.next, tool));
  }

  lemma CutKeepsAlike(sp: Speaker, tp: Speaker, kept: string)
    requires sp.Valid() && tp.Valid() && Alike(sp, tp)
    ensures Alike(sp.(sink := CutFinished(sp.sink, kept).0), tp)
  {
    hide Same, CutFinished;
    OwnKeepsSame(sp.sink, tp.sink, Cut(kept));
  }

  lemma BeforeKeepsAlike(env: Env, sp: Speaker, tp: Speaker, r: Response, names: seq<string>, rounds: nat)
    requires sp.Valid() && tp.Valid() && Alike(sp, tp)
    ensures Alike(BeforeFinish(env, sp, r, names, rounds), BeforeFinish(env, tp, r, names, rounds))
  {
    hide Alike, CutFinished, KeptBoundary, TellTools, Settle, Survives;
    AlikeMeans(sp, tp);
    SettleKeepsAlike(sp, tp);
    var s, t := sp, tp;
    if Survives(env, r, rounds) && !sp.fromProvider {
      BoundaryKeepsAlike(Settle(sp), tp, true);
      ToolsKeepAlike(KeptBoundary(Settle(sp), true), KeptBoundary(tp, true), names);
      s, t := TellTools(KeptBoundary(Settle(sp), true), names), TellTools(KeptBoundary(tp, true), names);
    } else if Survives(env, r, rounds) {
      s := Settle(sp);
    }
    AlikeMeans(s, t);
    CutKeepsAlike(s, t, TextOf(env.guard(r.content).0));
  }

  lemma AlikeMeans(sp: Speaker, tp: Speaker)
    requires Alike(sp, tp)
    ensures sp.sink.held.Some? && tp.sink.held.None? && sp.fromProvider == tp.fromProvider
  {
  }

  lemma AfterKeepsAlike(env: Env, sp: Speaker, tp: Speaker, r: Response, names: seq<string>, rounds: nat,
                        outcome: RoundOutcome)
    requires sp.Valid() && tp.Valid() && Alike(sp, tp)
    ensures var s := AfterFinish(env, sp, r, names, rounds, outcome);
            && Alike(s, AfterFinish(env, tp, r, names, rounds, outcome))
            && (outcome.TurnOver? && !outcome.result.wasTruncated ==> s.sink.held.value.segments == [])
  {
    hide Alike, KeptBoundary, TellTools, Settle, Survives;
    AlikeMeans(sp, tp);
    SettleKeepsAlike(sp, tp);
    AlikeMeans(Settle(sp), tp);
    BoundaryKeepsAlike(Settle(sp), tp, true);
    BoundaryKeepsAlike(Settle(sp), tp, false);
    AlikeMeans(KeptBoundary(Settle(sp), false), KeptBoundary(tp, false));
    ToolsKeepAlike(KeptBoundary(Settle(sp), true), KeptBoundary(tp, true), names);
    ToolsKeepAlike(Settle(sp), tp, names);
  }

  lemma RoundKeepsAlike(env: Env, rs: Rounds, history: seq<Message>, sp: Speaker, tp: Speaker)
    requires sp.Valid() && tp.Valid() && Alike(sp, tp)
    ensures var s, t := StreamRound(env, rs, history, sp), StreamRound(env, rs, history, tp);
            && Alike(s.sp, t.sp) && s == t.(sp := s.sp)
            && (s.outcome.Ok? && s.outcome.value.TurnOver? && !s.outcome.value.result.wasTruncated ==>
                  s.sp.sink.held.value.segments == [])
  {
    hide Alike, RoundOpened, Drive, BeforeFinish, AfterFinish, RoundFinished;
    OpenKeepsAlike(sp, tp, rs.rounds);
    DriveKeepsAlike(RoundOpened(sp, rs.rounds), RoundOpened(tp, rs.rounds), env.stream(history));
    var d := Drive(RoundOpened(sp, rs.rounds), env.stream(history));
    var e := Drive(RoundOpened(tp, rs.rounds), env.stream(history));
    AlikeMeans(d.sp, e.sp);
    if d.got.Some? && d.got.value.Ok? {
      var r, outcome := d.got.value.value, RoundFinished(env, rs, history, d.got.value.value).2;
      BeforeKeepsAlike(env, d.sp, e.sp, r, d.names, rs.rounds);
      var a, b := BeforeFinish(env, d.sp, r, d.names, rs.rounds), BeforeFinish(env, e.sp, r, d.names, rs.rounds);
      AfterKeepsAlike(env, a, b, r, d.names, rs.rounds, outcome);
      AlikeMeans(AfterFinish(env, a, r, d.names, rs.rounds, outcome),
                 AfterFinish(env, b, r, d.names, rs.rounds, outcome));
    }
  }

  lemma {:induction false} LoopKeepsAlike(env: Env, rs: Rounds, history: seq<Message>, sp: Speaker, tp: Speaker,
                                          calls: nat)
    requires rs.rounds <= env.maxRounds && sp.Valid() && tp.Valid() && Alike(sp, tp)
    ensures var (turn, end) := StreamLoop(env, rs, history, sp, calls);
            var (other, shown) := StreamLoop(env, rs, history, tp, calls);
            && turn == other && Alike(end, shown)
            && (turn.result.Ok? && !turn.result.value.wasTruncated ==> end.sink.held.value.segments == [])
    decreases env.maxRounds - rs.rounds
  {
    hide StreamRound, Alike;
    var s, t := StreamRound(env, rs, history, sp), StreamRound(env, rs, history, tp);
    RoundKeepsAlike(env, rs, history, sp, tp);
    AlikeMeans(s.sp, t.sp);
    if s.outcome == Ok(Continue) {
      StreamContinueCounts(env, rs, history, sp);
      LoopKeepsAlike(env, s.rs, s.history, s.sp, t.sp, calls + 1);
    }
  }

  /** A voice client is shown the statuses that a text client is shown of the
      same turn and, unless the hold overflowed, the same boundaries, but for
      those still held when the reply was cut or the turn failed. */
  lemma VoiceClientIsShown(env: Env, history: seq<Message>, cap: nat, takes: seq<TurnEvent> -> bool,
                           others: seq<TurnEvent> -> bool)
    ensures var (turn, end) := StreamLoop(env, NO_ROUNDS, history, Speaker(Holding(cap, takes), 0, false), 0);
            var shown := ShownInAll(env, others, turn, |history|);
            && StatusesOf(end.sink.out) == StatusesOf(shown) && end.sink.held.Some?
            && (!end.sink.held.value.overflowed ==>
                  && Kinds(SegmentsOf(end.sink.out) + end.sink.held.value.segments) == Kinds(SegmentsOf(shown))
                  && (turn.result.Ok? && !turn.result.value.wasTruncated ==> end.sink.held.value.segments == []))
  {
    hide StreamLoop, ShownInAll;
    var sp, tp := Speaker(Holding(cap, takes), 0, false), Speaker(Sink(None, [], others), 0, false);
    assert Alike(sp, tp);
    TextClientIsShown(env, history, others);
    LoopKeepsAlike(env, NO_ROUNDS, history, sp, tp, 0);
  }
}
