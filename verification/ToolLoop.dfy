/** The tool loop: rounds of one turn, buffered and streamed
    (`src/tool_loop.rs`). */
module ToolLoops {
  import opened Text
  import opened TurnEvents
  import opened Messages
  import opened Markers
  import opened SpeechGates
  import opened ProgressSinks

  // ---- Data ----

  datatype Failure = Refused(model: string, detail: string) | Quota(model: string, detail: string) | Failed(why: string)

  datatype Result<T> = Ok(value: T) | Err(error: Failure)

  datatype StreamEvent =
    | TextDelta(text: string)
    | TextBlockEnd
    | ToolUseEvent(name: string)
    | SegmentEnd(toolUse: bool)
    | Done(response: Response)
    | Broken(error: Failure)      // Refused, QuotaExhausted or Error

  datatype Timed = Timed(event: StreamEvent, now: nat)

  datatype ToolOutcome = Output(content: string) | ToolError(why: string) | UnknownTool

  /** What the loop calls: the provider, both ways, as functions of the history;
      the tools, which may depend on everything before; the guard; the claim
      check; and the truncation of long tool results. */
  datatype Env = Env(
    invoke: seq<Message> -> Result<Response>,
    stream: seq<Message> -> seq<Timed>,
    tool: (seq<Message>, seq<Block>, Block) -> ToolOutcome,
    guard: seq<Block> -> (seq<Block>, bool),
    claims: (seq<Block>, seq<string>) -> seq<string>,
    shorten: seq<Block> -> seq<Block>,
    maxRounds: nat)

  const TOOL_FAILURE_THRESHOLD := 3

  /** The accumulators of one turn. */
  datatype Rounds = Rounds(
    inputTokens: nat, outputTokens: nat, model: string, rounds: nat, toolsUsed: seq<string>,
    texts: seq<string>, failures: nat, degraded: bool)

  const NO_ROUNDS := Rounds(0, 0, "", 0, [], [], 0, false)

  datatype ToolLoopResult = ToolLoopResult(
    text: string, model: string, inputTokens: nat, outputTokens: nat, toolRounds: nat,
    wasTruncated: bool, circuitBreakerFired: bool, warnings: seq<string>, degraded: bool)

  datatype RoundOutcome = Continue | TurnOver(result: ToolLoopResult)

  // ---- One round ----

  /** `u32` addition, wrapping. */
  function Add32(a: nat, b: nat): nat { (a + b) % 0x1_0000_0000 }

  function GetOr(o: Option<nat>, d: nat): nat { if o.Some? then o.value else d }

  function Blank(text: string): bool { forall c :: c in text ==> IsWhitespace(c) }

  /** Text blocks that are not blank. */
  function Spoken(blocks: seq<Block>): seq<string> {
    if blocks == [] then []
    else (if blocks[0].TextBlock? && !Blank(blocks[0].text) then [blocks[0].text] else []) + Spoken(blocks[1..])
  }

  function Join(texts: seq<string>): string {
    if texts == [] then "" else if |texts| == 1 then texts[0] else texts[0] + "\n\n" + Join(texts[1..])
  }

  function ResultOf(rs: Rounds, truncated: bool, fired: bool, warnings: seq<string>): ToolLoopResult {
    ToolLoopResult(Join(rs.texts), rs.model, rs.inputTokens, rs.outputTokens, rs.rounds, truncated, fired, warnings,
        rs.degraded)
  }

  datatype Executed = Executed(results: seq<Block>, used: seq<string>, hadSuccess: bool, hadFailure: bool)

  function Answer(use: Block, outcome: ToolOutcome): Block
    requires use.ToolUse?
  {
    match outcome
    case Output(content) => ToolResult(use.id, content, false)
    case ToolError(why) => ToolResult(use.id, "Error: " + why, true)
    case UnknownTool => ToolResult(use.id, "Error: Unknown tool '" + use.name + "'", true)
  }

  /** `execute_tool_calls`, on the first part of `content`. */
  function Execute(env: Env, history: seq<Message>, content: seq<Block>, used: seq<string>): Executed {
    if content == [] then Executed([], used, false, false)
    else
      var x, block := Execute(env, history, content[..|content| - 1], used), content[|content| - 1];
      if !block.ToolUse? then x
      else
        var outcome := env.tool(history, x.results, block);
        Executed(x.results + [Answer(block, outcome)], x.used + [block.name],
                 x.hadSuccess || outcome.Output?, x.hadFailure || !outcome.Output?)
  }

  method ExecuteToolCalls(env: Env, history: seq<Message>, content: seq<Block>, used: seq<string>) returns (x: Executed)
    ensures x == Execute(env, history, content, used)
  {
    x := Executed([], used, false, false);
    for i := 0 to |content|
      invariant x == Execute(env, history, content[..i], used)
    {
      assert content[..i + 1][..i] == content[..i];
      if content[i].ToolUse? {
        var outcome := env.tool(history, x.results, content[i]);
        x := Executed(x.results + [Answer(content[i], outcome)], x.used + [content[i].name],
                      x.hadSuccess || outcome.Output?, x.hadFailure || !outcome.Output?);
      }
    }
    assert content[..|content|] == content;
  }

  /** `append_feedback_nudges`: the accumulators and the text blocks to add. */
  function Nudged(rs: Rounds, hadSuccess: bool, hadFailure: bool): (Rounds, seq<Block>) {
    var reset := if hadSuccess then 0 else rs.failures;
    var failures := if hadFailure && !hadSuccess then reset + 1 else reset;
    var warn := failures >= TOOL_FAILURE_THRESHOLD && !rs.degraded;
    var degraded := rs.degraded || warn;
    var warning := if warn then [Injected(DegradedWarning)] else [];
    var nudge :=
      if hadFailure && hadSuccess then [Injected(ExpectationMixed)]
      else if hadFailure && !degraded then [Injected(ExpectationFailed)]
      else [];
    (rs.(failures := failures, degraded := degraded), warning + nudge)
  }

  /** `finish_round`. */
  function RoundFinished(env: Env, rs: Rounds, history: seq<Message>, r: Response)
    : (Rounds, seq<Message>, RoundOutcome)
  {
    var (kept, truncated) := env.guard(r.content);
    var rs1 := rs.(inputTokens := Add32(rs.inputTokens, GetOr(r.inputTokens, 0)),
                   outputTokens := Add32(rs.outputTokens, GetOr(r.outputTokens, 0)),
                   model := r.model, texts := rs.texts + Spoken(kept));
    var history1 := history + [Message(Assistant, kept)];
    if truncated then (rs1, history1, TurnOver(ResultOf(rs1, true, false, [])))
    else
      match r.stop
      case Other(_) => (rs1, history1, TurnOver(ResultOf(rs1, false, false, [])))
      case ToolUseStop =>
        var rs2 := rs1.(rounds := rs1.rounds + 1);
        if rs2.rounds > env.maxRounds then (rs2, history1, TurnOver(ResultOf(rs2, false, true, [])))
        else
          var x := Execute(env, history1, r.content, rs2.toolsUsed);
          var (rs3, nudges) := Nudged(rs2.(toolsUsed := x.used), x.hadSuccess, x.hadFailure);
          (rs3, history1 + [Message(User, env.shorten(x.results + nudges))], Continue)
      case _ => (rs1, history1, TurnOver(ResultOf(rs1, false, false, env.claims(kept, rs1.toolsUsed))))
  }

  /** `tool_round_survives_guard`. */
  predicate Survives(env: Env, r: Response, rounds: nat) {
    r.stop == ToolUseStop && rounds < env.maxRounds && !env.guard(r.content).1
  }

  /** The history the caller owns. */
  class History {
    var messages: seq<Message>

    constructor (messages: seq<Message>)
      ensures this.messages == messages
    {
      this.messages := messages;
    }
  }

  class RoundState {
    var inputTokens: nat
    var outputTokens: nat
    var model: string
    var rounds: nat
    var toolsUsed: seq<string>
    var texts: seq<string>
    var failures: nat
    var degraded: bool

    function State(): Rounds
      reads this
    {
      Rounds(inputTokens, outputTokens, model, rounds, toolsUsed, texts, failures, degraded)
    }

    constructor ()
      ensures State() == NO_ROUNDS
    {
      inputTokens, outputTokens, model, rounds, toolsUsed, texts, failures, degraded := 0, 0, "", 0, [], [], 0, false;
    }

    method AppendFeedbackNudges(results: seq<Block>, hadSuccess: bool, hadFailure: bool) returns (all: seq<Block>)
      modifies this
      ensures var (rs, nudges) := Nudged(old(State()), hadSuccess, hadFailure);
              State() == rs && all == results + nudges
    {
      all := results;
      if hadSuccess {
        failures := 0;
      }
      if hadFailure && !hadSuccess {
        failures := failures + 1;
      }
      if failures >= TOOL_FAILURE_THRESHOLD && !degraded {
        degraded := true;
        all := all + [Injected(DegradedWarning)];
      }
      if hadFailure && hadSuccess {
        all := all + [Injected(ExpectationMixed)];
      } else if hadFailure && !degraded {
        all := all + [Injected(ExpectationFailed)];
      }
    }

    method FinishRound(env: Env, r: Response, history: History) returns (outcome: RoundOutcome)
      modifies this, history
      ensures (State(), history.messages, outcome) == RoundFinished(env, old(State()), old(history.messages), r)
    {
      inputTokens := Add32(inputTokens, GetOr(r.inputTokens, 0));
      outputTokens := Add32(outputTokens, GetOr(r.outputTokens, 0));
      model := r.model;
      var (kept, truncated) := env.guard(r.content);
      texts := texts + Spoken(kept);
      history.messages := history.messages + [Message(Assistant, kept)];
      if truncated {
        return TurnOver(ResultOf(State(), true, false, []));
      }
      match r.stop {
        case EndTurn | MaxTokens | StopSequence =>
          return TurnOver(ResultOf(State(), false, false, env.claims(kept, toolsUsed)));
        case Other(_) =>
          return TurnOver(ResultOf(State(), false, false, []));
        case ToolUseStop =>
          rounds := rounds + 1;
          if rounds > env.maxRounds {
            return TurnOver(ResultOf(State(), false, true, []));
          }
          var x := ExecuteToolCalls(env, history.messages, r.content, toolsUsed);
          toolsUsed := x.used;
          var results := AppendFeedbackNudges(x.results, x.hadSuccess, x.hadFailure);
          history.messages := history.messages + [Message(User, env.shorten(results))];
          return Continue;
      }
    }
  }

  // ---- The buffered loop ----

  datatype Turn = Turn(result: Result<ToolLoopResult>, rs: Rounds, history: seq<Message>, calls: nat)

  /** The rest of a turn that has made `calls` provider calls. */
  function Loop(env: Env, rs: Rounds, history: seq<Message>, calls: nat): Turn
    requires rs.rounds <= env.maxRounds
    decreases env.maxRounds - rs.rounds
  {
    match env.invoke(history)
    case Err(e) => Turn(Err(e), rs, history, calls + 1)
    case Ok(r) =>
      var (rs1, history1, outcome) := RoundFinished(env, rs, history, r);
      match outcome
      case TurnOver(result) => Turn(Ok(result), rs1, history1, calls + 1)
      case Continue => Loop(env, rs1, history1, calls + 1)
  }

  method InvokeWithToolLoop(env: Env, history: History) returns (result: Result<ToolLoopResult>, calls: nat)
    modifies history
    ensures var turn := Loop(env, NO_ROUNDS, old(history.messages), 0);
            result == turn.result && history.messages == turn.history && calls == turn.calls
  {
    var rs := new RoundState();
    calls := 0;
    while true
      invariant fresh(rs) && rs.rounds <= env.maxRounds
      invariant Loop(env, rs.State(), history.messages, calls) == Loop(env, NO_ROUNDS, old(history.messages), 0)
      decreases env.maxRounds - rs.rounds
    {
      calls := calls + 1;
      match env.invoke(history.messages) {
        case Err(e) => return Err(e), calls;
        case Ok(r) =>
          var outcome := rs.FinishRound(env, r, history);
          match outcome {
            case TurnOver(done) => return Ok(done), calls;
            case Continue =>
          }
      }
    }
  }

  // ---- The streaming loop ----

  /** The sink and the segment counter. */
  datatype Speaker = Speaker(sink: Sink, next: nat, fromProvider: bool) {
    predicate Valid() { sink.Valid() }
  }

  function Settle(sp: Speaker): (t: Speaker)
    requires sp.Valid()
    ensures t.Valid()
  {
    sp.(sink := Flushed(sp.sink))
  }

  function Tell(sp: Speaker, event: TurnEvent, now: nat): (t: Speaker)
    requires sp.Valid()
    ensures t.Valid()
  {
    sp.(sink := Sent(sp.sink, event, now))
  }

  /** `Segments::push`: the index advances only when the event is accepted. */
  function Boundary(sp: Speaker, tool: bool): (t: Speaker)
    requires sp.Valid()
    ensures t.Valid()
  {
    var event := Segment(sp.next, tool);
    Tell(sp, event, 0).(next := if IsTaken(sp.sink, event) then sp.next + 1 else sp.next)
  }

  /** `Segments::push_kept`: a boundary that is not held. */
  function KeptBoundary(sp: Speaker, tool: bool): (t: Speaker)
    requires sp.Valid()
    ensures t.Valid()
  {
    var out := sp.sink.out + [Segment(sp.next, tool)];
    sp.(sink := sp.sink.(out := out), next := if sp.sink.takes(out) then sp.next + 1 else sp.next)
  }

  function Statuses(names: seq<string>): seq<TurnEvent> {
    seq(|names|, i requires 0 <= i < |names| => Status(Tool(names[i])))
  }

  function TellTools(sp: Speaker, names: seq<string>): (t: Speaker)
    requires sp.Valid()
    ensures t.Valid()
  {
    sp.(sink := sp.sink.(out := sp.sink.out + Statuses(names)))
  }

  datatype Driven = Driven(sp: Speaker, responding: bool, names: seq<string>, got: Option<Result<Response>>)

  /** One event of the stream, unless the stream is already over. */
  function Heard(d: Driven, e: Timed): (t: Driven)
    requires d.sp.Valid()
    ensures t.sp.Valid()
  {
    if d.got.Some? then d
    else
      match e.event
      case TextDelta(text) =>
        var sp := if d.responding then d.sp else Tell(d.sp, Status(Responding), 0);
        d.(sp := Tell(sp, Delta(text), e.now), responding := true)
      case TextBlockEnd => d.(sp := d.sp.(sink := BlockBegun(d.sp.sink)))
      case ToolUseEvent(name) => d.(names := d.names + [name])
      case SegmentEnd(tool) => d.(sp := Boundary(d.sp.(fromProvider := true), tool))
      case Done(response) => d.(got := Some(Ok(response)))
      case Broken(error) => d.(got := Some(Err(error)))
  }

  function Drive(sp: Speaker, events: seq<Timed>): (d: Driven)
    requires sp.Valid()
    ensures d.sp.Valid()
    decreases |events|
  {
    if events == [] then Driven(sp, false, [], None) else Heard(Drive(sp, events[..|events| - 1]), events[|events| - 1])
  }

  const NO_RESPONSE: Result<Response> := Err(Failed("provider stream ended without a final response"))

  /** What a stream comes to, whoever listens. */
  function Outcome(events: seq<Timed>): Option<Result<Response>> {
    if events == [] then None
    else
      var before := Outcome(events[..|events| - 1]);
      if before.Some? then before
      else
        match events[|events| - 1].event
        case Done(response) => Some(Ok(response))
        case Broken(error) => Some(Err(error))
        case _ => None
  }

  function ResponseOf(events: seq<Timed>): Result<Response> {
    var o := Outcome(events);
    if o.Some? then o.value else NO_RESPONSE
  }

  /** `text_blocks_concat`. */
  function TextOf(blocks: seq<Block>): string {
    if blocks == [] then ""
    else TextOf(blocks[..|blocks| - 1]) + if blocks[|blocks| - 1].TextBlock? then blocks[|blocks| - 1].text else ""
  }

  /** The round starts: the previous buffer is dropped and the client told. */
  function RoundOpened(sp: Speaker, rounds: nat): (t: Speaker)
    requires sp.Valid()
    ensures t.Valid()
  {
    Tell(if rounds > 0 then sp.(sink := RoundBegun(sp.sink)) else sp, Status(Thinking), 0)
  }

  /** Between the response and `finish_round`. */
  function BeforeFinish(env: Env, sp: Speaker, r: Response, names: seq<string>, rounds: nat): (t: Speaker)
    requires sp.Valid()
    ensures t.Valid()
  {
    var survives := Survives(env, r, rounds);
    var told :=
      if survives && !sp.fromProvider then TellTools(KeptBoundary(Settle(sp), true), names)
      else if survives && sp.sink.held.Some? then Settle(sp)
      else sp;
    var (kept, truncated) := env.guard(r.content);
    if ReleasedAny(told.sink) && truncated then told.(sink := CutFinished(told.sink, TextOf(kept)).0) else told
  }

  /** After `finish_round`. */
  function AfterFinish(env: Env, sp: Speaker, r: Response, names: seq<string>, rounds: nat,
      outcome: RoundOutcome): (t: Speaker)
    requires sp.Valid()
    ensures t.Valid()
  {
    match outcome
    case TurnOver(result) =>
      if result.wasTruncated then sp
      else if !sp.fromProvider && result.toolRounds > 0 then KeptBoundary(Settle(sp), false)
      else Settle(sp)
    case Continue =>
      if Survives(env, r, rounds) && !sp.fromProvider then sp
      else TellTools(if sp.fromProvider then Settle(sp) else KeptBoundary(Settle(sp), true), names)
  }

  datatype Streamed = Streamed(rs: Rounds, history: seq<Message>, sp: Speaker, outcome: Result<RoundOutcome>)

  /** One round of the streaming loop. */
  function StreamRound(env: Env, rs: Rounds, history: seq<Message>, sp: Speaker): (s: Streamed)
    requires sp.Valid()
    ensures s.sp.Valid()
  {
    var d := Drive(RoundOpened(sp, rs.rounds), env.stream(history));
    match if d.got.Some? then d.got.value else NO_RESPONSE
    case Err(e) => Streamed(rs, history, d.sp, Err(e))
    case Ok(r) =>
      var settled := BeforeFinish(env, d.sp, r, d.names, rs.rounds);
      var (rs1, history1, outcome) := RoundFinished(env, rs, history, r);
      Streamed(rs1, history1, AfterFinish(env, settled, r, d.names, rs.rounds, outcome), Ok(outcome))
  }

  lemma ContinueCounts(env: Env, rs: Rounds, history: seq<Message>, r: Response)
    ensures var (after, _, outcome) := RoundFinished(env, rs, history, r);
            outcome.Continue? ==> after.rounds == rs.rounds + 1 <= env.maxRounds
  {
    hide Execute;
  }

  lemma StreamContinueCounts(env: Env, rs: Rounds, history: seq<Message>, sp: Speaker)
    requires sp.Valid()
    ensures var s := StreamRound(env, rs, history, sp);
            s.outcome == Ok(Continue) ==> s.rs.rounds == rs.rounds + 1 <= env.maxRounds
  {
    hide RoundFinished, BeforeFinish, AfterFinish, Drive, RoundOpened;
    var d := Drive(RoundOpened(sp, rs.rounds), env.stream(history));
    if d.got.Some? && d.got.value.Ok? {
      ContinueCounts(env, rs, history, d.got.value.value);
    }
  }

  function StreamLoop(env: Env, rs: Rounds, history: seq<Message>, sp: Speaker, calls: nat): (r: (Turn, Speaker))
    requires rs.rounds <= env.maxRounds && sp.Valid()
    ensures r.1.Valid()
    decreases env.maxRounds - rs.rounds
  {
    var s := StreamRound(env, rs, history, sp);
    match s.outcome
    case Err(e) => (Turn(Err(e), s.rs, s.history, calls + 1), s.sp)
    case Ok(TurnOver(result)) => (Turn(Ok(result), s.rs, s.history, calls + 1), s.sp)
    case Ok(Continue) =>
      StreamContinueCounts(env, rs, history, sp);
      StreamLoop(env, s.rs, s.history, s.sp, calls + 1)
  }

  /** The segment counter of one turn. */
  class Segments {
    var next: nat
    var fromProvider: bool
    const sink: ProgressSink

    function State(): Speaker
      reads this, sink, sink.gate
    {
      Speaker(sink.State(), next, fromProvider)
    }

    constructor (sink: ProgressSink)
      ensures this.sink == sink && State() == Speaker(sink.State(), 0, false)
    {
      this.sink := sink;
      next, fromProvider := 0, false;
    }

    method OpenRound(rounds: nat)
      requires State().Valid()
      modifies sink, sink.gate
      ensures State() == RoundOpened(old(State()), rounds)
    {
      hide SpeechGates.Pushed;
      if rounds > 0 {
        sink.BeginNextRound();
      }
      var _ := sink.TrySend(Status(Thinking), 0);
    }

    method Emit(tool: bool)
      requires State().Valid()
      modifies this, sink, sink.gate
      ensures State() == Boundary(old(State()), tool)
    {
      hide SpeechGates.Pushed;
      var accepted := sink.TrySend(Segment(next, tool), 0);
      if accepted {
        next := next + 1;
      }
    }

    method EmitKept(tool: bool)
      requires State().Valid()
      modifies this, sink
      ensures State() == KeptBoundary(old(State()), tool)
    {
      var accepted := sink.Deliver(Segment(next, tool));
      if accepted {
        next := next + 1;
      }
    }

    method TellNames(names: seq<string>)
      requires State().Valid()
      modifies sink, sink.gate
      ensures State() == TellTools(old(State()), names)
    {
      hide SpeechGates.Pushed;
      for i := 0 to |names|
        invariant State() == TellTools(old(State()), names[..i])
      {
        var _ := sink.TrySend(Status(Tool(names[i])), 0);
        assert Statuses(names[..i + 1]) == Statuses(names[..i]) + [Status(Tool(names[i]))];
      }
      assert names[..|names|] == names;
    }

    /** `stream_one_round`. */
    method StreamOneRound(events: seq<Timed>) returns (got: Result<Response>, names: seq<string>)
      requires State().Valid()
      modifies this, sink, sink.gate
      ensures var d := Drive(old(State()), events);
              State() == d.sp && names == d.names && got == if d.got.Some? then d.got.value else NO_RESPONSE
    {
      hide SpeechGates.Pushed;
      var responding := false;
      names := [];
      for i := 0 to |events|
        invariant Drive(old(State()), events[..i]) == Driven(State(), responding, names, None)
      {
        assert events[..i + 1][..i] == events[..i];
        var now := events[i].now;
        match events[i].event {
          case TextDelta(text) =>
            if !responding {
              responding := true;
              var _ := sink.TrySend(Status(Responding), 0);
            }
            var _ := sink.TrySend(Delta(text), now);
          case TextBlockEnd => sink.BeginTextBlock();
          case ToolUseEvent(name) => names := names + [name];
          case SegmentEnd(tool) =>
            fromProvider := true;
            Emit(tool);
          case Done(response) =>
            got := Ok(response);
            OverStays(old(State()), events, i + 1);
            return;
          case Broken(error) =>
            got := Err(error);
            OverStays(old(State()), events, i + 1);
            return;
        }
      }
      assert events[..|events|] == events;
      got := NO_RESPONSE;
    }
  }

  method SettleRound(env: Env, segments: Segments, r: Response, names: seq<string>, rounds: nat)
    requires segments.State().Valid()
    modifies segments, segments.sink, segments.sink.gate
    ensures segments.State() == BeforeFinish(env, old(segments.State()), r, names, rounds)
  {
    hide SpeechGates.Pushed;
    var sink := segments.sink;
    var survives := Survives(env, r, rounds);
    if survives && !segments.fromProvider {
      sink.FlushHeld();
      segments.EmitKept(true);
      segments.TellNames(names);
    } else if survives && sink.holding {
      sink.FlushHeld();
    }
    if sink.holding && (sink.everReleased || sink.gate.released > 0) {
      var (kept, truncated) := env.guard(r.content);
      if truncated {
        var _ := sink.FinishCut(TextOf(kept));
      }
    }
  }

  method CloseRound(env: Env, segments: Segments, r: Response, names: seq<string>, rounds: nat, outcome: RoundOutcome)
    requires segments.State().Valid()
    modifies segments, segments.sink, segments.sink.gate
    ensures segments.State() == AfterFinish(env, old(segments.State()), r, names, rounds, outcome)
  {
    hide SpeechGates.Pushed;
    match outcome {
      case TurnOver(result) =>
        if !result.wasTruncated {
          segments.sink.FlushHeld();
          if !segments.fromProvider && result.toolRounds > 0 {
            segments.EmitKept(false);
          }
        }
      case Continue =>
        if !(Survives(env, r, rounds) && !segments.fromProvider) {
          segments.sink.FlushHeld();
          if !segments.fromProvider {
            segments.EmitKept(true);
          }
          segments.TellNames(names);
        }
    }
  }

  method InvokeWithToolLoopStreaming(env: Env, history: History, sink: ProgressSink)
    returns (result: Result<ToolLoopResult>, calls: nat)
    requires sink.State().Valid()
    modifies history, sink, sink.gate
    ensures var speaker := Speaker(old(sink.State()), 0, false);
            var (turn, sp) := StreamLoop(env, NO_ROUNDS, old(history.messages), speaker, 0);
            && result == turn.result && history.messages == turn.history && calls == turn.calls
            && sink.State() == sp.sink
  {
    hide SpeechGates.Pushed, StreamRound;
    var rs := new RoundState();
    var segments := new Segments(sink);
    calls := 0;
    while true
      invariant fresh(rs) && fresh(segments) && segments.sink == sink
      invariant rs.rounds <= env.maxRounds && sink.State().Valid()
      invariant StreamLoop(env, rs.State(), history.messages, segments.State(), calls)
             == StreamLoop(env, NO_ROUNDS, old(history.messages), Speaker(old(sink.State()), 0, false), 0)
      decreases env.maxRounds - rs.rounds
    {
      StreamContinueCounts(env, rs.State(), history.messages, segments.State());
      var outcome := RunRound(env, rs, history, segments);
      calls := calls + 1;
      match outcome {
        case Err(e) => return Err(e), calls;
        case Ok(TurnOver(done)) => return Ok(done), calls;
        case Ok(Continue) =>
      }
    }
  }

  /** One pass of the loop. */
  method RunRound(env: Env, rs: RoundState, history: History, segments: Segments)
      returns (outcome: Result<RoundOutcome>)
    requires segments.State().Valid()
    modifies rs, history, segments, segments.sink, segments.sink.gate
    ensures var s := StreamRound(env, old(rs.State()), old(history.messages), old(segments.State()));
            && rs.State() == s.rs && history.messages == s.history && segments.State() == s.sp && outcome == s.outcome
  {
    hide SpeechGates.Pushed, RoundFinished, BeforeFinish, AfterFinish, Drive, RoundOpened;
    segments.OpenRound(rs.rounds);
    var got, names := segments.StreamOneRound(env.stream(history.messages));
    match got {
      case Err(e) => return Err(e);
      case Ok(r) =>
        var rounds := rs.rounds;
        SettleRound(env, segments, r, names, rounds);
        var decided := rs.FinishRound(env, r, history);
        CloseRound(env, segments, r, names, rounds, decided);
        return Ok(decided);
    }
  }

  /** Once the stream is over, later events change nothing. */
  lemma {:induction false} OverStays(sp: Speaker, events: seq<Timed>, n: nat)
    requires sp.Valid() && n <= |events| && Drive(sp, events[..n]).got.Some?
    ensures Drive(sp, events) == Drive(sp, events[..n])
    decreases |events|
  {
    if n < |events| {
      assert events[..|events| - 1][..n] == events[..n];
      OverStays(sp, events[..|events| - 1], n);
    } else {
      assert events[..n] == events;
    }
  }
}
