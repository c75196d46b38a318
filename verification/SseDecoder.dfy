/** The decoder of a provider's server-sent message stream
    (`src/anthropic_provider.rs`, `src/streaming.rs`). */
module SseDecoders {
  import opened Text
  import opened Messages

  newtype byte = x: int | 0 <= x < 256

  /** The decoding of bytes and of JSON, which this model leaves open. */
  datatype Codec = Codec(lossy: seq<byte> -> string, parse: string -> Option<Json>)

  // ---- Events ----

  datatype Tool = Tool(id: string, name: string, input: Json)

  function UseOf(tool: Tool): Block { ToolUse(tool.id, tool.name, tool.input) }

  datatype Event =
    | TextDelta(text: string)
    | ToolEvent(tool: Tool)
    | Done(response: Response)
    | Error(why: string)
    | Refused(model: string, detail: string)

  /** Everything but the buffer. */
  datatype Reply = Reply(
    textParts: seq<string>,
    toolUses: seq<Tool>,
    toolId: string,
    toolName: string,
    toolInput: string,
    model: string,
    inputTokens: Option<nat>,
    outputTokens: Option<nat>,
    stop: StopReason,
    sawDelta: bool,
    finished: bool)

  datatype Decoder = Decoder(buffer: seq<byte>, reply: Reply)

  function NewReply(model: string): Reply { Reply([], [], "", "", "", model, None, None, EndTurn, false, false) }

  function New(model: string): Decoder { Decoder([], NewReply(model)) }

  // ---- One event ----

  datatype Kind =
    NoKind | MessageStart | BlockStart | BlockDelta | BlockStop | MessageDelta | MessageStop | Ping | Unknown

  function KindOf(name: string): Kind {
    match name
    case "message_start" => MessageStart
    case "content_block_start" => BlockStart
    case "content_block_delta" => BlockDelta
    case "content_block_stop" => BlockStop
    case "message_delta" => MessageDelta
    case "message_stop" => MessageStop
    case "ping" => Ping
    case _ => Unknown
  }

  /** Kind and data of an event: the last line of each wins. */
  datatype Frame = Frame(kind: Kind, data: string)

  const EVENT := "event: "
  const DATA := "data: "

  function WithLine(f: Frame, line: string): Frame {
    if EVENT <= line then f.(kind := KindOf(Trim(line[|EVENT|..])))
    else if DATA <= line then f.(data := line[|DATA|..])
    else f
  }

  function FrameOf(lines: seq<string>): Frame {
    if lines == [] then Frame(NoKind, "") else WithLine(FrameOf(lines[..|lines| - 1]), lines[|lines| - 1])
  }

  method ReadFrame(text: string) returns (f: Frame)
    ensures f == FrameOf(Lines(text))
  {
    var lines := Lines(text);
    f := Frame(NoKind, "");
    for i := 0 to |lines|
      invariant f == FrameOf(lines[..i])
    {
      assert lines[..i + 1][..i] == lines[..i];
      f := WithLine(f, lines[i]);
    }
    assert lines[..|lines|] == lines;
  }

  /** What a `message_delta` says about the end of the turn. */
  datatype Verdict =
    | Unparsable
    | Refusal(category: Option<string>)
    | UnknownStop
    | Known(stop: StopReason, outputTokens: Option<nat>)

  function StopReasonOf(name: string): Option<StopReason> {
    match name
    case "end_turn" => Some(EndTurn)
    case "tool_use" => Some(ToolUseStop)
    case "max_tokens" => Some(MaxTokens)
    case "stop_sequence" => Some(StopSequence)
    case _ => None
  }

  function Judge(codec: Codec, data: string): Verdict {
    var json := codec.parse(data);
    if json.None? then Unparsable
    else
      var delta := json.value.At("delta");
      var reason := delta.At("stop_reason").AsStr();
      if reason == Some("refusal") then Refusal(delta.At("stop_details").At("category").AsStr())
      else
        var stop := if reason.Some? then StopReasonOf(reason.value) else None;
        if stop.None? then UnknownStop
        else Known(stop.value, json.value.At("usage").At("output_tokens").AsU32())
  }

  /** `message_delta_event`. */
  function DeltaDecoded(codec: Codec, d: Reply, data: string): (Reply, Option<Event>) {
    match Judge(codec, data)
    case Unparsable => (d.(finished := true), Some(Error("message_delta did not parse")))
    case Refusal(category) =>
      (d.(sawDelta := true, finished := true),
       Some(Refused(d.model, if category.Some? then "refusal (" + category.value + ")" else "refusal")))
    case UnknownStop => (d.(finished := true), Some(Error("unknown stop reason")))
    case Known(stop, tokens) => (d.(sawDelta := true, stop := stop, outputTokens := tokens), None)
  }

  /** `streaming::assemble_response`. */
  function Assemble(d: Reply): Response {
    var text := Concat(d.textParts);
    Response((if text == "" then [] else [TextBlock(text)]) +
             seq(|d.toolUses|, i requires 0 <= i < |d.toolUses| => UseOf(d.toolUses[i])),
             d.stop, d.model, d.inputTokens, d.outputTokens)
  }

  function StartDecoded(d: Reply, json: Json): Reply {
    var message := json.At("message");
    d.(model := message.At("model").AsStrOr(d.model),
       inputTokens := message.At("usage").At("input_tokens").AsU32())
  }

  function BlockStartDecoded(d: Reply, json: Json): Reply {
    var block := json.At("content_block");
    if block.At("type") == Str("tool_use") then
      d.(toolId := block.At("id").AsStrOr(""), toolName := block.At("name").AsStrOr(""), toolInput := "")
    else d
  }

  function BlockDeltaDecoded(d: Reply, json: Json): (Reply, Option<Event>) {
    var delta := json.At("delta");
    if delta.At("type") == Str("text_delta") then
      var text := delta.At("text").AsStr();
      if text.Some? then (d.(textParts := d.textParts + [text.value]), Some(TextDelta(text.value))) else (d, None)
    else if delta.At("type") == Str("input_json_delta") then
      (d.(toolInput := d.toolInput + delta.At("partial_json").AsStrOr("")), None)
    else (d, None)
  }

  function BlockStopDecoded(codec: Codec, d: Reply): (Reply, Option<Event>) {
    if d.toolName == "" then (d, None)
    else
      var parsed := codec.parse(d.toolInput);
      var tool := Tool(d.toolId, d.toolName, if parsed.Some? then parsed.value else Obj(map[]));
      (d.(toolUses := d.toolUses + [tool], toolId := "", toolName := "", toolInput := ""), Some(ToolEvent(tool)))
  }

  function StopDecoded(d: Reply): (Reply, Option<Event>) {
    if !d.sawDelta then (d.(finished := true), Some(Error("stream ended without a stop reason")))
    else (d, Some(Done(Assemble(d))))
  }

  /** `decode_event`. */
  function Decoded(codec: Codec, d: Reply, text: string): (Reply, Option<Event>) {
    var f := FrameOf(Lines(text));
    if f.data == "" || f.kind == Ping then (d, None)
    else if f.kind == MessageDelta then DeltaDecoded(codec, d, f.data)
    else
      var json := codec.parse(f.data);
      if json.None? then (d, None)
      else
        match f.kind
        case MessageStart => (StartDecoded(d, json.value), None)
        case BlockStart => (BlockStartDecoded(d, json.value), None)
        case BlockDelta => BlockDeltaDecoded(d, json.value)
        case BlockStop => BlockStopDecoded(codec, d)
        case MessageStop => StopDecoded(d)
        case _ => (d, None)
  }

  // ---- The byte stream ----

  const LF: byte := 10

  predicate BreakAt(bytes: seq<byte>, i: nat) { i + 2 <= |bytes| && bytes[i] == LF && bytes[i + 1] == LF }

  /** The first pair of line feeds at or after `from`. */
  function BreakFrom(bytes: seq<byte>, from: nat): (r: Option<nat>)
    ensures r.Some? ==> from <= r.value && BreakAt(bytes, r.value)
    ensures forall k: nat :: from <= k && BreakAt(bytes, k) ==> r.Some? && r.value <= k
    decreases |bytes| - from
  {
    if from + 2 > |bytes| then None else if BreakAt(bytes, from) then Some(from) else BreakFrom(bytes, from + 1)
  }

  function FindBreak(bytes: seq<byte>): (r: Option<nat>)
    ensures r.Some? ==> r.value + 2 <= |bytes|
  {
    BreakFrom(bytes, 0)
  }

  method Position(bytes: seq<byte>) returns (r: Option<nat>)
    ensures r == FindBreak(bytes)
  {
    var i := 0;
    while i + 2 <= |bytes|
      invariant BreakFrom(bytes, 0) == BreakFrom(bytes, i)
    {
      if bytes[i] == LF && bytes[i + 1] == LF {
        return Some(i);
      }
      i := i + 1;
    }
    return None;
  }

  function Opt(e: Option<Event>): seq<Event> { if e.Some? then [e.value] else [] }

  /** Decode every complete event in the buffer, up to one that finishes. */
  function Drained(codec: Codec, d: Decoder): (r: (Decoder, seq<Event>))
    decreases |d.buffer|
  {
    var at := FindBreak(d.buffer);
    if at.None? then (d, [])
    else
      var rest := d.buffer[at.value + 2..];
      var (reply, event) := Decoded(codec, d.reply, codec.lossy(d.buffer[..at.value]));
      if event.Some? && reply.finished then (Decoder(rest, reply), [event.value])
      else
        var (end, more) := Drained(codec, Decoder(rest, reply));
        (end, Opt(event) + more)
  }

  /** `feed`. */
  function Fed(codec: Codec, d: Decoder, bytes: seq<byte>): (Decoder, seq<Event>) {
    if d.reply.finished then (d, []) else Drained(codec, d.(buffer := d.buffer + bytes))
  }

  lemma DrainedStep(codec: Codec, d: Decoder, sent: seq<Event>)
    requires FindBreak(d.buffer).Some?
    ensures var at := FindBreak(d.buffer).value;
            var (reply, event) := Decoded(codec, d.reply, codec.lossy(d.buffer[..at]));
            var rest := Decoder(d.buffer[at + 2..], reply);
            var (end, more) := Drained(codec, d);
            if event.Some? && reply.finished then end == rest && sent + more == sent + [event.value]
            else end == Drained(codec, rest).0 && sent + more == sent + Opt(event) + Drained(codec, rest).1
  {
    hide Decoded;
    var at := FindBreak(d.buffer).value;
    var (reply, event) := Decoded(codec, d.reply, codec.lossy(d.buffer[..at]));
    var more := Drained(codec, Decoder(d.buffer[at + 2..], reply)).1;
    assert sent + (Opt(event) + more) == sent + Opt(event) + more;
  }

  class SseDecoder {
    const codec: Codec
    var buffer: seq<byte>
    var textParts: seq<string>
    var toolUses: seq<Tool>
    var toolId: string
    var toolName: string
    var toolInput: string
    var model: string
    var inputTokens: Option<nat>
    var outputTokens: Option<nat>
    var stop: StopReason
    var sawDelta: bool
    var finished: bool

    function SoFar(): Reply
      reads this
    {
      Reply(textParts, toolUses, toolId, toolName, toolInput, model, inputTokens, outputTokens, stop, sawDelta,
          finished)
    }

    function State(): Decoder
      reads this
    {
      Decoder(buffer, SoFar())
    }

    constructor (codec: Codec, model: string)
      ensures this.codec == codec && State() == New(model)
    {
      this.codec, this.model := codec, model;
      buffer, textParts, toolUses, toolId, toolName, toolInput := [], [], [], "", "", "";
      inputTokens, outputTokens, stop, sawDelta, finished := None, None, EndTurn, false, false;
    }

    method Feed(bytes: seq<byte>) returns (events: seq<Event>)
      modifies this
      ensures (State(), events) == Fed(codec, old(State()), bytes)
    {
      hide Decoded, FindBreak, Drained;
      if finished {
        return [];
      }
      buffer := buffer + bytes;
      ghost var all := Drained(codec, State());
      events := [];
      assert events + all.1 == all.1;
      var at := Position(buffer);
      while at.Some?
        invariant at == FindBreak(buffer)
        invariant at.Some? ==> at.value + 2 <= |buffer|
        invariant all == (Drained(codec, State()).0, events + Drained(codec, State()).1)
        decreases |buffer|
      {
        DrainedStep(codec, State(), events);
        assert events + [] == events;
        var text := codec.lossy(buffer[..at.value]);
        buffer := buffer[at.value + 2..];
        var event := DecodeEvent(text);
        if event.Some? {
          events := events + [event.value];
          if finished {
            return;
          }
        }
        at := Position(buffer);
      }
      DrainedDone(codec, State());
      assert events + [] == events;
    }

    method DecodeEvent(text: string) returns (event: Option<Event>)
      modifies this
      ensures buffer == old(buffer) && (SoFar(), event) == Decoded(codec, old(SoFar()), text)
    {
      hide KindOf, Lines, FrameOf, DeltaDecoded, BlockDeltaDecoded, BlockStopDecoded, StopDecoded;
      event := None;
      var f := ReadFrame(text);
      if f.data == "" || f.kind == Ping {
        return;
      }
      if f.kind == MessageDelta {
        event := MessageDeltaEvent(f.data);
        return;
      }
      var parsed := codec.parse(f.data);
      if parsed.None? {
        return;
      }
      var json := parsed.value;
      match f.kind {
        case MessageStart =>
          var message := json.At("message");
          model := message.At("model").AsStrOr(model);
          inputTokens := message.At("usage").At("input_tokens").AsU32();
        case BlockStart =>
          var block := json.At("content_block");
          if block.At("type") == Str("tool_use") {
            toolId, toolName, toolInput := block.At("id").AsStrOr(""), block.At("name").AsStrOr(""), "";
          }
        case BlockDelta =>
          event := ContentDeltaEvent(json.At("delta"));
        case BlockStop =>
          event := ContentStopEvent();
        case MessageStop =>
          event := MessageStopEvent();
        case _ =>
      }
    }

    method ContentDeltaEvent(delta: Json) returns (event: Option<Event>)
      modifies `textParts, `toolInput
      ensures forall json: Json :: json.At("delta") == delta ==>
              (SoFar(), event) == BlockDeltaDecoded(old(SoFar()), json)
    {
      event := None;
      if delta.At("type") == Str("text_delta") {
        var text := delta.At("text").AsStr();
        if text.Some? {
          textParts := textParts + [text.value];
          event := Some(TextDelta(text.value));
        }
      } else if delta.At("type") == Str("input_json_delta") {
        toolInput := toolInput + delta.At("partial_json").AsStrOr("");
      }
    }

    method MessageStopEvent() returns (event: Option<Event>)
      modifies `finished
      ensures (SoFar(), event) == StopDecoded(old(SoFar()))
    {
      if !sawDelta {
        finished := true;
        return Some(Error("stream ended without a stop reason"));
      }
      return Some(Done(Assemble(SoFar())));
    }

    method ContentStopEvent() returns (event: Option<Event>)
      modifies `toolUses, `toolId, `toolName, `toolInput
      ensures (SoFar(), event) == BlockStopDecoded(codec, old(SoFar()))
    {
      if toolName == "" {
        return None;
      }
      var parsed := codec.parse(toolInput);
      var tool := Tool(toolId, toolName, if parsed.Some? then parsed.value else Obj(map[]));
      toolUses := toolUses + [tool];
      toolId, toolName, toolInput := "", "", "";
      return Some(ToolEvent(tool));
    }

    method MessageDeltaEvent(data: string) returns (event: Option<Event>)
      modifies `sawDelta, `finished, `stop, `outputTokens
      ensures (SoFar(), event) == DeltaDecoded(codec, old(SoFar()), data)
    {
      hide Judge;
      match Judge(codec, data) {
        case Unparsable =>
          finished := true;
          return Some(Error("message_delta did not parse"));
        case Refusal(category) =>
          sawDelta := true;
          finished := true;
          return Some(Refused(model, if category.Some? then "refusal (" + category.value + ")" else "refusal"));
        case UnknownStop =>
          finished := true;
          return Some(Error("unknown stop reason"));
        case Known(reason, tokens) =>
          sawDelta := true;
          stop := reason;
          outputTokens := tokens;
          return None;
      }
    }
  }

  lemma DrainedDone(codec: Codec, d: Decoder)
    requires FindBreak(d.buffer).None?
    ensures Drained(codec, d) == (d, [])
  {
  }
}
