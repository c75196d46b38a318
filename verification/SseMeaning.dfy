/** What the events of a stream mean: a reference that looks back over the frames
    read so far and keeps no accumulators, and the proof that the decoder yields
    just that (`src/anthropic_provider.rs`). */
module SseMeanings {
  import opened Text
  import opened Messages
  import opened SseDecoders
  import opened SseProperties

  // ---- A frame ----

  /** The rest of the last line that begins with `prefix`. */
  function LastField(lines: seq<string>, prefix: string): Option<string> {
    if lines == [] then None
    else
      var last := lines[|lines| - 1];
      if prefix <= last then Some(last[|prefix|..]) else LastField(lines[..|lines| - 1], prefix)
  }

  function NameOf(text: string): string {
    var name := LastField(Lines(text), "event: ");
    if name.Some? then Trim(name.value) else ""
  }

  function DataOf(text: string): string {
    var data := LastField(Lines(text), "data: ");
    if data.Some? then data.value else ""
  }

  /** The frame is of this kind and has data. */
  predicate Is(text: string, name: string) { NameOf(text) == name && DataOf(text) != "" }

  function BodyOf(codec: Codec, text: string): Option<Json> { codec.parse(DataOf(text)) }

  /** The frame is of this kind and its data parses. */
  predicate Reads(codec: Codec, text: string, name: string) { Is(text, name) && BodyOf(codec, text).Some? }

  function StringAt(json: Json, key: string): string { if json.At(key).Str? then json.At(key).s else "" }

  // ---- What single frames say ----

  predicate StartsTool(codec: Codec, text: string) {
    Reads(codec, text, "content_block_start")
    && BodyOf(codec, text).value.At("content_block").At("type") == Str("tool_use")
  }

  function ToolIdOf(codec: Codec, text: string): string
    requires StartsTool(codec, text)
  {
    StringAt(BodyOf(codec, text).value.At("content_block"), "id")
  }

  function ToolNameOf(codec: Codec, text: string): string
    requires StartsTool(codec, text)
  {
    StringAt(BodyOf(codec, text).value.At("content_block"), "name")
  }

  predicate StopsBlock(codec: Codec, text: string) { Reads(codec, text, "content_block_stop") }

  /** The piece of a tool's input that a frame carries. */
  function InputOf(codec: Codec, text: string): string {
    if Reads(codec, text, "content_block_delta")
       && BodyOf(codec, text).value.At("delta").At("type") == Str("input_json_delta")
    then StringAt(BodyOf(codec, text).value.At("delta"), "partial_json") else ""
  }

  function InputsOf(codec: Codec, texts: seq<string>): string {
    if texts == [] then "" else InputsOf(codec, texts[..|texts| - 1]) + InputOf(codec, texts[|texts| - 1])
  }

  /** The text that a frame carries. */
  function SaidBy(codec: Codec, text: string): Option<string> {
    if Reads(codec, text, "content_block_delta")
       && BodyOf(codec, text).value.At("delta").At("type") == Str("text_delta")
       && BodyOf(codec, text).value.At("delta").At("text").Str?
    then Some(BodyOf(codec, text).value.At("delta").At("text").s) else None
  }

  /** Why a `message_delta` says the turn stopped. */
  function StopWord(codec: Codec, text: string): Option<string> {
    if BodyOf(codec, text).None? then None
    else
      var reason := BodyOf(codec, text).value.At("delta").At("stop_reason");
      if reason.Str? then Some(reason.s) else None
  }

  /** The stop reasons and their words. */
  predicate Named(stop: StopReason, word: string) {
    || (stop == EndTurn && word == "end_turn")
    || (stop == ToolUseStop && word == "tool_use")
    || (stop == MaxTokens && word == "max_tokens")
    || (stop == StopSequence && word == "stop_sequence")
  }

  predicate AcceptsStop(codec: Codec, text: string) {
    Is(text, "message_delta") && StopWord(codec, text).Some?
    && StopWord(codec, text).value in {"end_turn", "tool_use", "max_tokens", "stop_sequence"}
  }

  function NumberAt(json: Json, key: string): Option<nat> {
    if json.At(key).U64? then Some(json.At(key).n % 0x1_0000_0000) else None
  }

  // ---- Looking back ----

  /** A tool block begun at `s` is still open after `texts`. */
  ghost predicate OpenAt(codec: Codec, texts: seq<string>, s: nat) {
    && s < |texts| && StartsTool(codec, texts[s]) && ToolNameOf(codec, texts[s]) != ""
    && forall j :: s < j < |texts| ==> !StartsTool(codec, texts[j]) && !StopsBlock(codec, texts[j])
  }

  /** The tool that a `content_block_stop` after `texts` completes. */
  ghost predicate Completes(codec: Codec, texts: seq<string>, tool: Tool) {
    exists s: nat :: OpenAt(codec, texts, s)
                     && tool.id == ToolIdOf(codec, texts[s]) && tool.name == ToolNameOf(codec, texts[s])
                && var parsed := codec.parse(InputsOf(codec, texts[s + 1..]));
                   tool.input == if parsed.Some? then parsed.value else Obj(map[])
  }

  /** The model named by the last `message_start` that names one. */
  function ModelAfter(codec: Codec, model: string, texts: seq<string>): string {
    if texts == [] then model
    else
      var last := texts[|texts| - 1];
      if Reads(codec, last, "message_start") && BodyOf(codec, last).value.At("message").At("model").Str?
      then BodyOf(codec, last).value.At("message").At("model").s
      else ModelAfter(codec, model, texts[..|texts| - 1])
  }

  /** The input tokens of the last `message_start`. */
  function TokensAfter(codec: Codec, texts: seq<string>): Option<nat> {
    if texts == [] then None
    else
      var last := texts[|texts| - 1];
      if Reads(codec, last, "message_start") then
        NumberAt(BodyOf(codec, last).value.At("message").At("usage"), "input_tokens")
      else TokensAfter(codec, texts[..|texts| - 1])
  }

  /** What a response after `texts` must say, its content aside. */
  ghost predicate Says(codec: Codec, model: string, texts: seq<string>, r: Response) {
    && r.model == ModelAfter(codec, model, texts) && r.inputTokens == TokensAfter(codec, texts)
    && exists k :: 0 <= k < |texts| && AcceptsStop(codec, texts[k])
                   && (forall j :: k < j < |texts| ==> !AcceptsStop(codec, texts[j]))
                   && Named(r.stop, StopWord(codec, texts[k]).value)
                   && r.outputTokens == NumberAt(BodyOf(codec, texts[k]).value.At("usage"), "output_tokens")
  }

  /** What the frame `text` means after `texts` and the events they meant. */
  ghost predicate Means(codec: Codec, model: string, texts: seq<string>, events: seq<Event>, text: string,
                        e: Option<Event>) {
    if Is(text, "message_delta") then
      var word := StopWord(codec, text);
      if BodyOf(codec, text).None? then e == Some(Error("message_delta did not parse"))
      else if word == Some("refusal") then
        var category := BodyOf(codec, text).value.At("delta").At("stop_details").At("category");
        e == Some(Refused(ModelAfter(codec, model, texts),
                           if category.Str? then "refusal (" + category.s + ")" else "refusal"))
      else if AcceptsStop(codec, text) then e == None
      else e == Some(Error("unknown stop reason"))
    else if SaidBy(codec, text).Some? then e == Some(TextDelta(SaidBy(codec, text).value))
    else if StopsBlock(codec, text) then
      if exists s: nat :: OpenAt(codec, texts, s) then
        e.Some? && e.value.ToolEvent? && Completes(codec, texts, e.value.tool)
      else e == None
    else if Reads(codec, text, "message_stop") then
      if exists k :: 0 <= k < |texts| && AcceptsStop(codec, texts[k])
      then
        e.Some? && e.value.Done? && Says(codec, model, texts, e.value.response) && CarriesAll(e.value.response, events)
      else e == Some(Error("stream ended without a stop reason"))
    else e == None
  }

  // ---- Frames are read as such ----

  lemma {:induction false} FrameFields(lines: seq<string>)
    ensures var f, event, data := FrameOf(lines), LastField(lines, "event: "), LastField(lines, "data: ");
            && f.data == (if data.Some? then data.value else "")
            && f.kind == if event.Some? then KindOf(Trim(event.value)) else NoKind
    decreases |lines|
  {
    hide KindOf, Trim;
    if lines != [] {
      FrameFields(lines[..|lines| - 1]);
      var last := lines[|lines| - 1];
      assert EVENT <= last ==> last[0] == 'e';
      assert DATA <= last ==> last[0] == 'd';
    }
  }

  lemma KindsAreNamed(name: string)
    ensures (KindOf(name) == MessageStart <==> name == "message_start")
         && (KindOf(name) == BlockStart <==> name == "content_block_start")
         && (KindOf(name) == BlockDelta <==> name == "content_block_delta")
         && (KindOf(name) == BlockStop <==> name == "content_block_stop")
         && (KindOf(name) == MessageDelta <==> name == "message_delta")
         && (KindOf(name) == MessageStop <==> name == "message_stop")
         && (KindOf(name) == Ping <==> name == "ping") && KindOf(name) != NoKind
  {
  }

  /** The frame's kind and data, by name. */
  lemma FrameIs(text: string)
    ensures var f := FrameOf(Lines(text));
            && f.data == DataOf(text)
            && (f.kind == MessageStart <==> NameOf(text) == "message_start")
            && (f.kind == BlockStart <==> NameOf(text) == "content_block_start")
            && (f.kind == BlockDelta <==> NameOf(text) == "content_block_delta")
            && (f.kind == BlockStop <==> NameOf(text) == "content_block_stop")
            && (f.kind == MessageDelta <==> NameOf(text) == "message_delta")
            && (f.kind == MessageStop <==> NameOf(text) == "message_stop")
            && (f.kind == Ping <==> NameOf(text) == "ping")
  {
    hide KindOf, Trim, Lines, FrameOf, LastField;
    FrameFields(Lines(text));
    KindsAreNamed(NameOf(text));
  }

  lemma StopsAreNamed(name: string)
    ensures StopReasonOf(name).Some? <==> name in {"end_turn", "tool_use", "max_tokens", "stop_sequence"}
    ensures StopReasonOf(name).Some? ==> Named(StopReasonOf(name).value, name)
  {
  }

  /** The verdict on a `message_delta`. */
  lemma JudgeReads(codec: Codec, text: string)
    requires Is(text, "message_delta")
    ensures var v, word := Judge(codec, DataOf(text)), StopWord(codec, text);
            && (v.Unparsable? <==> BodyOf(codec, text).None?)
            && (v.Refusal? <==> word == Some("refusal"))
            && (v.Refusal? ==>
                  v.category == BodyOf(codec, text).value.At("delta").At("stop_details").At("category").AsStr())
            && (v.Known? <==> AcceptsStop(codec, text))
            && (v.Known? ==> Named(v.stop, word.value)
                             && v.outputTokens == NumberAt(BodyOf(codec, text).value.At("usage"), "output_tokens"))
  {
    hide LastField, Lines, Trim, StopReasonOf, Named;
    if StopWord(codec, text).Some? { StopsAreNamed(StopWord(codec, text).value); }
  }

  // ---- The accumulators look back ----

  ghost predicate ToolAgrees(codec: Codec, r: Reply, texts: seq<string>) {
    && (r.toolName != "" <==> exists s: nat :: OpenAt(codec, texts, s))
    && (forall s: nat :: OpenAt(codec, texts, s) ==>
          r.toolId == ToolIdOf(codec, texts[s]) && r.toolName == ToolNameOf(codec, texts[s])
          && r.toolInput == InputsOf(codec, texts[s + 1..]))
  }

  /** The last accepted `message_delta` is at `k`. */
  ghost predicate LastAccepted(codec: Codec, texts: seq<string>, k: nat) {
    k < |texts| && AcceptsStop(codec, texts[k]) && forall j :: k < j < |texts| ==> !AcceptsStop(codec, texts[j])
  }

  ghost predicate StopAgrees(codec: Codec, r: Reply, texts: seq<string>) {
    && (r.sawDelta <==> exists k: nat :: LastAccepted(codec, texts, k))
    && (forall k: nat :: LastAccepted(codec, texts, k) ==>
          Named(r.stop, StopWord(codec, texts[k]).value)
          && r.outputTokens == NumberAt(BodyOf(codec, texts[k]).value.At("usage"), "output_tokens"))
  }

  ghost predicate Agrees(codec: Codec, model: string, r: Reply, texts: seq<string>, events: seq<Event>) {
    && !r.finished && r.textParts == DeltaTexts(events) && r.toolUses == ToolsOf(events)
    && r.model == ModelAfter(codec, model, texts) && r.inputTokens == TokensAfter(codec, texts)
    && ToolAgrees(codec, r, texts) && StopAgrees(codec, r, texts)
  }

  lemma OpenPush(codec: Codec, texts: seq<string>, text: string, s: nat)
    ensures OpenAt(codec, texts + [text], s) <==>
            if s == |texts| then StartsTool(codec, text) && ToolNameOf(codec, text) != ""
            else OpenAt(codec, texts, s) && !StartsTool(codec, text) && !StopsBlock(codec, text)
  {
    hide StartsTool, StopsBlock;
    var all := texts + [text];
    if s < |texts| {
      assert all[s] == texts[s];
      assert forall j :: s < j < |texts| ==> all[j] == texts[j];
      assert all[|texts|] == text;
    }
  }

  lemma InputsPush(codec: Codec, texts: seq<string>, text: string, s: nat)
    requires s < |texts|
    ensures InputsOf(codec, (texts + [text])[s + 1..]) == InputsOf(codec, texts[s + 1..]) + InputOf(codec, text)
  {
    assert (texts + [text])[s + 1..] == texts[s + 1..] + [text];
    assert (texts[s + 1..] + [text])[..|texts[s + 1..]|] == texts[s + 1..];
  }

  /** What one frame does to the tool being collected. */
  lemma ToolStays(codec: Codec, r: Reply, after: Reply, texts: seq<string>, text: string)
    requires ToolAgrees(codec, r, texts)
    requires if StartsTool(codec, text)
             then
               && after.toolId == ToolIdOf(codec, text) && after.toolName == ToolNameOf(codec, text)
               && after.toolInput == ""
             else if StopsBlock(codec, text) then after.toolName == ""
             else after.toolId == r.toolId && after.toolName == r.toolName
                  && after.toolInput == r.toolInput + InputOf(codec, text)
    ensures ToolAgrees(codec, after, texts + [text])
  {
    hide StartsTool, StopsBlock, InputOf, ToolIdOf, ToolNameOf, OpenAt;
    var all := texts + [text];
    forall s: nat
      ensures OpenAt(codec, all, s) <==>
              if s == |texts| then StartsTool(codec, text) && ToolNameOf(codec, text) != ""
              else OpenAt(codec, texts, s) && !StartsTool(codec, text) && !StopsBlock(codec, text)
      ensures OpenAt(codec, texts, s) ==> s < |texts| && StartsTool(codec, texts[s])
      ensures OpenAt(codec, all, s) ==> s < |all| && StartsTool(codec, all[s])
    {
      OpenPush(codec, texts, text, s);
      if OpenAt(codec, texts, s) { OpenInside(codec, texts, s); }
      if OpenAt(codec, all, s) { OpenInside(codec, all, s); }
    }
    if StartsTool(codec, text) {
      assert all[|texts| + 1..] == [] && all[|texts|] == text;
      if after.toolName != "" { assert OpenAt(codec, all, |texts|); }
    } else if !StopsBlock(codec, text) {
      if s: nat :| OpenAt(codec, texts, s) { assert OpenAt(codec, all, s); }
      forall s: nat | OpenAt(codec, all, s)
        ensures after.toolId == ToolIdOf(codec, all[s]) && after.toolName == ToolNameOf(codec, all[s])
        ensures after.toolInput == InputsOf(codec, all[s + 1..])
      {
        InputsPush(codec, texts, text, s);
        assert all[s] == texts[s];
      }
    }
  }

  lemma OpenInside(codec: Codec, texts: seq<string>, s: nat)
    requires OpenAt(codec, texts, s)
    ensures s < |texts| && StartsTool(codec, texts[s])
  {
  }

  lemma AcceptedPush(codec: Codec, texts: seq<string>, text: string, k: nat)
    ensures LastAccepted(codec, texts + [text], k) <==>
            if k == |texts| then AcceptsStop(codec, text)
            else LastAccepted(codec, texts, k) && !AcceptsStop(codec, text)
  {
    hide AcceptsStop;
    var all := texts + [text];
    if k < |texts| {
      assert all[k] == texts[k] && all[|texts|] == text;
      assert forall j :: k < j < |texts| ==> all[j] == texts[j];
    }
  }

  lemma StopStays(codec: Codec, r: Reply, after: Reply, texts: seq<string>, text: string)
    requires StopAgrees(codec, r, texts)
    requires if AcceptsStop(codec, text)
             then after.sawDelta && Named(after.stop, StopWord(codec, text).value)
                  && after.outputTokens == NumberAt(BodyOf(codec, text).value.At("usage"), "output_tokens")
             else after.sawDelta == r.sawDelta && after.stop == r.stop && after.outputTokens == r.outputTokens
    ensures StopAgrees(codec, after, texts + [text])
  {
    hide Named, NumberAt, LastAccepted, AcceptsStop;
    var all := texts + [text];
    forall k: nat
      ensures LastAccepted(codec, all, k) <==>
              if k == |texts| then AcceptsStop(codec, text)
              else LastAccepted(codec, texts, k) && !AcceptsStop(codec, text)
      ensures LastAccepted(codec, texts, k) ==> k < |texts| && StopWord(codec, texts[k]).Some?
      ensures LastAccepted(codec, all, k) ==>
                k < |all| && StopWord(codec, all[k]).Some? && BodyOf(codec, all[k]).Some?
    {
      AcceptedPush(codec, texts, text, k);
      if LastAccepted(codec, texts, k) { AcceptedInside(codec, texts, k); }
      if LastAccepted(codec, all, k) { AcceptedInside(codec, all, k); }
    }
    assert all[|texts|] == text;
    if AcceptsStop(codec, text) {
      assert LastAccepted(codec, all, |texts|);
    } else if k: nat :| LastAccepted(codec, texts, k) {
      assert LastAccepted(codec, all, k);
    }
    forall k: nat | LastAccepted(codec, all, k)
      ensures Named(after.stop, StopWord(codec, all[k]).value)
      ensures after.outputTokens == NumberAt(BodyOf(codec, all[k]).value.At("usage"), "output_tokens")
    {
      if k != |texts| { assert all[k] == texts[k]; }
    }
  }

  lemma AcceptedInside(codec: Codec, texts: seq<string>, k: nat)
    requires LastAccepted(codec, texts, k)
    ensures k < |texts| && AcceptsStop(codec, texts[k])
    ensures StopWord(codec, texts[k]).Some? && BodyOf(codec, texts[k]).Some?
  {
  }

  // ---- One frame ----

  /** The decoder reads a frame of the tool being collected. */
  lemma DecodesTool(codec: Codec, r: Reply, texts: seq<string>, text: string)
    requires ToolAgrees(codec, r, texts)
    ensures var (after, event) := Decoded(codec, r, text);
            && ToolAgrees(codec, after, texts + [text])
            && (StopsBlock(codec, text) ==>
                  if exists s: nat :: OpenAt(codec, texts, s)
                  then event.Some? && event.value.ToolEvent? && Completes(codec, texts, event.value.tool)
                  else event == None)
  {
    hide FrameOf, Lines, DataOf, NameOf, OpenAt, ToolAgrees, InputsOf;
    FrameIs(text);
    var (after, event) := Decoded(codec, r, text);
    ToolStays(codec, r, after, texts, text);
    if StopsBlock(codec, text) { StopCompletes(codec, r, texts); }
  }

  lemma StopCompletes(codec: Codec, r: Reply, texts: seq<string>)
    requires ToolAgrees(codec, r, texts)
    ensures var event := BlockStopDecoded(codec, r).1;
            if exists s: nat :: OpenAt(codec, texts, s)
            then event.Some? && event.value.ToolEvent? && Completes(codec, texts, event.value.tool)
            else event == None
  {
    hide OpenAt, InputsOf, StartsTool;
    if s: nat :| OpenAt(codec, texts, s) {
      OpenInside(codec, texts, s);
    }
  }

  /** The decoder reads a frame about the end of the turn. */
  lemma DecodesStop(codec: Codec, model: string, r: Reply, texts: seq<string>, text: string)
    requires StopAgrees(codec, r, texts) && !r.finished && r.model == ModelAfter(codec, model, texts)
    ensures var (after, event) := Decoded(codec, r, text);
            && (!after.finished ==> StopAgrees(codec, after, texts + [text]))
            && (Is(text, "message_delta") ==>
                  var word := StopWord(codec, text);
                  if BodyOf(codec, text).None? then event == Some(Error("message_delta did not parse"))
                  else if word == Some("refusal") then
                    var category := BodyOf(codec, text).value.At("delta").At("stop_details").At("category");
                    event == Some(Refused(ModelAfter(codec, model, texts),
                                          if category.Str? then "refusal (" + category.s + ")" else "refusal"))
                  else if AcceptsStop(codec, text) then event == None
                  else event == Some(Error("unknown stop reason")))
  {
    hide FrameOf, Lines, DataOf, NameOf, StopAgrees, ToolAgrees, Named, Judge, ModelAfter;
    FrameIs(text);
    if Is(text, "message_delta") { JudgeReads(codec, text); }
    var (after, event) := Decoded(codec, r, text);
    if !after.finished { StopStays(codec, r, after, texts, text); }
  }

  /** The decoder reads the names and counts of a message. */
  lemma DecodesStart(codec: Codec, model: string, r: Reply, texts: seq<string>, text: string)
    requires r.model == ModelAfter(codec, model, texts) && r.inputTokens == TokensAfter(codec, texts)
    ensures var after := Decoded(codec, r, text).0;
            && after.model == ModelAfter(codec, model, texts + [text])
            && after.inputTokens == TokensAfter(codec, texts + [text])
  {
    hide Decoded, DataOf, NameOf;
    StartReads(codec, r, text);
    assert (texts + [text])[..|texts + [text]| - 1] == texts;
  }

  lemma StartReads(codec: Codec, r: Reply, text: string)
    ensures var after := Decoded(codec, r, text).0;
            if Reads(codec, text, "message_start") then
              var message := BodyOf(codec, text).value.At("message");
              && after.model == (if message.At("model").Str? then message.At("model").s else r.model)
              && after.inputTokens == NumberAt(message.At("usage"), "input_tokens")
            else after.model == r.model && after.inputTokens == r.inputTokens
  {
    hide FrameOf, Lines, DataOf, NameOf, Judge;
    FrameIs(text);
  }

  lemma AcceptedIff(codec: Codec, texts: seq<string>)
    ensures (exists k: nat :: LastAccepted(codec, texts, k)) <==>
            exists k :: 0 <= k < |texts| && AcceptsStop(codec, texts[k])
    decreases |texts|
  {
    hide AcceptsStop;
    if k :| 0 <= k < |texts| && AcceptsStop(codec, texts[k]) {
      var n := |texts| - 1;
      assert texts == texts[..n] + [texts[n]];
      AcceptedPush(codec, texts[..n], texts[n], n);
      if !AcceptsStop(codec, texts[n]) {
        assert texts[..n][k] == texts[k];
        AcceptedIff(codec, texts[..n]);
        var j: nat :| LastAccepted(codec, texts[..n], j);
        AcceptedPush(codec, texts[..n], texts[n], j);
        assert LastAccepted(codec, texts, j);
      }
    }
  }

  /** The decoder reads the end of a message. */
  lemma DecodesEnd(codec: Codec, model: string, r: Reply, texts: seq<string>, events: seq<Event>, text: string)
    requires Agrees(codec, model, r, texts, events) && Reads(codec, text, "message_stop")
    ensures var event := Decoded(codec, r, text).1;
            if exists k :: 0 <= k < |texts| && AcceptsStop(codec, texts[k])
            then event.Some? && event.value.Done? && Says(codec, model, texts, event.value.response)
                 && CarriesAll(event.value.response, events)
            else event == Some(Error("stream ended without a stop reason"))
  {
    hide FrameOf, Lines, DataOf, NameOf, ToolAgrees, Named, ModelAfter, TokensAfter, DeltaTexts, ToolsOf, AcceptsStop;
    FrameIs(text);
    AcceptedIff(codec, texts);
    if k: nat :| LastAccepted(codec, texts, k) { AcceptedInside(codec, texts, k); }
  }

  /** The decoder passes on the text of a frame. */
  lemma DecodesText(codec: Codec, r: Reply, text: string)
    ensures var event := Decoded(codec, r, text).1;
            && (SaidBy(codec, text).Some? ==> event == Some(TextDelta(SaidBy(codec, text).value)))
            && (SaidBy(codec, text).None? && !Is(text, "message_delta") && !StopsBlock(codec, text) &&
                !Reads(codec, text, "message_stop") ==>
                  event == None)
  {
    hide FrameOf, Lines, DataOf, NameOf, Judge, Assemble;
    FrameIs(text);
  }

  /** One frame means what the decoder makes of it, and the accumulators go on to
      agree with what was read. */
  lemma FrameMeans(codec: Codec, model: string, r: Reply, texts: seq<string>, events: seq<Event>, text: string)
    requires Agrees(codec, model, r, texts, events)
    ensures var (after, event) := Decoded(codec, r, text);
            && Means(codec, model, texts, events, text, event)
            && (!after.finished ==> Agrees(codec, model, after, texts + [text], events + Opt(event)))
  {
    hide Decoded, Is, DataOf, NameOf, Says, CarriesAll, Completes, OpenAt, AcceptsStop, ModelAfter, TokensAfter,
         ToolAgrees, StopAgrees, DeltaTexts, ToolsOf;
    var (after, event) := Decoded(codec, r, text);
    DecodesTool(codec, r, texts, text);
    DecodesStop(codec, model, r, texts, text);
    DecodesStart(codec, model, r, texts, text);
    DecodesText(codec, r, text);
    if Reads(codec, text, "message_stop") { DecodesEnd(codec, model, r, texts, events, text); }
    KindsApart(codec, text);
    if !after.finished {
      DecodedShape(codec, r, text);
      OptAdds(events, event);
    }
  }

  lemma KindsApart(codec: Codec, text: string)
    ensures !(StopsBlock(codec, text) && Reads(codec, text, "message_stop"))
    ensures SaidBy(codec, text).Some? ==> !Is(text, "message_delta") && !StopsBlock(codec, text)
    ensures SaidBy(codec, text).Some? ==> !Reads(codec, text, "message_stop")
    ensures Is(text, "message_delta") ==> !StopsBlock(codec, text) && !Reads(codec, text, "message_stop")
  {
    hide DataOf, NameOf;
  }

  // ---- A whole stream ----

  /** `from[k]` is how many events were yielded before frame `k`. In order, each
      frame yields what it means after those before it, until one that ends the
      stream, after which nothing is yielded. */
  ghost predicate Meant(codec: Codec, model: string, texts: seq<string>, events: seq<Event>, from: seq<nat>) {
    && |from| == |texts| + 1 && from[0] == 0 && from[|texts|] == |events|
    && (forall k :: 0 <= k < |texts| ==> FrameFits(codec, model, texts, events, from, k))
  }

  ghost predicate FrameFits(codec: Codec, model: string, texts: seq<string>, events: seq<Event>, from: seq<nat>, k: nat)
    requires |from| == |texts| + 1 && k < |texts|
  {
    from[k] <= from[k + 1] <= |events| && MeantAt(codec, model, texts, events, from[k], from[k + 1], k)
  }

  ghost predicate MeantAt(codec: Codec, model: string, texts: seq<string>, events: seq<Event>, i: nat, j: nat, k: nat)
    requires k < |texts| && i <= j <= |events|
  {
    if i > 0 && Ends(events[i - 1]) then j == i
    else
      && j <= i + 1
      && Means(codec, model, texts[..k], events[..i], texts[k], if j == i then None else Some(events[i]))
  }

  lemma MeantPush(codec: Codec, model: string, texts: seq<string>, events: seq<Event>, from: seq<nat>, text: string,
                  event: Option<Event>)
    requires Meant(codec, model, texts, events, from)
    requires if events != [] && Ends(events[|events| - 1]) then event == None
             else Means(codec, model, texts, events, text, event)
    ensures Meant(codec, model, texts + [text], events + Opt(event), from + [|events + Opt(event)|])
  {
    hide Means;
    var all, more, to := texts + [text], events + Opt(event), from + [|events + Opt(event)|];
    forall k | 0 <= k < |all|
      ensures FrameFits(codec, model, all, more, to, k)
    {
      if k < |texts| {
        assert FrameFits(codec, model, texts, events, from, k);
        assert all[..k] == texts[..k] && more[..from[k]] == events[..from[k]];
      } else {
        assert all[..k] == texts && more[..to[k]] == events;
      }
    }
  }

  lemma {:induction false} ToldIsMeant(codec: Codec, model: string, texts: seq<string>) returns (from: seq<nat>)
    ensures var (r, events) := Told(codec, NewReply(model), texts);
            && Meant(codec, model, texts, events, from)
            && (!r.finished ==> Agrees(codec, model, r, texts, events))
            && (r.finished <==> events != [] && Ends(events[|events| - 1]))
    decreases |texts|
  {
    hide Decoded, Agrees, Meant, Told, Ends, Means;
    ToldEnds(codec, NewReply(model), texts);
    if texts == [] {
      from := [0];
      NothingMeant(codec, model);
    } else {
      var init, last := texts[..|texts| - 1], texts[|texts| - 1];
      from := ToldIsMeant(codec, model, init);
      var (r, events) := Told(codec, NewReply(model), init);
      var event := if r.finished then None else Decoded(codec, r, last).1;
      if !r.finished { FrameMeans(codec, model, r, init, events, last); }
      MeantPush(codec, model, init, events, from, last, event);
      ToldStep(codec, NewReply(model), texts);
      assert init + [last] == texts;
      from := from + [|events + Opt(event)|];
    }
  }

  lemma ToldStep(codec: Codec, r: Reply, texts: seq<string>)
    requires texts != []
    ensures var (before, events) := Told(codec, r, texts[..|texts| - 1]);
            var (after, event) :=
              if before.finished then (before, None) else Decoded(codec, before, texts[|texts| - 1]);
            Told(codec, r, texts) == (after, events + Opt(event))
  {
    hide Decoded;
    assert forall events: seq<Event> {:trigger events + []} :: events + [] == events;
  }

  lemma NothingMeant(codec: Codec, model: string)
    ensures Meant(codec, model, [], [], [0]) && Agrees(codec, model, NewReply(model), [], [])
    ensures Told(codec, NewReply(model), []) == (NewReply(model), [])
  {
  }

  /** However a stream is cut: what the decoder yields is what its frames mean,
      each after those before it. A text is that of its own frame. A tool call has
      the id and name of the last `content_block_start` of a tool, and its input
      is what all the `partial_json` since then reads as together. A `Done` has
      the stop reason and tokens of the last accepted `message_delta`. */
  lemma StreamMeans(codec: Codec, model: string, chunks: seq<seq<byte>>) returns (from: seq<nat>)
    ensures Meant(codec, model, Texts(codec, Bytes(chunks)), FedAll(codec, New(model), chunks).1, from)
  {
    hide Drained, Told, Texts, Meant;
    AnyChunkingAgrees(codec, model, chunks);
    assert [] + Bytes(chunks) == Bytes(chunks);
    DrainedIsTold(codec, New(model).(buffer := Bytes(chunks)));
    from := ToldIsMeant(codec, model, Texts(codec, Bytes(chunks)));
  }
}
