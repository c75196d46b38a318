/** What every byte stream through the decoder keeps. */
module SseProperties {
  import opened Text
  import opened Messages
  import opened SseDecoders

  // ---- Chunks ----

  /** The decoder is finished only by an event that says so. */
  lemma FinishHasEvent(codec: Codec, r: Reply, text: string)
    requires !r.finished
    ensures var (after, event) := Decoded(codec, r, text);
            after.finished <==> event.Some? && (event.value.Error? || event.value.Refused?)
  {
    hide Lines, FrameOf, Judge, Assemble;
  }

  lemma BreakStays(x: seq<byte>, more: seq<byte>)
    requires FindBreak(x).Some?
    ensures FindBreak(x + more) == FindBreak(x)
  {
    var i := FindBreak(x).value;
    assert BreakAt(x + more, i);
    var k := FindBreak(x + more).value;
    assert k <= i && BreakAt(x, k);
  }

  lemma SplitAt(x: seq<byte>, more: seq<byte>, at: nat)
    requires at + 2 <= |x|
    ensures (x + more)[..at] == x[..at] && (x + more)[at + 2..] == x[at + 2..] + more
  {
  }

  lemma EventsAssoc(a: seq<Event>, b: seq<Event>, c: seq<Event>)
    ensures a + (b + c) == a + b + c
  {
  }

  /** Decoding a longer buffer is decoding a part of it and then the rest. */
  lemma {:induction false} DrainSplits(codec: Codec, d: Decoder, more: seq<byte>)
    requires !d.reply.finished
    ensures var (part, first) := Drained(codec, d);
            var (whole, all) := Drained(codec, d.(buffer := d.buffer + more));
            if part.reply.finished then whole == part.(buffer := part.buffer + more) && all == first
            else
              var (end, second) := Drained(codec, part.(buffer := part.buffer + more));
              whole == end && all == first + second
    decreases |d.buffer|
  {
    hide Decoded, FindBreak;
    var (part, first) := Drained(codec, d);
    if FindBreak(d.buffer).Some? {
      BreakStays(d.buffer, more);
      var at := FindBreak(d.buffer).value;
      SplitAt(d.buffer, more, at);
      var (reply, event) := Decoded(codec, d.reply, codec.lossy(d.buffer[..at]));
      FinishHasEvent(codec, d.reply, codec.lossy(d.buffer[..at]));
      if !reply.finished {
        DrainSplits(codec, Decoder(d.buffer[at + 2..], reply), more);
        var second := Drained(codec, part.(buffer := part.buffer + more)).1;
        var rest := Drained(codec, Decoder(d.buffer[at + 2..], reply)).1;
        EventsAssoc(Opt(event), rest, second);
      }
    } else {
      var second := Drained(codec, part.(buffer := part.buffer + more)).1;
      assert [] + second == second;
    }
  }

  /** Feeding `a` then `b` yields the same events as feeding both at once, and
      the same state, but for what is left in the buffer of a finished decoder. */
  lemma ChunksDoNotMatter(codec: Codec, d: Decoder, a: seq<byte>, b: seq<byte>)
    ensures var (one, first) := Fed(codec, d, a);
            var (two, second) := Fed(codec, one, b);
            var (whole, all) := Fed(codec, d, a + b);
            && all == first + second && whole.reply == two.reply
            && (!whole.reply.finished ==> whole == two)
  {
    hide Drained;
    if !d.reply.finished {
      assert d.buffer + (a + b) == d.buffer + a + b;
      DrainSplits(codec, d.(buffer := d.buffer + a), b);
      var first := Drained(codec, d.(buffer := d.buffer + a)).1;
      assert first + [] == first;
    }
  }

  /** A stream fed in chunks. */
  function FedAll(codec: Codec, d: Decoder, chunks: seq<seq<byte>>): (Decoder, seq<Event>)
    decreases |chunks|
  {
    if chunks == [] then (d, [])
    else
      var (before, events) := FedAll(codec, d, chunks[..|chunks| - 1]);
      var (after, more) := Fed(codec, before, chunks[|chunks| - 1]);
      (after, events + more)
  }

  function Bytes(chunks: seq<seq<byte>>): seq<byte>
    decreases |chunks|
  {
    if chunks == [] then [] else Bytes(chunks[..|chunks| - 1]) + chunks[|chunks| - 1]
  }

  /** Any way of cutting a stream up yields the events of the whole stream. */
  lemma {:induction false} AnyChunkingAgrees(codec: Codec, model: string, chunks: seq<seq<byte>>)
    ensures var (end, events) := FedAll(codec, New(model), chunks);
            var (whole, all) := Fed(codec, New(model), Bytes(chunks));
            && events == all && end.reply == whole.reply && (!end.reply.finished ==> end == whole)
    decreases |chunks|
  {
    if chunks == [] {
      assert Fed(codec, New(model), []) == (New(model), []);
    } else {
      var before, last := chunks[..|chunks| - 1], chunks[|chunks| - 1];
      AnyChunkingAgrees(codec, model, before);
      ChunksDoNotMatter(codec, New(model), Bytes(before), last);
    }
  }

  // ---- Event texts ----

  /** The texts of the complete events in `bytes`. */
  function Texts(codec: Codec, bytes: seq<byte>): seq<string>
    decreases |bytes|
  {
    var at := FindBreak(bytes);
    if at.None? then [] else [codec.lossy(bytes[..at.value])] + Texts(codec, bytes[at.value + 2..])
  }

  /** Decoding `texts` in turn, until the decoder is finished. */
  function Told(codec: Codec, r: Reply, texts: seq<string>): (Reply, seq<Event>)
    decreases |texts|
  {
    if texts == [] then (r, [])
    else
      var (before, events) := Told(codec, r, texts[..|texts| - 1]);
      if before.finished then (before, events)
      else
        var (after, event) := Decoded(codec, before, texts[|texts| - 1]);
        (after, events + Opt(event))
  }

  lemma {:induction false} ToldFromFront(codec: Codec, r: Reply, texts: seq<string>)
    requires texts != [] && !r.finished
    ensures var (after, event) := Decoded(codec, r, texts[0]);
            var (end, more) := Told(codec, after, texts[1..]);
            Told(codec, r, texts) == (end, Opt(event) + more)
    decreases |texts|
  {
    hide Decoded;
    var before := texts[..|texts| - 1];
    var (after, event) := Decoded(codec, r, texts[0]);
    if before == [] {
      assert texts[1..] == [] && [] + Opt(event) == Opt(event) + [];
    } else {
      ToldFromFront(codec, r, before);
      assert texts[1..][..|texts[1..]| - 1] == before[1..];
      assert texts[1..][|texts[1..]| - 1] == texts[|texts| - 1];
      var (mid, more) := Told(codec, after, before[1..]);
      if !mid.finished {
        var last := Decoded(codec, mid, texts[|texts| - 1]).1;
        assert Opt(event) + more + Opt(last) == Opt(event) + (more + Opt(last));
      }
    }
  }

  lemma {:induction false} ToldWhenFinished(codec: Codec, r: Reply, texts: seq<string>)
    requires r.finished
    ensures Told(codec, r, texts) == (r, [])
    decreases |texts|
  {
    if texts != [] { ToldWhenFinished(codec, r, texts[..|texts| - 1]); }
  }

  lemma {:induction false} DrainedIsTold(codec: Codec, d: Decoder)
    requires !d.reply.finished
    ensures var (end, events) := Drained(codec, d);
            Told(codec, d.reply, Texts(codec, d.buffer)) == (end.reply, events)
    decreases |d.buffer|
  {
    hide Decoded, FindBreak;
    if FindBreak(d.buffer).Some? {
      var at := FindBreak(d.buffer).value;
      var text, rest := codec.lossy(d.buffer[..at]), d.buffer[at + 2..];
      var (reply, event) := Decoded(codec, d.reply, text);
      FinishHasEvent(codec, d.reply, text);
      var texts := Texts(codec, d.buffer);
      ToldFromFront(codec, d.reply, texts);
      assert texts[1..] == Texts(codec, rest);
      if reply.finished {
        ToldWhenFinished(codec, reply, texts[1..]);
        assert Opt(event) + [] == [event.value];
      } else {
        DrainedIsTold(codec, Decoder(rest, reply));
      }
    }
  }

  // ---- Endings ----

  predicate Ends(e: Event) { e.Error? || e.Refused? }

  lemma {:induction false} ToldEnds(codec: Codec, r: Reply, texts: seq<string>)
    requires !r.finished
    ensures var (end, events) := Told(codec, r, texts);
            && (end.finished <==> events != [] && Ends(events[|events| - 1]))
            && forall i :: 0 <= i < |events| - 1 ==> !Ends(events[i])
    decreases |texts|
  {
    hide Decoded;
    if texts != [] {
      ToldEnds(codec, r, texts[..|texts| - 1]);
      var before := Told(codec, r, texts[..|texts| - 1]).0;
      if !before.finished { FinishHasEvent(codec, before, texts[|texts| - 1]); }
    }
  }

  /** Nothing is decoded after a refusal or an error, however the stream is cut
      and whatever bytes follow. */
  lemma NothingFollowsAnEnding(codec: Codec, model: string, chunks: seq<seq<byte>>)
    ensures var (end, events) := FedAll(codec, New(model), chunks);
            && (forall i :: 0 <= i < |events| - 1 ==> !Ends(events[i]))
            && (end.reply.finished <==> events != [] && Ends(events[|events| - 1]))
            && forall more :: events != [] && Ends(events[|events| - 1]) ==> Fed(codec, end, more) == (end, [])
  {
    hide Drained;
    AnyChunkingAgrees(codec, model, chunks);
    DrainedIsTold(codec, New(model).(buffer := Bytes(chunks)));
    ToldEnds(codec, NewReply(model), Texts(codec, Bytes(chunks)));
    assert [] + Bytes(chunks) == Bytes(chunks);
  }

  // ---- What a `Done` rests on ----

  /** The verdict of a `message_delta`; `None` for any other event. */
  function DeltaOf(codec: Codec, text: string): Option<Verdict> {
    var f := FrameOf(Lines(text));
    if f.kind == MessageDelta && f.data != "" then Some(Judge(codec, f.data)) else None
  }

  /** The stop reason of the last accepted `message_delta`. */
  function LastStop(codec: Codec, texts: seq<string>): Option<StopReason>
    decreases |texts|
  {
    if texts == [] then None
    else
      var v := DeltaOf(codec, texts[|texts| - 1]);
      if v.Some? && v.value.Known? then Some(v.value.stop) else LastStop(codec, texts[..|texts| - 1])
  }

  /** No `message_delta` among `texts` is refused, unparsable or unknown. */
  ghost predicate AllAccepted(codec: Codec, texts: seq<string>) {
    forall i :: 0 <= i < |texts| && DeltaOf(codec, texts[i]).Some? ==> DeltaOf(codec, texts[i]).value.Known?
  }

  function DeltaTexts(events: seq<Event>): seq<string>
    decreases |events|
  {
    if events == [] then []
    else DeltaTexts(events[..|events| - 1]) +
         if events[|events| - 1].TextDelta? then [events[|events| - 1].text] else []
  }

  function ToolsOf(events: seq<Event>): seq<Tool>
    decreases |events|
  {
    if events == [] then []
    else ToolsOf(events[..|events| - 1]) +
         if events[|events| - 1].ToolEvent? then [events[|events| - 1].tool] else []
  }

  /** The accumulators agree with the events yielded and the deltas accepted. */
  ghost predicate Consistent(codec: Codec, r: Reply, texts: seq<string>, events: seq<Event>) {
    && r.textParts == DeltaTexts(events) && r.toolUses == ToolsOf(events)
    && AllAccepted(codec, texts)
    && LastStop(codec, texts) == if r.sawDelta then Some(r.stop) else None
  }

  /** What one event does to the accumulators. */
  lemma DecodedShape(codec: Codec, r: Reply, text: string)
    requires !r.finished && !Decoded(codec, r, text).0.finished
    ensures var (after, event) := Decoded(codec, r, text);
            && after.textParts == r.textParts
               + (if event.Some? && event.value.TextDelta? then [event.value.text] else [])
            && after.toolUses == r.toolUses + (if event.Some? && event.value.ToolEvent? then [event.value.tool] else [])
            && (DeltaOf(codec, text).Some? ==>
                  var v := DeltaOf(codec, text).value; v.Known? && after.sawDelta && after.stop == v.stop)
            && (DeltaOf(codec, text).None? ==> after.sawDelta == r.sawDelta && after.stop == r.stop)
  {
    hide Lines, FrameOf, Judge, Assemble;
  }

  lemma {:induction false} ToldIsConsistent(codec: Codec, model: string, texts: seq<string>)
    ensures var (r, events) := Told(codec, NewReply(model), texts);
            !r.finished ==> Consistent(codec, r, texts, events)
    decreases |texts|
  {
    hide Decoded, DeltaOf;
    if texts != [] {
      var before, last := texts[..|texts| - 1], texts[|texts| - 1];
      ToldIsConsistent(codec, model, before);
      var (r, events) := Told(codec, NewReply(model), before);
      if !r.finished && !Decoded(codec, r, last).0.finished {
        DecodedShape(codec, r, last);
        var event := Decoded(codec, r, last).1;
        OptAdds(events, event);
        assert forall i :: 0 <= i < |before| ==> texts[i] == before[i];
      }
    }
  }

  lemma OptAdds(events: seq<Event>, event: Option<Event>)
    ensures DeltaTexts(events + Opt(event)) ==
            DeltaTexts(events) + if event.Some? && event.value.TextDelta? then [event.value.text] else []
    ensures ToolsOf(events + Opt(event)) ==
            ToolsOf(events) + if event.Some? && event.value.ToolEvent? then [event.value.tool] else []
  {
    if event.Some? {
      assert (events + Opt(event))[..|events + Opt(event)| - 1] == events;
    } else {
      assert events + Opt(event) == events;
    }
  }

  /** The response a `Done` after `events` must carry. */
  ghost predicate CarriesAll(response: Response, events: seq<Event>) {
    var text, tools := Concat(DeltaTexts(events)), ToolsOf(events);
    response.content == (if text == "" then [] else [TextBlock(text)]) +
                        seq(|tools|, i requires 0 <= i < |tools| => UseOf(tools[i]))
  }

  lemma DoneShape(codec: Codec, r: Reply, text: string)
    requires Decoded(codec, r, text).1.Some? && Decoded(codec, r, text).1.value.Done?
    ensures r.sawDelta && Decoded(codec, r, text).1.value.response == Assemble(r)
  {
    hide Lines, FrameOf, Judge, Assemble;
  }

  lemma {:induction false} ToldDoneIsEarned(codec: Codec, model: string, texts: seq<string>, i: nat) returns (n: nat)
    requires var events := Told(codec, NewReply(model), texts).1; i < |events| && events[i].Done?
    ensures n < |texts|
    ensures var events := Told(codec, NewReply(model), texts).1; var response := events[i].response;
            && Told(codec, NewReply(model), texts[..n]).1 == events[..i]
            && AllAccepted(codec, texts[..n]) && LastStop(codec, texts[..n]) == Some(response.stop)
            && CarriesAll(response, events[..i])
    decreases |texts|
  {
    hide Decoded, AllAccepted, LastStop;
    var before := texts[..|texts| - 1];
    var (r, earlier) := Told(codec, NewReply(model), before);
    var events := Told(codec, NewReply(model), texts).1;
    if i < |earlier| {
      assert events[..i] == earlier[..i];
      n := ToldDoneIsEarned(codec, model, before, i);
      assert before[..n] == texts[..n];
    } else {
      n := |before|;
      assert texts[..n] == before && events[..i] == earlier;
      DoneShape(codec, r, texts[|texts| - 1]);
      ToldIsConsistent(codec, model, before);
    }
  }

  /** However the stream is cut: a `Done` is preceded by an accepted
      `message_delta` whose stop reason it carries, and by no refused,
      unparsable or unknown one; its text is the concatenation of the text
      deltas yielded before it, and its tool uses are exactly those yielded
      before it, in order. */
  lemma DoneIsEarned(codec: Codec, model: string, chunks: seq<seq<byte>>, i: nat) returns (n: nat)
    requires var events := FedAll(codec, New(model), chunks).1; i < |events| && events[i].Done?
    ensures var events, texts := FedAll(codec, New(model), chunks).1, Texts(codec, Bytes(chunks));
            && n < |texts| && AllAccepted(codec, texts[..n])
            && LastStop(codec, texts[..n]) == Some(events[i].response.stop)
            && CarriesAll(events[i].response, events[..i])
  {
    hide Drained, Told, Texts, AllAccepted, LastStop, CarriesAll;
    AnyChunkingAgrees(codec, model, chunks);
    assert [] + Bytes(chunks) == Bytes(chunks);
    DrainedIsTold(codec, New(model).(buffer := Bytes(chunks)));
    n := ToldDoneIsEarned(codec, model, Texts(codec, Bytes(chunks)), i);
  }

  // ---- The caller ----

  datatype Chunk = Data(bytes: seq<byte>) | ReadFailed(why: string)

  predicate Terminal(e: Event) { e.Refused? || e.Done? }

  predicate AnyTerminal(events: seq<Event>) { exists k :: 0 <= k < |events| && Terminal(events[k]) }

  /** The events up to and including the first terminal one. */
  function UpToTerminal(events: seq<Event>): seq<Event> {
    if events == [] then [] else [events[0]] + if Terminal(events[0]) then [] else UpToTerminal(events[1..])
  }

  /** What `invoke_streaming` yields for the chunks of a response body. */
  function Yielded(codec: Codec, d: Decoder, chunks: seq<Chunk>): seq<Event>
    decreases |chunks|
  {
    if chunks == [] then []
    else
      match chunks[0]
      case ReadFailed(why) => [Error("Stream read error: " + why)]
      case Data(bytes) =>
        var (after, events) := Fed(codec, d, bytes);
        UpToTerminal(events) +
        if AnyTerminal(events) then [] else Yielded(codec, after, chunks[1..])
  }

  lemma UpToTerminalNothing()
    ensures UpToTerminal([]) == []
  {
  }

  lemma UpToTerminalStep(events: seq<Event>, n: nat)
    requires n < |events|
    ensures events[..n] + [events[n]] == events[..n + 1]
    ensures events[..n] + UpToTerminal(events[n..]) ==
            if Terminal(events[n]) then events[..n + 1] else events[..n + 1] + UpToTerminal(events[n + 1..])
  {
    assert events[n..][1..] == events[n + 1..] && events[n..] != [];
    var more := if Terminal(events[n]) then [] else UpToTerminal(events[n + 1..]);
    EventsAssoc(events[..n], [events[n]], more);
    assert events[..n + 1] + [] == events[..n + 1];
  }

  /** The loop over the events of one chunk. */
  method Forward(events: seq<Event>) returns (yielded: seq<Event>, ended: bool)
    ensures yielded == UpToTerminal(events)
    ensures ended <==> AnyTerminal(events)
  {
    hide UpToTerminal, Terminal;
    yielded := [];
    assert events[0..] == events;
    for n := 0 to |events|
      invariant yielded == events[..n]
      invariant forall k :: 0 <= k < n ==> !Terminal(events[k])
      invariant UpToTerminal(events) == events[..n] + UpToTerminal(events[n..])
    {
      yielded := yielded + [events[n]];
      UpToTerminalStep(events, n);
      if Terminal(events[n]) {
        return yielded, true;
      }
    }
    UpToTerminalNothing();
    assert events[|events|..] == [] && events[..|events|] == events && events + [] == events;
    ended := false;
  }

  lemma YieldedStep(codec: Codec, d: Decoder, chunks: seq<Chunk>, i: nat, before: seq<Event>)
    requires i < |chunks|
    ensures var rest := Yielded(codec, d, chunks[i..]);
            if chunks[i].ReadFailed? then before + rest == before + [Error("Stream read error: " + chunks[i].why)]
            else
              var next := Fed(codec, d, chunks[i].bytes);
              before + rest == before + UpToTerminal(next.1) +
                if AnyTerminal(next.1) then [] else Yielded(codec, next.0, chunks[i + 1..])
  {
    hide Fed, UpToTerminal;
    assert chunks[i..][0] == chunks[i] && chunks[i..][1..] == chunks[i + 1..];
  }

  method InvokeStreaming(codec: Codec, model: string, chunks: seq<Chunk>) returns (yielded: seq<Event>)
    ensures yielded == Yielded(codec, New(model), chunks)
  {
    hide Fed, Yielded, UpToTerminal;
    var decoder := new SseDecoder(codec, model);
    yielded := [];
    assert chunks[0..] == chunks && [] + Yielded(codec, New(model), chunks) == Yielded(codec, New(model), chunks);
    for i := 0 to |chunks|
      invariant fresh(decoder) && decoder.codec == codec
      invariant Yielded(codec, New(model), chunks) == yielded + Yielded(codec, decoder.State(), chunks[i..])
    {
      YieldedStep(codec, decoder.State(), chunks, i, yielded);
      match chunks[i] {
        case ReadFailed(why) =>
          return yielded + [Error("Stream read error: " + why)];
        case Data(bytes) =>
          var events := decoder.Feed(bytes);
          var forwarded, ended := Forward(events);
          yielded := yielded + forwarded;
          if ended {
            assert yielded + [] == yielded;
            return;
          }
      }
    }
    YieldedNothing(codec, decoder.State());
    assert chunks[|chunks|..] == [] && yielded + [] == yielded;
  }

  lemma YieldedNothing(codec: Codec, d: Decoder)
    ensures Yielded(codec, d, []) == []
  {
  }

  /** In the order yielded: `Done` and `Refused` come last, and after an error
      only a failure to read the rest of the body can follow. */
  ghost predicate WellEnded(yielded: seq<Event>) {
    forall i :: 0 <= i < |yielded| - 1 ==>
      && !Terminal(yielded[i])
      && (yielded[i].Error? ==> i == |yielded| - 2 && yielded[i + 1].Error?)
  }

  lemma {:induction false} UpToTerminalShape(events: seq<Event>)
    requires forall i :: 0 <= i < |events| - 1 ==> !Ends(events[i])
    ensures var up := UpToTerminal(events);
            && up <= events && (forall i :: 0 <= i < |up| - 1 ==> !Terminal(up[i]) && !Ends(up[i]))
            && (AnyTerminal(events) <==> up != [] && Terminal(up[|up| - 1]))
            && (!AnyTerminal(events) ==> up == events)
  {
    if events != [] && !Terminal(events[0]) {
      UpToTerminalShape(events[1..]);
      assert events == [events[0]] + events[1..];
    }
  }

  lemma {:induction false} YieldedEndsWell(codec: Codec, d: Decoder, chunks: seq<Chunk>)
    ensures var yielded := Yielded(codec, d, chunks);
            && WellEnded(yielded)
            && (d.reply.finished ==> yielded == [] || (|yielded| == 1 && yielded[0].Error?))
    decreases |chunks|
  {
    if chunks == [] {
      StopEndsWell([]);
    } else if chunks[0].Data? {
      var (after, events) := Fed(codec, d, chunks[0].bytes);
      hide Fed, UpToTerminal, WellEnded;
      FedEnds(codec, d, chunks[0].bytes);
      UpToTerminalShape(events);
      YieldedEndsWell(codec, after, chunks[1..]);
      if !AnyTerminal(events) {
        JoinEndsWell(events, Yielded(codec, after, chunks[1..]), after.reply.finished);
        if d.reply.finished { assert [] + Yielded(codec, after, chunks[1..]) == Yielded(codec, after, chunks[1..]); }
      } else {
        StopEndsWell(UpToTerminal(events));
        assert UpToTerminal(events) + [] == UpToTerminal(events);
      }
    } else {
      StopEndsWell(Yielded(codec, d, chunks));
    }
  }

  lemma StopEndsWell(events: seq<Event>)
    requires forall i :: 0 <= i < |events| - 1 ==> !Terminal(events[i]) && !Ends(events[i])
    ensures WellEnded(events)
  {
  }

  lemma JoinEndsWell(events: seq<Event>, rest: seq<Event>, finished: bool)
    requires !AnyTerminal(events)
    requires forall i :: 0 <= i < |events| - 1 ==> !Ends(events[i])
    requires events != [] && Ends(events[|events| - 1]) ==> finished
    requires WellEnded(rest) && (finished ==> rest == [] || (|rest| == 1 && rest[0].Error?))
    ensures WellEnded(events + rest)
  {
    forall i | 0 <= i < |events + rest| - 1
      ensures !Terminal((events + rest)[i])
      ensures (events + rest)[i].Error? ==> i == |events + rest| - 2 && (events + rest)[i + 1].Error?
    {
      if i < |events| {
        assert (events + rest)[i] == events[i];
        assert i < |events| - 1 ==> !Ends(events[i]);
        if i == |events| - 1 { assert (events + rest)[i + 1] == rest[0]; }
      } else {
        assert (events + rest)[i] == rest[i - |events|] && (events + rest)[i + 1] == rest[i + 1 - |events|];
      }
    }
  }

  lemma FedEnds(codec: Codec, d: Decoder, bytes: seq<byte>)
    ensures var (after, events) := Fed(codec, d, bytes);
            && (forall i :: 0 <= i < |events| - 1 ==> !Ends(events[i]))
            && (d.reply.finished ==> after == d && events == [])
            && (!d.reply.finished ==> (after.reply.finished <==> events != [] && Ends(events[|events| - 1])))
  {
    hide Drained;
    if !d.reply.finished {
      DrainedIsTold(codec, d.(buffer := d.buffer + bytes));
      ToldEnds(codec, d.reply, Texts(codec, d.buffer + bytes));
    }
  }

  /** The caller ends at the first `Done` or `Refused`, and a stream that was
      refused or broke never yields a `Done` afterwards. */
  lemma CallerNeverEndsCleanlyAfterABreak(codec: Codec, model: string, chunks: seq<Chunk>)
    ensures WellEnded(Yielded(codec, New(model), chunks))
  {
    YieldedEndsWell(codec, New(model), chunks);
  }

  // ---- The caller and the chunks ----

  function DataChunks(chunks: seq<seq<byte>>): seq<Chunk> {
    seq(|chunks|, i requires 0 <= i < |chunks| => Data(chunks[i]))
  }

  lemma {:induction false} UpToTerminalJoins(a: seq<Event>, b: seq<Event>)
    ensures UpToTerminal(a + b) == UpToTerminal(a) + if AnyTerminal(a) then [] else UpToTerminal(b)
    ensures AnyTerminal(a + b) <==> AnyTerminal(a) || AnyTerminal(b)
    decreases |a|
  {
    AnyOfBoth(a, b);
    if a == [] {
      assert a + b == b;
    } else {
      assert (a + b)[1..] == a[1..] + b;
      UpToTerminalJoins(a[1..], b);
      AnyOfRest(a);
      EventsAssoc([a[0]], UpToTerminal(a[1..]), if AnyTerminal(a[1..]) then [] else UpToTerminal(b));
    }
  }

  lemma AnyOfBoth(a: seq<Event>, b: seq<Event>)
    ensures AnyTerminal(a + b) <==> AnyTerminal(a) || AnyTerminal(b)
  {
    if AnyTerminal(a) {
      var k :| 0 <= k < |a| && Terminal(a[k]);
      assert Terminal((a + b)[k]);
    }
    if AnyTerminal(b) {
      var k :| 0 <= k < |b| && Terminal(b[k]);
      assert Terminal((a + b)[|a| + k]);
    }
  }

  lemma AnyOfRest(a: seq<Event>)
    requires a != []
    ensures AnyTerminal(a) <==> Terminal(a[0]) || AnyTerminal(a[1..])
  {
    AnyOfBoth([a[0]], a[1..]);
    assert [a[0]] + a[1..] == a;
    assert Terminal(a[0]) ==> Terminal([a[0]][0]);
  }

  lemma {:induction false} FedAllFromFront(codec: Codec, d: Decoder, chunks: seq<seq<byte>>)
    requires chunks != []
    ensures var (one, first) := Fed(codec, d, chunks[0]);
            var (end, rest) := FedAll(codec, one, chunks[1..]);
            FedAll(codec, d, chunks) == (end, first + rest)
    decreases |chunks|
  {
    hide Fed;
    var (one, first) := Fed(codec, d, chunks[0]);
    if |chunks| == 1 {
      assert chunks[..0] == [] && chunks[1..] == [] && [] + first == first + [];
    } else {
      var n := |chunks| - 1;
      FedAllFromFront(codec, d, chunks[..n]);
      assert chunks[..n][1..] == chunks[1..][..n - 1];
      var (before, rest) := FedAll(codec, one, chunks[1..][..n - 1]);
      EventsAssoc(first, rest, Fed(codec, before, chunks[n]).1);
    }
  }

  lemma {:induction false} YieldedIsUpToTerminal(codec: Codec, d: Decoder, chunks: seq<seq<byte>>, rest: seq<Chunk>)
    ensures var (end, events) := FedAll(codec, d, chunks);
            Yielded(codec, d, DataChunks(chunks) + rest) ==
            UpToTerminal(events) + if AnyTerminal(events) then [] else Yielded(codec, end, rest)
    decreases |chunks|
  {
    hide Fed, UpToTerminal, AnyTerminal;
    if chunks == [] {
      UpToTerminalNothing();
      assert DataChunks([]) + rest == rest && [] + Yielded(codec, d, rest) == Yielded(codec, d, rest);
      assert !AnyTerminal([]) by { NoneOfNothing(); }
    } else {
      var (one, first) := Fed(codec, d, chunks[0]);
      var (end, later) := FedAll(codec, one, chunks[1..]);
      FedAllFromFront(codec, d, chunks);
      YieldedIsUpToTerminal(codec, one, chunks[1..], rest);
      assert (DataChunks(chunks) + rest)[1..] == DataChunks(chunks[1..]) + rest;
      hide FedAll, Yielded;
      YieldedFirst(codec, d, DataChunks(chunks) + rest);
      UpToTerminalJoins(first, later);
      EventsAssoc(UpToTerminal(first), UpToTerminal(later),
                  if AnyTerminal(later) then [] else Yielded(codec, end, rest));
      assert UpToTerminal(first) + [] + [] == UpToTerminal(first) + [];
    }
  }

  lemma NoneOfNothing()
    ensures !AnyTerminal([])
  {
  }

  lemma YieldedFirst(codec: Codec, d: Decoder, chunks: seq<Chunk>)
    requires chunks != [] && chunks[0].Data?
    ensures var (after, events) := Fed(codec, d, chunks[0].bytes);
            Yielded(codec, d, chunks) ==
            UpToTerminal(events) + if AnyTerminal(events) then [] else Yielded(codec, after, chunks[1..])
  {
    hide Fed, UpToTerminal, AnyTerminal;
  }

  /** However the body is cut into chunks, the caller yields the events of the
      whole body up to the first terminal one; and when reading breaks off
      before a terminal event, the error after them. */
  lemma CallerSeesTheWholeBody(codec: Codec, model: string, chunks: seq<seq<byte>>, why: string)
    ensures var events := Fed(codec, New(model), Bytes(chunks)).1;
            && Yielded(codec, New(model), DataChunks(chunks)) == UpToTerminal(events)
            && Yielded(codec, New(model), DataChunks(chunks) + [ReadFailed(why)]) ==
               UpToTerminal(events) + if AnyTerminal(events) then [] else [Error("Stream read error: " + why)]
  {
    hide Fed, UpToTerminal, AnyTerminal;
    AnyChunkingAgrees(codec, model, chunks);
    YieldedIsUpToTerminal(codec, New(model), chunks, []);
    YieldedIsUpToTerminal(codec, New(model), chunks, [ReadFailed(why)]);
    var events := Fed(codec, New(model), Bytes(chunks)).1;
    assert DataChunks(chunks) + [] == DataChunks(chunks) && UpToTerminal(events) + [] == UpToTerminal(events);
  }
}
