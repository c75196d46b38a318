/** The decoder and the tool loop together: what the loop is told of a response
    body (`src/anthropic_provider.rs`, `src/tool_loop.rs`). */
module ProviderStreams {
  import opened Text
  import opened Messages
  import opened ToolLoops
  import opened VoiceTurns
  import Sse = SseDecoders
  import Body = SseProperties

  function Told(e: Sse.Event): StreamEvent {
    match e
    case TextDelta(text) => TextDelta(text)
    case ToolEvent(tool) => ToolUseEvent(tool.name)
    case Done(response) => Done(response)
    case Error(why) => Broken(Failed(why))
    case Refused(model, detail) => Broken(Failure.Refused(model, detail))
  }

  /** The events yielded, the one at `k` at the time `at(k)`. */
  function StreamOf(yielded: seq<Sse.Event>, at: nat -> nat): seq<Timed> {
    seq(|yielded|, k requires 0 <= k < |yielded| => Timed(Told(yielded[k]), at(k)))
  }

  predicate Over(e: Sse.Event) { e.Done? || e.Error? || e.Refused? }

  predicate Quiet(events: seq<Sse.Event>) { forall k :: 0 <= k < |events| ==> !Over(events[k]) }

  lemma StreamPush(yielded: seq<Sse.Event>, at: nat -> nat)
    requires yielded != []
    ensures var n := |yielded| - 1;
            StreamOf(yielded, at) == StreamOf(yielded[..n], at) + [Timed(Told(yielded[n]), at(n))]
            && StreamOf(yielded, at)[..n] == StreamOf(yielded[..n], at)
  {
  }

  /** Until it is over, a stream says what its deltas say. */
  lemma {:induction false} QuietStream(yielded: seq<Sse.Event>, at: nat -> nat)
    requires Quiet(yielded)
    ensures var text := Concat(Body.DeltaTexts(yielded));
            Outcome(StreamOf(yielded, at)).None? && TalkOf(StreamOf(yielded, at)) == Talk(text, text, false)
    decreases |yielded|
  {
    if yielded != [] {
      var n := |yielded| - 1;
      StreamPush(yielded, at);
      QuietStream(yielded[..n], at);
      if yielded[n].TextDelta? { ConcatPush(Body.DeltaTexts(yielded[..n]), yielded[n].text); }
      var before := Body.DeltaTexts(yielded[..n]);
      assert before + [] == before && Concat(before) + "" == Concat(before);
    }
  }

  /** A stream that comes to a response is over with its `Done`. */
  lemma {:induction false} DoneIsFirst(yielded: seq<Sse.Event>, at: nat -> nat, r: Response) returns (i: nat)
    requires Outcome(StreamOf(yielded, at)) == Some(Ok(r))
    ensures i < |yielded| && yielded[i] == Sse.Done(r) && Quiet(yielded[..i])
    ensures var text := Concat(Body.DeltaTexts(yielded[..i])); TalkOf(StreamOf(yielded, at)) == Talk(text, text, false)
    decreases |yielded|
  {
    var n := |yielded| - 1;
    StreamPush(yielded, at);
    if Outcome(StreamOf(yielded[..n], at)).Some? {
      i := DoneIsFirst(yielded[..n], at, r);
      assert yielded[..n][..i] == yielded[..i];
    } else {
      i := n;
      NoneIsQuiet(yielded[..n], at);
      QuietStream(yielded[..n], at);
    }
  }

  lemma {:induction false} NoneIsQuiet(yielded: seq<Sse.Event>, at: nat -> nat)
    requires Outcome(StreamOf(yielded, at)).None?
    ensures Quiet(yielded)
    decreases |yielded|
  {
    if yielded != [] {
      StreamPush(yielded, at);
      NoneIsQuiet(yielded[..|yielded| - 1], at);
    }
  }

  lemma {:induction false} UpToIsPrefix(events: seq<Sse.Event>)
    ensures Body.UpToTerminal(events) <= events
  {
    if events != [] {
      UpToIsPrefix(events[1..]);
      assert events == [events[0]] + events[1..];
    }
  }

  lemma {:induction false} UsesSayNothing(blocks: seq<Block>, tools: seq<Sse.Tool>)
    ensures TextOf(blocks + seq(|tools|, i requires 0 <= i < |tools| => Sse.UseOf(tools[i]))) == TextOf(blocks)
    decreases |tools|
  {
    var uses := seq(|tools|, i requires 0 <= i < |tools| => Sse.UseOf(tools[i]));
    if tools == [] {
      assert blocks + uses == blocks;
    } else {
      var n := |tools| - 1;
      UsesSayNothing(blocks, tools[..n]);
      assert (blocks + uses)[..|blocks + uses| - 1] ==
             blocks + seq(n, i requires 0 <= i < n => Sse.UseOf(tools[..n][i]));
      assert TextOf(blocks) + "" == TextOf(blocks);
    }
  }

  lemma {:induction false} UsesHaveNoText(tools: seq<Sse.Tool>)
    ensures FirstText(seq(|tools|, i requires 0 <= i < |tools| => Sse.UseOf(tools[i]))) == ""
    decreases |tools|
  {
    if tools != [] {
      var uses := seq(|tools|, i requires 0 <= i < |tools| => Sse.UseOf(tools[i]));
      UsesHaveNoText(tools[1..]);
      assert uses[1..] == seq(|tools| - 1, i requires 0 <= i < |tools| - 1 => Sse.UseOf(tools[1..][i]));
    }
  }

  lemma CarriedText(r: Response, events: seq<Sse.Event>)
    requires Body.CarriesAll(r, events)
    ensures var text := Concat(Body.DeltaTexts(events)); TextOf(r.content) == text && FirstText(r.content) == text
  {
    hide Concat, Body.DeltaTexts, Body.ToolsOf;
    var text, tools := Concat(Body.DeltaTexts(events)), Body.ToolsOf(events);
    var uses := seq(|tools|, i requires 0 <= i < |tools| => Sse.UseOf(tools[i]));
    if text == "" {
      UsesSayNothing([], tools);
      UsesHaveNoText(tools);
      assert r.content == [] + uses == uses;
    } else {
      UsesSayNothing([TextBlock(text)], tools);
      assert r.content == [TextBlock(text)] + uses && r.content[0] == TextBlock(text);
      assert [TextBlock(text)][..0] == [] && "" + text == text;
    }
  }

  /** A body as it is read: its chunks, and why reading broke off if it did. */
  datatype Read = Read(chunks: seq<seq<Sse.byte>>, failure: Option<string>)

  function YieldedFor(codec: Sse.Codec, model: string, body: Read): seq<Sse.Event> {
    Body.Yielded(codec, Sse.New(model),
                 Body.DataChunks(body.chunks) +
                 if body.failure.Some? then [Body.ReadFailed(body.failure.value)] else [])
  }

  /** What the caller yields up to a `Done` is what the decoder decoded up to it. */
  lemma DoneIsDecoded(codec: Sse.Codec, model: string, body: Read, i: nat)
    requires var y := YieldedFor(codec, model, body); i < |y| && y[i].Done?
    ensures var y, events := YieldedFor(codec, model, body), Body.FedAll(codec, Sse.New(model), body.chunks).1;
            i < |events| && y[..i + 1] == events[..i + 1]
  {
    hide Body.Yielded, Body.UpToTerminal, Body.AnyTerminal, Body.FedAll, Sse.Fed;
    Body.AnyChunkingAgrees(codec, model, body.chunks);
    Body.CallerSeesTheWholeBody(codec, model, body.chunks, if body.failure.Some? then body.failure.value else "");
    var events := Body.FedAll(codec, Sse.New(model), body.chunks).1;
    UpToIsPrefix(events);
    assert Body.DataChunks(body.chunks) + [] == Body.DataChunks(body.chunks);
    var y, up := YieldedFor(codec, model, body), Body.UpToTerminal(events);
    assert up <= y && (forall k :: |up| <= k < |y| ==> y[k].Error?);
    assert i < |up| && y[..i + 1] == up[..i + 1] == events[..i + 1];
  }

  /** However a body is cut into chunks, timed and broken off: when the stream
      the loop is given comes to a response, that response holds the text that
      was streamed, in its first block. */
  lemma ResponseIsWhatWasStreamed(codec: Sse.Codec, model: string, body: Read, at: nat -> nat)
    ensures var events := StreamOf(YieldedFor(codec, model, body), at);
            ResponseOf(events).Ok? ==> Carries(ResponseOf(events).value, TalkOf(events))
  {
    hide Body.Yielded, Body.FedAll, Body.AllAccepted, Body.LastStop, Body.CarriesAll, Body.Texts, Outcome,
         TalkOf, TextOf, FirstText;
    var yielded := YieldedFor(codec, model, body);
    var events := StreamOf(yielded, at);
    if ResponseOf(events).Ok? {
      var r := ResponseOf(events).value;
      assert Outcome(events) == Some(Ok(r));
      var i := DoneIsFirst(yielded, at, r);
      DoneIsDecoded(codec, model, body, i);
      var decoded := Body.FedAll(codec, Sse.New(model), body.chunks).1;
      assert yielded[..i + 1][i] == decoded[..i + 1][i] && yielded[..i + 1][..i] == decoded[..i + 1][..i];
      assert yielded[..i] == yielded[..i + 1][..i] && decoded[..i] == decoded[..i + 1][..i];
      var _ := Body.DoneIsEarned(codec, model, body.chunks, i);
      CarriedText(r, decoded[..i]);
    }
  }

  /** What the loop takes a body for: the first of its events that ends it, as a
      response or as the failure it reports; and a body without one as a failure. */
  lemma {:induction false} BodyComesTo(yielded: seq<Sse.Event>, at: nat -> nat, k: nat)
    requires k <= |yielded| && Quiet(yielded[..k]) && (k < |yielded| ==> Over(yielded[k]))
    ensures ResponseOf(StreamOf(yielded, at)) ==
            if k == |yielded| then Err(Failed("provider stream ended without a final response"))
            else if yielded[k].Done? then Ok(yielded[k].response)
            else if yielded[k].Error? then Err(Failed(yielded[k].why))
            else Err(Failure.Refused(yielded[k].model, yielded[k].detail))
    ensures k < |yielded| ==> Outcome(StreamOf(yielded, at)).Some?
    decreases |yielded|
  {
    if yielded != [] {
      var n := |yielded| - 1;
      StreamPush(yielded, at);
      if k < n {
        assert yielded[..n][..k] == yielded[..k];
        BodyComesTo(yielded[..n], at, k);
      } else if k == n {
        QuietStream(yielded[..n], at);
      } else {
        assert yielded[..k] == yielded;
        QuietStream(yielded, at);
      }
    }
  }

  /** So a provider whose streams are decoded bodies is one that the theorem on
      whole voice turns speaks of. */
  lemma DecodedStreamsMatch(env: Env, codec: Sse.Codec, model: string, body: seq<Message> -> Read,
      at: seq<Message> -> nat -> nat)
    requires forall h :: env.stream(h) == StreamOf(YieldedFor(codec, model, body(h)), at(h))
    ensures StreamsMatch(env)
  {
    hide YieldedFor, StreamOf, ResponseOf, TalkOf, Carries;
    forall h
      ensures ResponseOf(env.stream(h)).Ok? ==> Carries(ResponseOf(env.stream(h)).value, TalkOf(env.stream(h)))
    {
      ResponseIsWhatWasStreamed(codec, model, body(h), at(h));
    }
  }
}
