/** The sender half of a turn's progress, which holds voice text until the
    guard has passed it (`ProgressSink` in `src/tool_loop.rs`). */
module ProgressSinks {
  import opened Text
  import opened TurnEvents
  import opened Markers
  import opened SpeechGates

  /** `HeldSpeech`: text and boundaries held until the guard has passed. */
  datatype Hold = Hold(
    deltas: seq<string>,
    segments: seq<(nat, bool)>,
    bytes: nat,
    cap: nat,
    overflowed: bool,
    gate: Gate,
    everReleased: bool,
    cutHandled: bool)

  /** `out` is everything passed to `deliver`, in order. Of a sequence passed to
      it `takes` says whether the last event is accepted: the channel may be
      full or closed, and the control plane closed. */
  datatype Sink = Sink(held: Option<Hold>, out: seq<TurnEvent>, takes: seq<TurnEvent> -> bool) {
    predicate Valid() { held.Some? ==> held.value.gate.Valid() }
  }

  // ---- Byte arithmetic of the flush ----

  /** `str::get(skip..)`: nothing when `skip` is inside a character. */
  function GetFrom(text: string, skip: nat): Option<string> {
    if skip == 0 then Some(text)
    else if text == [] || Utf8Width(text[0]) > skip then None
    else GetFrom(text[1..], skip - Utf8Width(text[0]))
  }

  /** `saturating_sub`. */
  function Minus(a: nat, b: nat): nat { if a < b then 0 else a - b }

  /** Bytes of the held text that early releases have already sent. */
  function SkipBytes(h: Hold): nat
    requires h.gate.Valid()
  {
    var heldBytes := Utf8Len(Concat(h.deltas));
    Minus(Utf8Len(h.gate.buf[..h.gate.released]), Minus(Utf8Len(h.gate.buf), heldBytes))
  }

  /** What the flush delivers of `deltas` after skipping `skip` bytes. */
  function Pieces(deltas: seq<string>, skip: nat): seq<string> {
    if deltas == [] then []
    else if skip >= Utf8Len(deltas[0]) then Pieces(deltas[1..], skip - Utf8Len(deltas[0]))
    else
      match GetFrom(deltas[0], skip)
      case Some(piece) => [piece] + Pieces(deltas[1..], 0)
      case None => Pieces(deltas[1..], 0)
  }

  /** The flush never finds itself inside a character. */
  ghost predicate OnBoundary(deltas: seq<string>, skip: nat) {
    if deltas == [] then true
    else if skip >= Utf8Len(deltas[0]) then OnBoundary(deltas[1..], skip - Utf8Len(deltas[0]))
    else GetFrom(deltas[0], skip).Some? && OnBoundary(deltas[1..], 0)
  }

  lemma {:induction false} GetFromPrefix(text: string, n: nat)
    requires n <= |text|
    ensures GetFrom(text, Utf8Len(text[..n])) == Some(text[n..])
  {
    if n > 0 {
      assert text[..n][1..] == text[1..][..n - 1];
      GetFromPrefix(text[1..], n - 1);
    }
  }

  lemma {:induction false} PiecesFromStart(deltas: seq<string>)
    ensures Concat(Pieces(deltas, 0)) == Concat(deltas) && OnBoundary(deltas, 0)
  {
    if deltas != [] {
      PiecesFromStart(deltas[1..]);
      if deltas[0] != "" {
        assert Pieces(deltas, 0)[1..] == Pieces(deltas[1..], 0);
      }
    }
  }

  /** Skipping the bytes of the first `n` characters delivers the rest. */
  lemma {:induction false} PiecesSkip(deltas: seq<string>, n: nat)
    requires n <= |Concat(deltas)|
    ensures var skip := Utf8Len(Concat(deltas)[..n]);
            Concat(Pieces(deltas, skip)) == Concat(deltas)[n..] && OnBoundary(deltas, skip)
  {
    if deltas != [] {
      var d, all := deltas[0], Concat(deltas);
      if n >= |d| {
        Utf8LenPrefix(all, |d|, n);
        assert all[..|d|] == d && all[|d|..n] == Concat(deltas[1..])[..n - |d|];
        PiecesSkip(deltas[1..], n - |d|);
      } else {
        Utf8LenPrefix(d, n, |d|);
        assert all[..n] == d[..n] && d[..|d|] == d;
        GetFromPrefix(d, n);
        PiecesFromStart(deltas[1..]);
        var skip := Utf8Len(d[..n]);
        assert Pieces(deltas, skip) == [d[n..]] + Pieces(deltas[1..], 0);
        assert Pieces(deltas, skip)[1..] == Pieces(deltas[1..], 0);
      }
    }
  }

  // ---- What the sink's methods do ----

  function Deltas(texts: seq<string>): seq<TurnEvent> {
    seq(|texts|, i requires 0 <= i < |texts| => Delta(texts[i]))
  }

  function Segments(segments: seq<(nat, bool)>): seq<TurnEvent> {
    seq(|segments|, i requires 0 <= i < |segments| => Segment(segments[i].0, segments[i].1))
  }

  /** A delta that fits, once the gate has taken it and handed out `piece`. */
  function DeltaHeld(s: Sink, text: string, gate: Gate, piece: Option<string>): Sink
    requires s.held.Some?
  {
    var h := s.held.value;
    s.(held := Some(h.(deltas := h.deltas + [text], bytes := h.bytes + Utf8Len(text), gate := gate,
                       everReleased := h.everReleased || piece.Some?)),
       out := if piece.Some? then s.out + [Delta(piece.value)] else s.out)
  }

  /** `try_send` of a delta while holding. */
  function HoldDelta(s: Sink, text: string, now: nat): Sink
    requires s.Valid() && s.held.Some?
  {
    var h := s.held.value;
    if h.overflowed then s
    else if h.bytes + Utf8Len(text) > h.cap then
      s.(held := Some(h.(deltas := [], segments := [], overflowed := true)), out := s.out + [Reset(Budget)])
    else
      var (gate, piece) := Pushed(h.gate, text, now);
      DeltaHeld(s, text, gate, piece)
  }

  /** `try_send`. */
  function Sent(s: Sink, event: TurnEvent, now: nat): (t: Sink)
    requires s.Valid()
    ensures t.Valid()
  {
    if s.held.Some? && event.Delta? then HoldDelta(s, event.text, now)
    else if s.held.Some? && event.Segment? then
      if s.held.value.overflowed then s
      else s.(held := Some(s.held.value.(segments := s.held.value.segments + [(event.index, event.tool)])))
    else s.(out := s.out + [event])
  }

  /** What `try_send` returns: whether the event was accepted, held text and
      boundaries included. */
  predicate IsTaken(s: Sink, event: TurnEvent) {
    if s.held.Some? && event.Delta? then
      var h := s.held.value;
      h.overflowed || h.bytes + Utf8Len(event.text) <= h.cap || s.takes(s.out + [Reset(Budget)])
    else if s.held.Some? && event.Segment? then !s.held.value.overflowed
    else s.takes(s.out + [event])
  }

  /** `flush_held`. */
  function Flushed(s: Sink): (t: Sink)
    requires s.Valid()
    ensures t.Valid()
  {
    if s.held.None? then s
    else
      var h := s.held.value;
      s.(held := Some(h.(deltas := [], segments := [], gate := h.gate.(released := |h.gate.buf|))),
         out := s.out + Deltas(Pieces(h.deltas, SkipBytes(h))) + Segments(h.segments))
  }

  /** `begin_text_block`. */
  function BlockBegun(s: Sink): (t: Sink)
    requires s.Valid()
    ensures t.Valid()
  {
    if s.held.None? then s else s.(held := Some(s.held.value.(gate := s.held.value.gate.(sealed := true))))
  }

  /** `begin_next_round`. */
  function RoundBegun(s: Sink): (t: Sink)
    requires s.Valid()
    ensures t.Valid()
  {
    if s.held.None? then s
    else
      var h := s.held.value;
      s.(held := Some(h.(everReleased := h.everReleased || h.gate.released > 0,
                         gate := Gate("", 0, true, h.gate.firstDeltaAt, false))))
  }

  /** `finish_cut`. */
  function CutFinished(s: Sink, kept: string): (r: (Sink, bool))
    requires s.Valid()
    ensures r.0.Valid()
  {
    if s.held.None? || s.held.value.overflowed then (s, false)
    else
      var h := s.held.value;
      if h.gate.released == 0 then
        if h.everReleased then (s.(held := Some(h.(cutHandled := true))), true) else (s, false)
      else
        var (gate, rest) := Finished(h.gate, kept);
        match rest
        case PrefixViolation => (s.(held := Some(h.(gate := gate, cutHandled := false))), false)
        case Rest(text) =>
          (s.(held := Some(h.(gate := gate, cutHandled := true)),
              out := s.out + if text.Some? then [Delta(text.value)] else []), true)
  }

  /** `discard_held`. */
  function Discarded(s: Sink): (t: Sink)
    requires s.Valid()
    ensures t.Valid()
  {
    if s.held.None? then s else s.(held := Some(s.held.value.(deltas := [], segments := [], bytes := 0)))
  }

  /** `released_any`. */
  predicate ReleasedAny(s: Sink) { s.held.Some? && (s.held.value.everReleased || s.held.value.gate.released > 0) }

  /** `holding_capped`. */
  function Holding(cap: nat, takes: seq<TurnEvent> -> bool): Sink {
    Sink(Some(Hold([], [], 0, cap, false, NEW_GATE, false, false)), [], takes)
  }

  class ProgressSink {
    const holding: bool
    const cap: nat
    const takes: seq<TurnEvent> -> bool
    const gate: SpeechGate
    var deltas: seq<string>
    var segments: seq<(nat, bool)>
    var bytes: nat
    var overflowed: bool
    var everReleased: bool
    var cutHandled: bool
    var out: seq<TurnEvent>

    function State(): Sink
      reads this, gate
    {
      Sink(if holding then Some(Hold(deltas, segments, bytes, cap, overflowed, gate.State(), everReleased, cutHandled))
           else None,
           out, takes)
    }

    /** `new` when not holding, `holding_capped` when holding. */
    constructor (holding: bool, cap: nat, takes: seq<TurnEvent> -> bool)
      ensures State() == if holding then Holding(cap, takes) else Sink(None, [], takes)
      ensures fresh(gate)
    {
      this.holding, this.cap, this.takes := holding, cap, takes;
      gate := new SpeechGate();
      deltas, segments, bytes, overflowed, everReleased, cutHandled := [], [], 0, false, false, false;
      out := [];
    }

    method Deliver(event: TurnEvent) returns (accepted: bool)
      modifies `out
      ensures out == old(out) + [event] && accepted == takes(out)
    {
      out := out + [event];
      accepted := takes(out);
    }

    method TrySend(event: TurnEvent, now: nat) returns (accepted: bool)
      requires State().Valid()
      modifies this, gate
      ensures State() == Sent(old(State()), event, now) && accepted == IsTaken(old(State()), event)
    {
      if holding {
        match event {
          case Delta(text) =>
            accepted := HoldText(text, now);
            return;
          case Segment(index, tool) =>
            if overflowed {
              return false;
            }
            segments := segments + [(index, tool)];
            return true;
          case _ =>
        }
      }
      accepted := Deliver(event);
    }

    method HoldText(text: string, now: nat) returns (accepted: bool)
      requires State().Valid() && holding
      modifies this, gate
      ensures State() == HoldDelta(old(State()), text, now) && accepted == IsTaken(old(State()), Delta(text))
    {
      if overflowed {
        return true;
      }
      var next := bytes + Utf8Len(text);
      if next > cap {
        deltas, segments, overflowed := [], [], true;
        accepted := Deliver(Reset(Budget));
        return;
      }
      HoldFitting(text, next, now);
      accepted := true;
    }

    method HoldFitting(text: string, next: nat, now: nat)
      requires State().Valid() && holding && !overflowed && next == bytes + Utf8Len(text)
      modifies this, gate
      ensures var (g, piece) := Pushed(old(gate.State()), text, now);
              State() == DeltaHeld(old(State()), text, g, piece)
    {
      hide Pushed;
      bytes := next;
      var piece := gate.Push(text, now);
      if piece.Some? {
        everReleased := true;
      }
      deltas := deltas + [text];
      if piece.Some? {
        var _ := Deliver(Delta(piece.value));
      }
    }

    method FlushHeld()
      requires State().Valid()
      modifies this, gate
      ensures State() == Flushed(old(State()))
    {
      if !holding {
        return;
      }
      ghost var h := State().held.value;
      var heldBytes := Utf8Len(Concat(deltas));
      var skip := Minus(Utf8Len(gate.buf[..gate.released]), Minus(Utf8Len(gate.buf), heldBytes));
      gate.NoteRawFlush();
      var texts, boundaries := deltas, segments;
      deltas, segments := [], [];
      FlushDeltas(texts, skip);
      FlushSegments(boundaries);
    }

    method FlushDeltas(texts: seq<string>, skipBytes: nat)
      modifies `out
      ensures out == old(out) + Deltas(Pieces(texts, skipBytes))
    {
      var skip: nat := skipBytes;
      ghost var sent: seq<string> := [];
      for i := 0 to |texts|
        invariant out == old(out) + Deltas(sent)
        invariant Pieces(texts, skipBytes) == sent + Pieces(texts[i..], skip)
      {
        var text := texts[i];
        assert texts[i..][1..] == texts[i + 1..];
        if skip >= Utf8Len(text) {
          skip := skip - Utf8Len(text);
          continue;
        }
        var piece := GetFrom(text, skip);
        skip := 0;
        if piece.Some? {
          sent := sent + [piece.value];
          var _ := Deliver(Delta(piece.value));
        }
      }
      assert sent == Pieces(texts, skipBytes);
    }

    method FlushSegments(boundaries: seq<(nat, bool)>)
      modifies `out
      ensures out == old(out) + Segments(boundaries)
    {
      for i := 0 to |boundaries|
        invariant out == old(out) + Segments(boundaries[..i])
      {
        var _ := Deliver(Segment(boundaries[i].0, boundaries[i].1));
      }
      assert boundaries[..|boundaries|] == boundaries;
    }

    method BeginTextBlock()
      requires State().Valid()
      modifies gate
      ensures State() == BlockBegun(old(State()))
    {
      if holding {
        gate.BeginBlock();
      }
    }

    method BeginNextRound()
      requires State().Valid()
      modifies this, gate
      ensures State() == RoundBegun(old(State()))
    {
      if !holding {
        return;
      }
      if gate.released > 0 {
        everReleased := true;
      }
      gate.RestartRound();
    }

    method FinishCut(kept: string) returns (handled: bool)
      requires State().Valid()
      modifies this, gate
      ensures (State(), handled) == CutFinished(old(State()), kept)
    {
      if !holding || overflowed {
        return false;
      }
      if gate.released == 0 {
        if everReleased {
          cutHandled := true;
          return true;
        }
        return false;
      }
      var rest := gate.Finish(kept);
      match rest {
        case PrefixViolation =>
          cutHandled := false;
          return false;
        case Rest(text) =>
          cutHandled := true;
          if text.Some? {
            var _ := Deliver(Delta(text.value));
          } else {
            assert out == out + [];
          }
          return true;
      }
    }

    method DiscardHeld() returns (dropped: bool)
      requires State().Valid()
      modifies this
      ensures State() == Discarded(old(State()))
      ensures dropped == (holding && exists i :: 0 <= i < |old(deltas)| && old(deltas)[i] != "")
    {
      if !holding {
        return false;
      }
      dropped := exists i :: 0 <= i < |deltas| && deltas[i] != "";
      deltas, segments, bytes := [], [], 0;
    }
  }

  // ---- Every accepted byte is delivered once ----

  function DeltaText(events: seq<TurnEvent>): string {
    if events == [] then ""
    else DeltaText(events[..|events| - 1]) +
         if events[|events| - 1].Delta? then events[|events| - 1].text else ""
  }

  function SegmentsOf(events: seq<TurnEvent>): seq<(nat, bool)> {
    if events == [] then []
    else SegmentsOf(events[..|events| - 1]) +
         if events[|events| - 1].Segment? then [(events[|events| - 1].index, events[|events| - 1].tool)] else []
  }

  lemma DeliverOne(out: seq<TurnEvent>, event: TurnEvent)
    ensures DeltaText(out + [event]) == DeltaText(out) + if event.Delta? then event.text else ""
    ensures SegmentsOf(out + [event]) == SegmentsOf(out) + if event.Segment? then [(event.index, event.tool)] else []
  {
    assert (out + [event])[..|out + [event]| - 1] == out;
  }

  lemma {:induction false} DeliverDeltas(out: seq<TurnEvent>, texts: seq<string>)
    ensures DeltaText(out + Deltas(texts)) == DeltaText(out) + Concat(texts)
    ensures SegmentsOf(out + Deltas(texts)) == SegmentsOf(out)
    decreases |texts|
  {
    if texts == [] {
      assert out + Deltas(texts) == out;
    } else {
      DeliverOne(out, Delta(texts[0]));
      DeliverDeltas(out + [Delta(texts[0])], texts[1..]);
      Assoc(DeltaText(out), texts[0], Concat(texts[1..]));
      hide DeltaText, SegmentsOf;
      assert out + Deltas(texts) == out + [Delta(texts[0])] + Deltas(texts[1..]);
    }
  }

  lemma {:induction false} DeliverSegments(out: seq<TurnEvent>, segments: seq<(nat, bool)>)
    ensures DeltaText(out + Segments(segments)) == DeltaText(out)
    ensures SegmentsOf(out + Segments(segments)) == SegmentsOf(out) + segments
    decreases |segments|
  {
    if segments == [] {
      assert out + Segments(segments) == out;
    } else {
      var first := Segment(segments[0].0, segments[0].1);
      DeliverOne(out, first);
      DeliverSegments(out + [first], segments[1..]);
      assert out + Segments(segments) == out + [first] + Segments(segments[1..]);
    }
  }

  function HeldText(h: Hold): string { Concat(h.deltas) }

  /** The held text is `sent`, which early releases have delivered, and `left`.
      Either it follows `done` in the gate's buffer, with the cursor after
      `sent`; or a new round has begun, and nothing is released early any more. */
  ghost predicate Cursor(h: Hold, done: string, sent: string, left: string) {
    && HeldText(h) == sent + left && !h.overflowed && !h.gate.closed
    && (|| (h.gate.buf == done + sent + left && h.gate.released == |done| + |sent|)
        || (sent == "" && h.gate.sealed && h.gate.released == 0 && |h.gate.buf| <= |left|))
  }

  /** The sink has delivered `accepted` but for `left`, which it holds. */
  ghost predicate Balanced(s: Sink, accepted: string, left: string) {
    && s.Valid() && s.held.Some? && DeltaText(s.out) + left == accepted
    && exists done, sent :: Cursor(s.held.value, done, sent, left)
  }

  lemma SkipIsExact(h: Hold, done: string, sent: string, left: string)
    requires h.gate.Valid() && Cursor(h, done, sent, left)
    ensures SkipBytes(h) == Utf8Len(sent)
  {
    var g := h.gate;
    Utf8LenConcat(sent, left);
    if g.buf == done + sent + left && g.released == |done| + |sent| {
      assert g.buf[..g.released] == done + sent;
      Utf8LenConcat(done, sent);
      Utf8LenConcat(done + sent, left);
    }
  }

  /** The flush delivers exactly the unsent text and the held boundaries, and
      never finds itself inside a character. */
  lemma FlushDeliversTheRest(s: Sink, done: string, sent: string, left: string)
    requires s.Valid() && s.held.Some? && Cursor(s.held.value, done, sent, left)
    ensures DeltaText(Flushed(s).out) == DeltaText(s.out) + left
    ensures SegmentsOf(Flushed(s).out) == SegmentsOf(s.out) + s.held.value.segments
    ensures OnBoundary(s.held.value.deltas, SkipBytes(s.held.value))
  {
    var h := s.held.value;
    SkipIsExact(h, done, sent, left);
    assert (sent + left)[..|sent|] == sent && (sent + left)[|sent|..] == left;
    PiecesSkip(h.deltas, |sent|);
    var texts := Pieces(h.deltas, SkipBytes(h));
    DeliverDeltas(s.out, texts);
    DeliverSegments(s.out + Deltas(texts), h.segments);
  }

  /** A flush passes on what is left in pieces of the deltas, and only then the
      held boundaries. */
  lemma FlushSendsTextFirst(s: Sink, done: string, sent: string, left: string)
    requires s.Valid() && s.held.Some? && Cursor(s.held.value, done, sent, left)
    ensures exists pieces :: Flushes(s, Flushed(s), pieces, left)
  {
    hide Pieces, SkipBytes, Concat, Utf8Len, OnBoundary;
    var h := s.held.value;
    SkipIsExact(h, done, sent, left);
    assert (sent + left)[..|sent|] == sent && (sent + left)[|sent|..] == left;
    PiecesSkip(h.deltas, |sent|);
    PiecesSaySomething(h.deltas, SkipBytes(h));
    assert Flushes(s, Flushed(s), Pieces(h.deltas, SkipBytes(h)), left);
  }

  /** What a flush passes on: the text left in `pieces`, none of them empty, and
      only then the held boundaries, as they were. */
  ghost predicate Flushes(s: Sink, t: Sink, pieces: seq<string>, left: string) {
    && s.held.Some? && Concat(pieces) == left && (forall i :: 0 <= i < |pieces| ==> pieces[i] != "")
    && |t.out| == |s.out| + |pieces| + |s.held.value.segments| && s.out <= t.out
    && (forall i :: 0 <= i < |pieces| ==> t.out[|s.out| + i] == Delta(pieces[i]))
    && (forall i :: 0 <= i < |s.held.value.segments| ==>
          var boundary := s.held.value.segments[i];
          t.out[|s.out| + |pieces| + i] == Segment(boundary.0, boundary.1))
  }

  lemma {:induction false} PiecesSaySomething(deltas: seq<string>, skip: nat)
    ensures forall i :: 0 <= i < |Pieces(deltas, skip)| ==> Pieces(deltas, skip)[i] != ""
    decreases |deltas|
  {
    if deltas != [] {
      if skip >= Utf8Len(deltas[0]) {
        PiecesSaySomething(deltas[1..], skip - Utf8Len(deltas[0]));
      } else {
        PiecesSaySomething(deltas[1..], 0);
        RestSaysSomething(deltas[0], skip);
      }
    }
  }

  lemma {:induction false} RestSaysSomething(text: string, skip: nat)
    requires skip < Utf8Len(text)
    ensures GetFrom(text, skip) != Some("")
    decreases |text|
  {
    if skip > 0 && Utf8Width(text[0]) <= skip { RestSaysSomething(text[1..], skip - Utf8Width(text[0])); }
  }

  lemma FlushKeepsBalance(s: Sink, accepted: string, left: string)
    requires Balanced(s, accepted, left)
    ensures Balanced(Flushed(s), accepted, "") && HeldText(Flushed(s).held.value) == ""
    ensures DeltaText(Flushed(s).out) == accepted
  {
    var done, sent :| Cursor(s.held.value, done, sent, left);
    FlushDeliversTheRest(s, done, sent, left);
    hide Pieces, SkipBytes, DeltaText;
    var t := Flushed(s).held.value;
    assert t.gate.buf == t.gate.buf + "" + "";
    assert Cursor(t, t.gate.buf, "", "");
    assert accepted + "" == accepted;
  }

  /** The gate appended `text` and handed out `piece`: the cursor moves past it. */
  lemma CursorMoves(before: string, left: string, text: string, released: nat, piece: string)
    returns (after: string)
    requires released <= |before + left + text|
    requires (before + left + text)[..released] == before + piece
    ensures released == |before| + |piece|
    ensures left + text == piece + after
  {
    var buf := before + left + text;
    Assoc(before, left, text);
    assert |buf[..released]| == |before + piece|;
    after := buf[released..];
    assert (left + text)[..|piece|] == piece by {
      assert (before + (left + text))[|before|..released] == (left + text)[..|piece|];
      assert (before + piece)[|before|..] == piece;
      assert buf[|before|..released] == buf[..released][|before|..];
    }
    assert (left + text)[|piece|..] == after;
  }

  lemma DeltaHeldMoves(h: Hold, done: string, sent: string, left: string, text: string, gate: Gate, piece: string)
    returns (after: string)
    requires h.gate.Valid() && gate.Valid() && Cursor(h, done, sent, left)
    requires gate.buf == h.gate.buf + text && gate.sealed == h.gate.sealed && !gate.closed
    requires gate.buf[..gate.released] == h.gate.buf[..h.gate.released] + piece
    requires gate.sealed ==> piece == ""
    ensures Cursor(h.(deltas := h.deltas + [text], gate := gate), done, sent + piece, after)
    ensures left + text == piece + after
  {
    var g := h.gate;
    ConcatPush(h.deltas, text);
    hide Concat;
    if g.buf == done + sent + left && g.released == |done| + |sent| {
      assert g.buf[..g.released] == done + sent;
      after := CursorMoves(done + sent, left, text, gate.released, piece);
      Assoc(sent, left, text);
      Assoc(sent, piece, after);
      Assoc(done + sent, left, text);
      Assoc(done + sent, piece, after);
      Assoc(done, sent, piece);
    } else {
      after := left + text;
      assert |gate.buf[..gate.released]| == 0 && "" + left + text == "" + after;
    }
  }

  lemma DeltaHeldKeepsBalance(s: Sink, accepted: string, left: string, text: string, gate: Gate, piece: Option<string>)
    returns (after: string)
    requires Balanced(s, accepted, left) && gate.Valid()
    requires var g, sent := s.held.value.gate, if piece.Some? then piece.value else "";
             && gate.buf == g.buf + text && gate.sealed == g.sealed && !gate.closed
             && gate.buf[..gate.released] == g.buf[..g.released] + sent
             && (g.sealed ==> piece.None?)
    ensures Balanced(DeltaHeld(s, text, gate, piece), accepted + text, after)
  {
    hide Concat, DeltaText;
    var h, now := s.held.value, if piece.Some? then piece.value else "";
    var t := DeltaHeld(s, text, gate, piece);
    var done, sent :| Cursor(h, done, sent, left);
    after := DeltaHeldMoves(h, done, sent, left, text, gate, now);
    if piece.Some? { DeliverOne(s.out, Delta(now)); }
    MovesOn(DeltaText(s.out), DeltaText(t.out), left, text, now, after);
    assert Cursor(t.held.value, done, sent + now, after);
  }

  lemma MovesOn(before: string, out: string, left: string, text: string, now: string, after: string)
    requires out == before + now && left + text == now + after
    ensures out + after == before + left + text
  {
    Assoc(before, left, text);
    Assoc(before, now, after);
  }

  lemma SealedHandsOutNothing(g: Gate, text: string, now: nat)
    requires g.Valid() && g.sealed
    ensures Pushed(g, text, now).1 == None && Pushed(g, text, now).0.released == g.released
  {
  }

  /** A held delta is accounted for: what the gate releases now is sent, the
      rest stays held. */
  lemma HoldKeepsBalance(s: Sink, accepted: string, left: string, text: string, now: nat) returns (after: string)
    requires Balanced(s, accepted, left)
    requires s.held.value.bytes + Utf8Len(text) <= s.held.value.cap
    ensures Balanced(HoldDelta(s, text, now), accepted + text, after)
  {
    var g := s.held.value.gate;
    PushHandsOut(g, text, now);
    if g.sealed { SealedHandsOutNothing(g, text, now); }
    after := DeltaHeldKeepsBalance(s, accepted, left, text, Pushed(g, text, now).0, Pushed(g, text, now).1);
  }

  // ---- Runs of a holding sink ----

  datatype SinkCall =
    | Send(event: TurnEvent, now: nat)
    | Flush
    | BeginBlock
    | BeginRound
    | Cut(kept: string)
    | Discard

  function Called(s: Sink, call: SinkCall): (t: Sink)
    requires s.Valid()
    ensures t.Valid()
  {
    match call
    case Send(event, now) => Sent(s, event, now)
    case Flush => Flushed(s)
    case BeginBlock => BlockBegun(s)
    case BeginRound => RoundBegun(s)
    case Cut(kept) => CutFinished(s, kept).0
    case Discard => Discarded(s)
  }

  function RunSink(s: Sink, calls: seq<SinkCall>): (t: Sink)
    requires s.Valid()
    ensures t.Valid()
    decreases |calls|
  {
    if calls == [] then s else Called(RunSink(s, calls[..|calls| - 1]), calls[|calls| - 1])
  }

  function TextSent(call: SinkCall): string {
    if call.Send? && call.event.Delta? then call.event.text else ""
  }

  /** The text of the deltas sent. */
  function Accepted(calls: seq<SinkCall>): string
    decreases |calls|
  {
    if calls == [] then "" else Accepted(calls[..|calls| - 1]) + TextSent(calls[|calls| - 1])
  }

  /** No text is both held and delivered. */
  predicate NothingHeldIsOut(s: Sink, accepted: string) {
    s.held.Some? && |DeltaText(s.out)| + |HeldText(s.held.value)| == |accepted|
  }

  /** No cut, no discard, and a round begins only when none of the held text has
      been delivered; the tool loop flushes before it begins one. */
  ghost predicate Orderly(cap: nat, takes: seq<TurnEvent> -> bool, calls: seq<SinkCall>)
    decreases |calls|
  {
    calls == [] ||
    var before, last := calls[..|calls| - 1], calls[|calls| - 1];
    && Orderly(cap, takes, before) && !last.Cut? && !last.Discard?
    && (last.BeginRound? ==> NothingHeldIsOut(RunSink(Holding(cap, takes), before), Accepted(before)))
  }

  lemma RoundKeepsBalance(s: Sink, accepted: string, left: string)
    requires Balanced(s, accepted, left) && NothingHeldIsOut(s, accepted)
    ensures Balanced(RoundBegun(s), accepted, left)
  {
    var h := s.held.value;
    var done, sent :| Cursor(h, done, sent, left);
    assert sent == "" && HeldText(h) == left;
    assert Cursor(RoundBegun(s).held.value, "", "", left) by { assert "" + left == left; }
  }

  /** The condition on beginning a round is exact: a round begun over held text
      of which a part has been delivered makes the next flush repeat that part. */
  lemma RoundOverSpokenTextRepeatsIt(s: Sink, accepted: string, left: string)
    requires Balanced(s, accepted, left)
    ensures DeltaText(Flushed(RoundBegun(s)).out) == accepted <==> NothingHeldIsOut(s, accepted)
  {
    var t := RoundBegun(s);
    var held := HeldText(s.held.value);
    assert Cursor(t.held.value, "", "", held) by { assert "" + held == held; }
    FlushDeliversTheRest(t, "", "", held);
    var done, sent :| Cursor(s.held.value, done, sent, left);
    assert |held| == |sent| + |left|;
    if |sent| == 0 { assert held == left; }
  }

  lemma SealKeepsBalance(s: Sink, accepted: string, left: string)
    requires Balanced(s, accepted, left)
    ensures Balanced(BlockBegun(s), accepted, left)
  {
    var done, sent :| Cursor(s.held.value, done, sent, left);
    assert Cursor(BlockBegun(s).held.value, done, sent, left);
  }

  lemma SendKeepsBalance(s: Sink, accepted: string, left: string, event: TurnEvent, now: nat) returns (after: string)
    requires Balanced(s, accepted, left)
    requires event.Delta? ==> s.held.value.bytes + Utf8Len(event.text) <= s.held.value.cap
    ensures Balanced(Sent(s, event, now), accepted + if event.Delta? then event.text else "", after)
  {
    if event.Delta? {
      after := HoldKeepsBalance(s, accepted, left, event.text, now);
    } else {
      after := left;
      assert accepted + "" == accepted;
      var done, sent :| Cursor(s.held.value, done, sent, left);
      assert Cursor(Sent(s, event, now).held.value, done, sent, left);
      if !event.Segment? { DeliverOne(s.out, event); }
    }
  }

  lemma {:induction false} RunKeepsBalance(cap: nat, takes: seq<TurnEvent> -> bool, calls: seq<SinkCall>)
      returns (left: string)
    requires Orderly(cap, takes, calls) && Utf8Len(Accepted(calls)) <= cap
    ensures var s := RunSink(Holding(cap, takes), calls);
            && Balanced(s, Accepted(calls), left)
            && s.held.value.cap == cap && s.held.value.bytes == Utf8Len(Accepted(calls))
    decreases |calls|
  {
    if calls == [] {
      left := "";
      assert Cursor(Holding(cap, takes).held.value, "", "", "");
    } else {
      var before, last := calls[..|calls| - 1], calls[|calls| - 1];
      var more := TextSent(last);
      Utf8LenConcat(Accepted(before), more);
      left := RunKeepsBalance(cap, takes, before);
      var s := RunSink(Holding(cap, takes), before);
      BytesCount(s, last);
      left := CallKeepsBalance(s, Accepted(before), left, last);
    }
  }

  lemma CallKeepsBalance(s: Sink, accepted: string, left: string, call: SinkCall) returns (after: string)
    requires Balanced(s, accepted, left) && !call.Cut? && !call.Discard?
    requires s.held.value.bytes + Utf8Len(TextSent(call)) <= s.held.value.cap
    requires call.BeginRound? ==> NothingHeldIsOut(s, accepted)
    ensures Balanced(Called(s, call), accepted + TextSent(call), after)
  {
    hide Balanced, Sent, Flushed, RoundBegun, BlockBegun;
    assert accepted + "" == accepted;
    after := left;
    match call {
      case Send(event, now) => after := SendKeepsBalance(s, accepted, left, event, now);
      case Flush => FlushKeepsBalance(s, accepted, left); after := "";
      case BeginBlock => SealKeepsBalance(s, accepted, left);
      case BeginRound => RoundKeepsBalance(s, accepted, left);
    }
  }

  lemma BytesCount(s: Sink, call: SinkCall)
    requires s.Valid() && s.held.Some? && !s.held.value.overflowed && !call.Cut? && !call.Discard?
    requires s.held.value.bytes + Utf8Len(TextSent(call)) <= s.held.value.cap
    ensures var t := Called(s, call);
            t.held.Some? && t.held.value.cap == s.held.value.cap
            && t.held.value.bytes == s.held.value.bytes + Utf8Len(TextSent(call))
  {
    hide Pushed;
  }

  /** With no overflow, cut or discard: at every point the delivered text is a
      prefix of the accepted text, and a flush delivers exactly the rest. */
  lemma EveryByteOnce(cap: nat, takes: seq<TurnEvent> -> bool, calls: seq<SinkCall>)
    requires Orderly(cap, takes, calls) && Utf8Len(Accepted(calls)) <= cap
    ensures var s := RunSink(Holding(cap, takes), calls);
            && s.held.Some? && DeltaText(s.out) <= Accepted(calls)
            && DeltaText(Flushed(s).out) == Accepted(calls)
            && OnBoundary(s.held.value.deltas, SkipBytes(s.held.value))
  {
    var left := RunKeepsBalance(cap, takes, calls);
    hide RunSink, Orderly, Flushed, DeltaText, HeldText, Utf8Len, Accepted, SkipBytes, OnBoundary, Cursor;
    var s := RunSink(Holding(cap, takes), calls);
    FlushKeepsBalance(s, Accepted(calls), left);
    var done, sent :| Cursor(s.held.value, done, sent, left);
    FlushDeliversTheRest(s, done, sent, left);
  }

  // ---- Everything but text ----

  /** The boundaries sent, in order. */
  function SegmentsSent(calls: seq<SinkCall>): seq<(nat, bool)>
    decreases |calls|
  {
    if calls == [] then []
    else
      var last := calls[|calls| - 1];
      SegmentsSent(calls[..|calls| - 1]) +
      if last.Send? && last.event.Segment? then [(last.event.index, last.event.tool)] else []
  }

  /** With no overflow and no discard every boundary is delivered or held, once
      and in the order sent. */
  lemma {:induction false} EveryBoundaryOnce(cap: nat, takes: seq<TurnEvent> -> bool, calls: seq<SinkCall>)
    requires forall k :: 0 <= k < |calls| ==> !calls[k].Discard?
    requires Utf8Len(Accepted(calls)) <= cap
    ensures var s := RunSink(Holding(cap, takes), calls);
            s.held.Some? && SegmentsOf(s.out) + s.held.value.segments == SegmentsSent(calls)
    decreases |calls|
  {
    if calls != [] {
      var before, last := calls[..|calls| - 1], calls[|calls| - 1];
      Utf8LenConcat(Accepted(before), TextSent(last));
      EveryBoundaryOnce(cap, takes, before);
      OverflowsIffOverTheCap(cap, takes, before);
      OverflowsIffOverTheCap(cap, takes, calls);
      hide Called, Utf8Len, Accepted, RunSink;
      RunUnfolds(Holding(cap, takes), calls);
      CallKeepsBoundaries(RunSink(Holding(cap, takes), before), last);
    }
  }

  lemma RunUnfolds(s: Sink, calls: seq<SinkCall>)
    requires s.Valid() && calls != []
    ensures RunSink(s, calls) == Called(RunSink(s, calls[..|calls| - 1]), calls[|calls| - 1])
  {
    hide Called;
  }

  /** The boundaries delivered and held. */
  function BoundariesIn(s: Sink): seq<(nat, bool)>
    requires s.held.Some?
  {
    SegmentsOf(s.out) + s.held.value.segments
  }

  lemma CallKeepsBoundaries(s: Sink, call: SinkCall)
    requires s.Valid() && s.held.Some? && !Overflowed(Called(s, call)) && !Overflowed(s) && !call.Discard?
    ensures var t := Called(s, call);
            t.held.Some? && SegmentsOf(t.out) + t.held.value.segments ==
            SegmentsOf(s.out) + s.held.value.segments +
            if call.Send? && call.event.Segment? then [(call.event.index, call.event.tool)] else []
  {
    hide SegmentsOf, Sent, Flushed, CutFinished;
    match call {
      case Send(event, now) => SendKeepsBoundaries(s, event, now);
      case Flush => FlushKeepsBoundaries(s);
      case Cut(kept) => CutKeepsBoundaries(s, kept);
      case _ =>
    }
    assert BoundariesIn(s) + [] == BoundariesIn(s);
  }

  lemma SendKeepsBoundaries(s: Sink, event: TurnEvent, now: nat)
    requires s.Valid() && s.held.Some? && !Overflowed(s)
    ensures var t := Sent(s, event, now);
            t.held.Some? && (!Overflowed(t) ==>
              BoundariesIn(t) == BoundariesIn(s) + if event.Segment? then [(event.index, event.tool)] else [])
  {
    hide SegmentsOf, Pushed;
    var t := Sent(s, event, now);
    if t.out != s.out {
      assert t.out == s.out + [t.out[|s.out|]];
      DeliverOne(s.out, t.out[|s.out|]);
      assert SegmentsOf(s.out) + [] == SegmentsOf(s.out);
    }
    assert BoundariesIn(s) + [] == BoundariesIn(s);
  }

  lemma FlushKeepsBoundaries(s: Sink)
    requires s.Valid() && s.held.Some?
    ensures Flushed(s).held.Some? && BoundariesIn(Flushed(s)) == BoundariesIn(s)
  {
    hide SegmentsOf, Pieces, SkipBytes;
    var texts := Pieces(s.held.value.deltas, SkipBytes(s.held.value));
    DeliverDeltas(s.out, texts);
    DeliverSegments(s.out + Deltas(texts), s.held.value.segments);
    assert BoundariesIn(s) + [] == BoundariesIn(s);
  }

  lemma CutKeepsBoundaries(s: Sink, kept: string)
    requires s.Valid() && s.held.Some?
    ensures CutFinished(s, kept).0.held.Some? && BoundariesIn(CutFinished(s, kept).0) == BoundariesIn(s)
  {
    hide SegmentsOf, Finished;
    var t := CutFinished(s, kept).0;
    if t.out != s.out {
      assert t.out == s.out + [t.out[|s.out|]] || t.out == s.out + [];
      if |t.out| > |s.out| { DeliverOne(s.out, t.out[|s.out|]); }
      assert SegmentsOf(s.out) + [] == SegmentsOf(s.out);
    }
  }

  /** The status events among `events`. */
  function StatusesOf(events: seq<TurnEvent>): seq<TurnStatus> {
    if events == [] then []
    else StatusesOf(events[..|events| - 1]) +
         if events[|events| - 1].Status? then [events[|events| - 1].status] else []
  }

  function StatusesSent(calls: seq<SinkCall>): seq<TurnStatus>
    decreases |calls|
  {
    if calls == [] then []
    else
      var last := calls[|calls| - 1];
      StatusesSent(calls[..|calls| - 1]) + if last.Send? && last.event.Status? then [last.event.status] else []
  }

  lemma {:induction false} StatusesAppend(a: seq<TurnEvent>, b: seq<TurnEvent>)
    ensures StatusesOf(a + b) == StatusesOf(a) + StatusesOf(b)
    decreases |b|
  {
    if b == [] {
      assert a + b == a;
    } else {
      StatusesAppend(a, b[..|b| - 1]);
      assert (a + b)[..|a + b| - 1] == a + b[..|b| - 1];
    }
  }

  lemma {:induction false} NoneIsAStatus(events: seq<TurnEvent>)
    requires forall e :: e in events ==> !e.Status?
    ensures StatusesOf(events) == []
  {
    if events != [] {
      assert events[|events| - 1] in events;
      NoneIsAStatus(events[..|events| - 1]);
    }
  }

  /** In every run, overflowed or not, a status is delivered when it is sent. */
  lemma {:induction false} StatusesAreNotHeld(s: Sink, calls: seq<SinkCall>)
    requires s.Valid()
    ensures StatusesOf(RunSink(s, calls).out) == StatusesOf(s.out) + StatusesSent(calls)
    decreases |calls|
  {
    if calls != [] {
      var before, last := calls[..|calls| - 1], calls[|calls| - 1];
      StatusesAreNotHeld(s, before);
      hide Called, RunSink, StatusesOf;
      RunUnfolds(s, calls);
      CallPassesStatus(RunSink(s, before), last);
    }
  }

  lemma CallPassesStatus(s: Sink, call: SinkCall)
    requires s.Valid()
    ensures StatusesOf(Called(s, call).out) ==
            StatusesOf(s.out) + if call.Send? && call.event.Status? then [call.event.status] else []
  {
    hide Pushed, Pieces, SkipBytes;
    var t := Called(s, call);
    if call.Flush? && s.held.Some? {
      var texts, segments := Pieces(s.held.value.deltas, SkipBytes(s.held.value)), s.held.value.segments;
      NoneIsAStatus(Deltas(texts));
      NoneIsAStatus(Segments(segments));
      StatusesAppend(s.out, Deltas(texts));
      StatusesAppend(s.out + Deltas(texts), Segments(segments));
    } else if t.out != s.out {
      assert t.out == s.out + t.out[|s.out|..];
      StatusesAppend(s.out, t.out[|s.out|..]);
      assert |t.out| == |s.out| + 1;
      assert t.out[|s.out|..][..0] == [];
    }
  }

  // ---- What the sink answers ----

  /** What `try_send` answers: of text, that it was taken, but for the text that
      overflows the hold, where the channel answers for the reset; of a boundary,
      whether it will come out; of anything else, whether the channel took it. */
  lemma TakenMeans(s: Sink, event: TurnEvent, now: nat)
    requires s.Valid() && s.held.Some?
    ensures var t := Sent(s, event, now);
            && t.held.Some?
            && (event.Delta? ==> (IsTaken(s, event) <==> (Overflowed(t) && !Overflowed(s) ==> s.takes(t.out))))
            && (event.Segment? ==> (IsTaken(s, event) <==> BoundariesIn(t) != BoundariesIn(s)))
            && (event.Segment? && IsTaken(s, event) ==>
                  BoundariesIn(t) == BoundariesIn(s) + [(event.index, event.tool)])
            && (!event.Delta? && !event.Segment? ==>
                  (IsTaken(s, event) <==> s.takes(t.out)) && t.out == s.out + [event])
  {
    hide SegmentsOf, Pushed;
    if event.Segment? {
      var one := [(event.index, event.tool)];
      assert SegmentsOf(s.out) + (s.held.value.segments + one) == BoundariesIn(s) + one;
      assert |BoundariesIn(s) + one| > |BoundariesIn(s)|;
    }
  }

  /** What `finish_cut` answers: that it has seen to the cut exactly when text has
      been released early and, in this round, only a beginning of what is kept;
      then all that is kept of this round has come out. */
  lemma CutIsHandledIff(s: Sink, kept: string)
    requires s.Valid()
    ensures var (t, handled) := CutFinished(s, kept);
            && (handled <==> ReleasedAny(s) && !Overflowed(s)
                             && s.held.value.gate.buf[..s.held.value.gate.released] <= kept)
            && (handled ==> t.held.value.cutHandled
                            && (s.held.value.gate.released > 0 ==>
                                  DeltaText(t.out) == DeltaText(s.out) + kept[s.held.value.gate.released..]))
            && (!handled ==> t.out == s.out)
  {
    hide DeltaText;
    assert DeltaText(s.out) + "" == DeltaText(s.out) && s.out + [] == s.out;
    if s.held.Some? && s.held.value.gate.released <= |kept| {
      DeliverOne(s.out, Delta(kept[s.held.value.gate.released..]));
    }
  }

  /** Rounds begin only when nothing is held. */
  ghost predicate Tidy(cap: nat, takes: seq<TurnEvent> -> bool, calls: seq<SinkCall>)
    decreases |calls|
  {
    calls == [] ||
    (&& Tidy(cap, takes, calls[..|calls| - 1])
     && (calls[|calls| - 1].BeginRound? ==>
           var s := RunSink(Holding(cap, takes), calls[..|calls| - 1]);
           s.held.Some? && HeldText(s.held.value) == ""))
  }

  ghost predicate Marked(s: Sink) {
    && s.held.Some? && (ReleasedAny(s) <==> DeltaText(s.out) != "")
    && (HeldText(s.held.value) != "" ==> s.held.value.gate.buf != "")
  }

  lemma DeltaKeepsMark(s: Sink, text: string, now: nat)
    requires s.Valid() && Marked(s) && !Overflowed(s) && !s.held.value.gate.closed
    requires s.held.value.bytes + Utf8Len(text) <= s.held.value.cap
    ensures Marked(Sent(s, Delta(text), now))
  {
    hide Pushed, Concat, DeltaText;
    var h := s.held.value;
    var (g, piece) := Pushed(h.gate, text, now);
    PieceSaysSomething(h.gate, text, now);
    if piece.Some? {
      DeliverOne(s.out, Delta(piece.value));
      assert |DeltaText(s.out) + piece.value| > 0;
    }
    ConcatPush(h.deltas, text);
    assert |h.gate.buf + text| == |h.gate.buf| + |text|;
  }

  lemma PieceSaysSomething(g: Gate, text: string, now: nat)
    requires g.Valid() && !g.closed
    ensures var (h, piece) := Pushed(g, text, now);
            h.buf == g.buf + text && (piece.Some? ==> piece.value != "") && (piece.None? ==> h.released == g.released)
  {
    hide EarliestViableFrom, ReleaseCandidate;
  }

  lemma FlushKeepsMark(s: Sink, accepted: string, left: string)
    requires Marked(s) && Balanced(s, accepted, left)
    ensures Marked(Flushed(s))
  {
    hide DeltaText, Pieces, SkipBytes;
    FlushKeepsBalance(s, accepted, left);
    var done, sent :| Cursor(s.held.value, done, sent, left);
    assert |accepted| == |DeltaText(s.out)| + |left|;
  }

  lemma CallKeepsMark(s: Sink, accepted: string, left: string, call: SinkCall)
    requires Marked(s) && Balanced(s, accepted, left) && !call.Cut? && !call.Discard?
    requires s.held.value.bytes + Utf8Len(TextSent(call)) <= s.held.value.cap
    requires call.BeginRound? ==> HeldText(s.held.value) == ""
    ensures Marked(Called(s, call))
  {
    hide Pushed;
    match call {
      case Send(event, now) =>
        if event.Delta? {
          DeltaKeepsMark(s, event.text, now);
        } else if !event.Segment? {
          DeliverOne(s.out, event);
        }
      case Flush => FlushKeepsMark(s, accepted, left);
      case _ =>
    }
  }

  lemma {:induction false} RunKeepsMark(cap: nat, takes: seq<TurnEvent> -> bool, calls: seq<SinkCall>)
    requires Orderly(cap, takes, calls) && Tidy(cap, takes, calls) && Utf8Len(Accepted(calls)) <= cap
    ensures Marked(RunSink(Holding(cap, takes), calls))
    decreases |calls|
  {
    if calls != [] {
      var before, last := calls[..|calls| - 1], calls[|calls| - 1];
      Utf8LenConcat(Accepted(before), TextSent(last));
      RunKeepsMark(cap, takes, before);
      var left := RunKeepsBalance(cap, takes, before);
      hide Marked, Balanced, Called, Utf8Len, Accepted, Concat;
      RunUnfolds(Holding(cap, takes), calls);
      CallKeepsMark(RunSink(Holding(cap, takes), before), Accepted(before), left, last);
    }
  }

  /** In every such run `released_any` says whether any text has come out. */
  lemma ReleasedMeansHeard(cap: nat, takes: seq<TurnEvent> -> bool, calls: seq<SinkCall>)
    requires Orderly(cap, takes, calls) && Tidy(cap, takes, calls) && Utf8Len(Accepted(calls)) <= cap
    ensures var s := RunSink(Holding(cap, takes), calls); ReleasedAny(s) <==> DeltaText(s.out) != ""
  {
    RunKeepsMark(cap, takes, calls);
  }

  // ---- After a discard ----

  /** A discard empties the hold and its account: the text sent from then on has
      the whole cap, and no boundary held before comes out. */
  lemma DiscardStartsAgain(s: Sink, calls: seq<SinkCall>)
    requires s.Valid() && s.held.Some? && !Overflowed(s)
    requires forall k :: 0 <= k < |calls| ==> !calls[k].Discard?
    ensures var t := RunSink(Discarded(s), calls);
            && t.held.Some? && (Overflowed(t) <==> Utf8Len(Accepted(calls)) > s.held.value.cap)
            && (!Overflowed(t) ==> BoundariesIn(t) == SegmentsOf(s.out) + SegmentsSent(calls))
  {
    hide RunSink, Utf8Len, Accepted, SegmentsOf, SegmentsSent, Discarded, BoundariesIn;
    DiscardEmpties(s);
    CountsFrom(Discarded(s), calls);
  }

  lemma DiscardEmpties(s: Sink)
    requires s.Valid() && s.held.Some? && !Overflowed(s)
    ensures var t := Discarded(s);
            && t.Valid() && t.held.Some? && !Overflowed(t) && t.held.value.bytes == 0
            && t.held.value.cap == s.held.value.cap && BoundariesIn(t) == SegmentsOf(s.out)
    ensures Flushed(Discarded(s)).out == s.out
  {
    hide SegmentsOf;
    assert SegmentsOf(s.out) + [] == SegmentsOf(s.out);
    assert Deltas([]) == [] && Segments([]) == [] && s.out + [] + [] == s.out;
  }

  lemma {:induction false} CountsFrom(s: Sink, calls: seq<SinkCall>)
    requires s.Valid() && s.held.Some? && !Overflowed(s) && s.held.value.bytes == 0
    requires forall k :: 0 <= k < |calls| ==> !calls[k].Discard?
    ensures var t := RunSink(s, calls);
            && t.held.Some? && t.held.value.cap == s.held.value.cap
            && (Overflowed(t) <==> Utf8Len(Accepted(calls)) > s.held.value.cap)
            && (!Overflowed(t) ==> t.held.value.bytes == Utf8Len(Accepted(calls)))
            && (!Overflowed(t) ==> BoundariesIn(t) == BoundariesIn(s) + SegmentsSent(calls))
    decreases |calls|
  {
    if calls == [] {
      assert BoundariesIn(s) + [] == BoundariesIn(s);
    } else {
      var before, last := calls[..|calls| - 1], calls[|calls| - 1];
      CountsFrom(s, before);
      Utf8LenConcat(Accepted(before), TextSent(last));
      RunUnfolds(s, calls);
      hide Called, Utf8Len, RunSink, SegmentsOf;
      var t := RunSink(s, before);
      if Overflowed(t) {
        CallKeepsCap(t, last);
      } else {
        CallCountsBytes(t, last);
        if !Overflowed(Called(t, last)) { CallKeepsBoundaries(t, last); }
      }
      if !(last.Send? && last.event.Delta?) { NoBytes(); }
    }
  }

  // ---- A later round waits ----

  /** From the beginning of a later round, and until it is flushed or settled,
      none of its text is delivered. */
  lemma {:induction false} LaterRoundsWait(s: Sink, calls: seq<SinkCall>)
    requires s.Valid() && s.held.Some?
    requires forall k :: 0 <= k < |calls| ==> calls[k].Send? || calls[k].BeginBlock?
    ensures var t := RunSink(RoundBegun(s), calls);
            t.held.Some? && DeltaText(t.out) == DeltaText(s.out) && t.held.value.gate.sealed
    decreases |calls|
  {
    if calls != [] {
      var before, last := calls[..|calls| - 1], calls[|calls| - 1];
      LaterRoundsWait(s, before);
      var t := RunSink(RoundBegun(s), before);
      if last.Send? {
        SealedSendsNoText(t, last.event, last.now);
      }
    }
  }

  lemma SealedSendsNoText(s: Sink, event: TurnEvent, now: nat)
    requires s.Valid() && s.held.Some? && s.held.value.gate.sealed
    ensures var t := Sent(s, event, now);
            t.held.Some? && DeltaText(t.out) == DeltaText(s.out) && t.held.value.gate.sealed
  {
    if event.Delta? {
      SealedHandsOutNothing(s.held.value.gate, event.text, now);
      DeliverOne(s.out, Reset(Budget));
    } else {
      DeliverOne(s.out, event);
    }
  }

  // ---- Overflow ----

  /** The events a sink that holds passes on at once. */
  function PassedOn(calls: seq<SinkCall>): seq<TurnEvent>
    decreases |calls|
  {
    if calls == [] then []
    else
      var last := calls[|calls| - 1];
      PassedOn(calls[..|calls| - 1]) +
      if last.Send? && !last.event.Delta? && !last.event.Segment? then [last.event] else []
  }

  // ---- One reset for an overflow ----

  function Resets(events: seq<TurnEvent>): nat {
    if events == [] then 0
    else Resets(events[..|events| - 1]) + if events[|events| - 1].Reset? then 1 else 0
  }

  /** The resets among the events sent by the caller. */
  function ResetsSent(calls: seq<SinkCall>): nat
    decreases |calls|
  {
    if calls == [] then 0
    else
      var last := calls[|calls| - 1];
      ResetsSent(calls[..|calls| - 1]) + if last.Send? && last.event.Reset? then 1 else 0
  }

  lemma {:induction false} ResetsAppend(a: seq<TurnEvent>, b: seq<TurnEvent>)
    ensures Resets(a + b) == Resets(a) + Resets(b)
    decreases |b|
  {
    if b == [] {
      assert a + b == a;
    } else {
      ResetsAppend(a, b[..|b| - 1]);
      assert (a + b)[..|a + b| - 1] == a + b[..|b| - 1];
    }
  }

  lemma {:induction false} NoneIsAReset(events: seq<TurnEvent>)
    requires forall e :: e in events ==> !e.Reset?
    ensures Resets(events) == 0
  {
    if events != [] {
      assert events[|events| - 1] in events;
      NoneIsAReset(events[..|events| - 1]);
    }
  }

  predicate Overflowed(s: Sink) { s.held.Some? && s.held.value.overflowed }

  lemma CallCountsResets(s: Sink, call: SinkCall)
    requires s.Valid() && s.held.Some?
    ensures var t := Called(s, call);
            && t.held.Some? && (Overflowed(s) ==> Overflowed(t))
            && Resets(t.out) + (if Overflowed(s) then 1 else 0)
            == Resets(s.out) + ResetsSent([call]) + if Overflowed(t) then 1 else 0
  {
    assert [call][..0] == [];
    match call {
      case Send(event, now) => SendCountsResets(s, event, now);
      case Flush =>
        hide Pieces, SkipBytes;
        var h := s.held.value;
        var texts := Pieces(h.deltas, SkipBytes(h));
        NoneIsAReset(Deltas(texts));
        NoneIsAReset(Segments(h.segments));
        ResetsAppend(s.out, Deltas(texts));
        ResetsAppend(s.out + Deltas(texts), Segments(h.segments));
      case Cut(kept) =>
        if CutFinished(s, kept).0.out != s.out { ResetsAppend(s.out, CutFinished(s, kept).0.out[|s.out|..]); }
      case _ =>
    }
  }

  lemma SendCountsResets(s: Sink, event: TurnEvent, now: nat)
    requires s.Valid() && s.held.Some?
    ensures var t := Sent(s, event, now);
            && t.held.Some? && (Overflowed(s) ==> Overflowed(t))
            && Resets(t.out) + (if Overflowed(s) then 1 else 0)
            == Resets(s.out) + (if event.Reset? then 1 else 0) + if Overflowed(t) then 1 else 0
  {
    hide Pushed, Resets;
    var t := Sent(s, event, now);
    if t.out != s.out {
      assert t.out == s.out + [t.out[|s.out|]];
      ResetsPush(s.out, t.out[|s.out|]);
    }
  }

  lemma ResetsPush(out: seq<TurnEvent>, event: TurnEvent)
    ensures Resets(out + [event]) == Resets(out) + if event.Reset? then 1 else 0
  {
    assert (out + [event])[..|out|] == out;
  }

  /** In every run of a holding sink the resets delivered are those the caller
      sent and, if the hold has overflowed, exactly one more. */
  lemma {:induction false} OneResetForAnOverflow(cap: nat, takes: seq<TurnEvent> -> bool, calls: seq<SinkCall>)
    ensures var s := RunSink(Holding(cap, takes), calls);
            s.held.Some? && Resets(s.out) == ResetsSent(calls) + if Overflowed(s) then 1 else 0
    decreases |calls|
  {
    if calls != [] {
      var before, last := calls[..|calls| - 1], calls[|calls| - 1];
      OneResetForAnOverflow(cap, takes, before);
      hide Called;
      CallCountsResets(RunSink(Holding(cap, takes), before), last);
      assert [last][..0] == [];
    }
  }

  /** The hold overflows in no call but the delta that crosses the cap, which is
      dropped with everything held. */
  lemma OverflowsIff(s: Sink, call: SinkCall)
    requires s.Valid() && s.held.Some? && !Overflowed(s)
    ensures var t := Called(s, call);
            && (Overflowed(t) <==>
                call.Send? && call.event.Delta? && s.held.value.bytes + Utf8Len(call.event.text) > s.held.value.cap)
            && (Overflowed(t) ==>
                  t.out == s.out + [Reset(Budget)] && t.held.value.deltas == [] && t.held.value.segments == [])
  {
    hide Pushed, Finished;
  }

  lemma CallCountsBytes(s: Sink, call: SinkCall)
    requires s.Valid() && s.held.Some? && !Overflowed(s) && !call.Discard?
    ensures var t := Called(s, call);
            && t.held.Some? && t.held.value.cap == s.held.value.cap
            && (Overflowed(t) <==> s.held.value.bytes + Utf8Len(TextSent(call)) > s.held.value.cap
                                   && call.Send? && call.event.Delta?)
            && (!Overflowed(t) ==> t.held.value.bytes == s.held.value.bytes + Utf8Len(TextSent(call)))
  {
    hide Pushed, Finished;
  }

  /** In every run without a discard the hold has overflowed exactly when the
      text sent is longer than the cap, released or flushed text included. */
  lemma {:induction false} OverflowsIffOverTheCap(cap: nat, takes: seq<TurnEvent> -> bool, calls: seq<SinkCall>)
    requires forall k :: 0 <= k < |calls| ==> !calls[k].Discard?
    ensures var s := RunSink(Holding(cap, takes), calls);
            && s.held.Some? && s.held.value.cap == cap
            && (Overflowed(s) <==> Utf8Len(Accepted(calls)) > cap)
            && (!Overflowed(s) ==> s.held.value.bytes == Utf8Len(Accepted(calls)))
    decreases |calls|
  {
    if calls != [] {
      var before, last := calls[..|calls| - 1], calls[|calls| - 1];
      OverflowsIffOverTheCap(cap, takes, before);
      Utf8LenConcat(Accepted(before), TextSent(last));
      hide Called, Utf8Len;
      var s := RunSink(Holding(cap, takes), before);
      if Overflowed(s) { CallKeepsCap(s, last); } else { CallCountsBytes(s, last); }
      if !(last.Send? && last.event.Delta?) { NoBytes(); }
    }
  }

  lemma NoBytes()
    ensures Utf8Len("") == 0
  {
  }

  lemma CallKeepsCap(s: Sink, call: SinkCall)
    requires s.Valid() && Overflowed(s)
    ensures Overflowed(Called(s, call)) && Called(s, call).held.value.cap == s.held.value.cap
  {
    hide Pushed, Finished;
  }

  /** After an overflow the sink delivers nothing of its own: no text, no
      boundary and no second reset, whatever is called. */
  lemma {:induction false} OverflowIsFinal(s: Sink, calls: seq<SinkCall>)
    requires s.Valid() && s.held.Some? && s.held.value.overflowed
    requires s.held.value.deltas == [] && s.held.value.segments == []
    ensures var t := RunSink(s, calls);
            && t.held.Some? && t.held.value.overflowed && t.held.value.deltas == [] && t.held.value.segments == []
            && t.out == s.out + PassedOn(calls)
    decreases |calls|
  {
    if calls != [] {
      OverflowIsFinal(s, calls[..|calls| - 1]);
    }
  }

  /** In every run of a holding sink, at the call that overflows the hold and
      after it: the budget reset goes out, and from then on nothing but what the
      caller sends besides text and boundaries. */
  lemma NothingFollowsAnOverflow(cap: nat, takes: seq<TurnEvent> -> bool, before: seq<SinkCall>, call: SinkCall,
      after: seq<SinkCall>)
    requires !Overflowed(RunSink(Holding(cap, takes), before))
             && Overflowed(RunSink(Holding(cap, takes), before + [call]))
    ensures RunSink(Holding(cap, takes), before + [call] + after).out
         == RunSink(Holding(cap, takes), before).out + [Reset(Budget)] + PassedOn(after)
  {
    hide Called;
    var s := RunSink(Holding(cap, takes), before);
    HoldsOn(cap, takes, before);
    assert (before + [call])[..|before|] == before;
    OverflowsIff(s, call);
    OverflowIsFinal(Called(s, call), after);
    RunsOn(Holding(cap, takes), before + [call], after);
  }

  lemma HoldsOn(cap: nat, takes: seq<TurnEvent> -> bool, calls: seq<SinkCall>)
    ensures RunSink(Holding(cap, takes), calls).held.Some?
  {
    OneResetForAnOverflow(cap, takes, calls);
  }

  lemma {:induction false} RunsOn(s: Sink, a: seq<SinkCall>, b: seq<SinkCall>)
    requires s.Valid()
    ensures RunSink(s, a + b) == RunSink(RunSink(s, a), b)
    decreases |b|
  {
    hide Called;
    if b == [] {
      assert a + b == a;
    } else {
      RunsOn(s, a, b[..|b| - 1]);
      assert (a + b)[..|a + b| - 1] == a + b[..|b| - 1];
    }
  }
}
