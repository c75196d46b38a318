/** What a whole turn hands to a voice client: the streaming loop, the sink and
    the gate together (`src/tool_loop.rs`, `src/speech_gate.rs`). */
module VoiceTurns {
  import opened Text
  import opened TurnEvents
  import opened SpeechGates
  import opened ProgressSinks
  import opened Messages
  import opened ToolLoops

  /** What a stream delivers before it is over: its text, the text of its first
      block, and whether that block has ended. */
  datatype Talk = Talk(text: string, first: string, ended: bool)

  function More(k: Talk, e: StreamEvent): Talk {
    match e
    case TextDelta(more) => Talk(k.text + more, if k.ended then k.first else k.first + more, k.ended)
    case TextBlockEnd => k.(ended := true)
    case _ => k
  }

  function TalkOf(events: seq<Timed>): Talk {
    if events == [] then Talk("", "", false)
    else
      var before, last := events[..|events| - 1], events[|events| - 1].event;
      if Outcome(before).None? then More(TalkOf(before), last) else TalkOf(before)
  }

  /** The text of the first text block. */
  function FirstText(blocks: seq<Block>): string {
    if blocks == [] then "" else if blocks[0].TextBlock? then blocks[0].text else FirstText(blocks[1..])
  }

  /** The kept reply begins with whatever of the first text block can no longer
      be part of a marker, and a reply that is not truncated stays as it is. */
  ghost predicate GuardKeeps(wide: char -> bool, env: Env) {
    forall blocks :: var (kept, truncated) := env.guard(blocks);
                     KeepsSafe(wide, FirstText(blocks), TextOf(kept)) && (!truncated ==> kept == blocks)
  }

  ghost predicate KeepsSafe(wide: char -> bool, first: string, kept: string) {
    forall n: nat :: SafeTo(wide, first, n) ==> first[..n] <= kept
  }

  /** A guard that cuts block by block keeps the first block's part in front. */
  ghost predicate CutsByBlock(wide: char -> bool, env: Env) {
    forall blocks :: var (kept, truncated) := env.guard(blocks);
                     Kept(wide, FirstText(blocks)) <= TextOf(kept) && (!truncated ==> kept == blocks)
  }

  /** A guard that cuts the blocks as if they were one text. */
  ghost predicate CutsAsOne(wide: char -> bool, env: Env) {
    forall blocks :: var (kept, truncated) := env.guard(blocks);
                     TextOf(kept) == Kept(wide, TextOf(blocks)) && (!truncated ==> kept == blocks)
  }

  /** Either way the guard keeps what is needed. */
  lemma EitherGuardKeeps(wide: char -> bool, env: Env)
    requires CutsByBlock(wide, env) || CutsAsOne(wide, env)
    ensures GuardKeeps(wide, env)
  {
    hide Kept, KeepsSafe, FirstText, TextOf;
    forall blocks
      ensures var (kept, truncated) := env.guard(blocks);
              KeepsSafe(wide, FirstText(blocks), TextOf(kept)) && (!truncated ==> kept == blocks)
    {
      FirstIsFirst(blocks);
      KeptKeepsSafe(wide, FirstText(blocks), if CutsByBlock(wide, env) then FirstText(blocks) else TextOf(blocks),
                    TextOf(env.guard(blocks).0));
    }
  }

  lemma KeptKeepsSafe(wide: char -> bool, first: string, whole: string, kept: string)
    requires first <= whole && Kept(wide, whole) <= kept
    ensures KeepsSafe(wide, first, kept)
  {
    hide Kept;
    forall n: nat | SafeTo(wide, first, n)
      ensures first[..n] <= kept
    {
      SafeIsKept(wide, first, n, whole);
    }
  }

  lemma {:induction false} FirstIsFirst(blocks: seq<Block>)
    ensures FirstText(blocks) <= TextOf(blocks)
    decreases |blocks|
  {
    if blocks != [] {
      var init := blocks[..|blocks| - 1];
      FirstIsFirst(init);
      FirstOfMore(blocks);
    }
  }

  /** A further block changes the first text only if there was no text block. */
  lemma {:induction false} FirstOfMore(blocks: seq<Block>)
    requires blocks != []
    ensures var init, last := blocks[..|blocks| - 1], blocks[|blocks| - 1];
            || FirstText(blocks) == FirstText(init)
            || (TextOf(init) == "" && last.TextBlock? && FirstText(blocks) == last.text)
    decreases |blocks|
  {
    var init, last := blocks[..|blocks| - 1], blocks[|blocks| - 1];
    if |blocks| == 1 {
      assert init == [];
    } else if !blocks[0].TextBlock? {
      assert init[1..] == blocks[1..][..|blocks| - 2];
      FirstOfMore(blocks[1..]);
      TextWithoutFirst(init);
    }
  }

  lemma {:induction false} TextWithoutFirst(blocks: seq<Block>)
    requires blocks != [] && !blocks[0].TextBlock?
    ensures TextOf(blocks) == TextOf(blocks[1..])
    decreases |blocks|
  {
    var init := blocks[..|blocks| - 1];
    if |blocks| == 1 {
      assert init == [] && blocks[1..] == [];
    } else {
      TextWithoutFirst(init);
      assert init[1..] == blocks[1..][..|blocks| - 2];
    }
  }

  /** The final response holds the text that was streamed, and its first text
      block begins with what was streamed before the first block ended. */
  ghost predicate StreamsMatch(env: Env) {
    forall h :: var r := ResponseOf(env.stream(h)); r.Ok? ==> Carries(r.value, TalkOf(env.stream(h)))
  }

  predicate Carries(r: Response, k: Talk) { TextOf(r.content) == k.text && k.first <= FirstText(r.content) }

  // ---- During a round ----

  /** Of the round's text so far, the first `n` characters have been heard after
      `prior`; they are of the first block, and safe. Unless the hold has
      overflowed, all of the text is in the gate, which the end of the first block
      has sealed. A sink that overflowed in an earlier round is `frozen`. */
  ghost predicate Hearing(wide: char -> bool, s: Sink, prior: string, k: Talk, n: nat, frozen: bool) {
    && s.Valid() && s.held.Some? && SafeTo(wide, k.first, n) && k.first <= k.text && (!k.ended ==> k.first == k.text)
    && DeltaText(s.out) == prior + k.text[..n]
    && (frozen ==> s.held.value.overflowed && n == 0)
    && if s.held.value.overflowed then s.held.value.deltas == [] && s.held.value.segments == []
       else
         && s.held.value.gate.buf == k.text && HeldText(s.held.value) == k.text
         && s.held.value.gate.released == n && !s.held.value.gate.closed
         && (k.ended ==> s.held.value.gate.sealed)
  }

  lemma HearQuiet(wide: char -> bool, s: Sink, prior: string, k: Talk, n: nat, frozen: bool, event: TurnEvent)
    requires Hearing(wide, s, prior, k, n, frozen) && !event.Delta?
    ensures Hearing(wide, Sent(s, event, 0), prior, k, n, frozen)
  {
    hide SafeTo, DeltaText, Concat;
    if !event.Segment? { DeliverOne(s.out, event); }
  }

  lemma HearBlockEnd(wide: char -> bool, s: Sink, prior: string, k: Talk, n: nat, frozen: bool)
    requires Hearing(wide, s, prior, k, n, frozen)
    ensures Hearing(wide, BlockBegun(s), prior, k.(ended := true), n, frozen)
  {
    hide SafeTo, DeltaText, Concat;
  }

  /** A delta of the first block while the hold is open. */
  lemma HearHeld(wide: char -> bool, s: Sink, prior: string, k: Talk, n: nat, more: string, now: nat)
    returns (m: nat)
    requires Hearing(wide, s, prior, k, n, false) && !s.held.value.overflowed && !k.ended
    requires s.held.value.bytes + Utf8Len(more) <= s.held.value.cap
    ensures Hearing(wide, HoldDelta(s, more, now), prior, More(k, TextDelta(more)), m, false)
  {
    hide Pushed, DeltaText, Concat, SafeTo, Utf8Len, Kept;
    var h, g, text := s.held.value, s.held.value.gate, k.text;
    PushKeepsSafe(wide, g, more, now);
    PushHandsOut(g, more, now);
    ConcatPush(h.deltas, more);
    if Pushed(g, more, now).1.Some? { DeliverOne(s.out, Delta(Pushed(g, more, now).1.value)); }
    var (gate, piece) := Pushed(g, more, now);
    m := gate.released;
    Assoc(prior, text[..n], if piece.Some? then piece.value else "");
  }

  /** A delta of a later block: nothing is released. */
  lemma HearLater(wide: char -> bool, s: Sink, prior: string, k: Talk, n: nat, more: string, now: nat)
    requires Hearing(wide, s, prior, k, n, false) && !s.held.value.overflowed && k.ended
    requires s.held.value.bytes + Utf8Len(more) <= s.held.value.cap
    ensures Hearing(wide, HoldDelta(s, more, now), prior, More(k, TextDelta(more)), n, false)
  {
    var h, g := s.held.value, s.held.value.gate;
    PushHandsOut(g, more, now);
    SealedHandsOutNothing(g, more, now);
    ConcatPush(h.deltas, more);
    SafeInBounds(wide, k.first, n);
    assert (k.text + more)[..n] == k.text[..n];
    hide Pushed, DeltaText, Concat, SafeTo, Utf8Len;
  }

  lemma HearDelta(wide: char -> bool, s: Sink, prior: string, k: Talk, n: nat, frozen: bool, more: string, now: nat)
    returns (m: nat)
    requires Hearing(wide, s, prior, k, n, frozen)
    ensures Hearing(wide, Sent(s, Delta(more), now), prior, More(k, TextDelta(more)), m, frozen)
  {
    hide Pushed, DeltaHeld, DeltaText, Concat, SafeTo, Utf8Len;
    var h := s.held.value;
    m := n;
    if h.overflowed || h.bytes + Utf8Len(more) > h.cap {
      SafeStays(wide, k.first, more, n);
      SafeInBounds(wide, k.first, n);
      assert (k.text + more)[..n] == k.text[..n];
      DeliverOne(s.out, Reset(Budget));
    } else if k.ended {
      HearLater(wide, s, prior, k, n, more, now);
    } else {
      m := HearHeld(wide, s, prior, k, n, more, now);
    }
  }

  lemma SafeInBounds(wide: char -> bool, text: string, n: nat)
    requires SafeTo(wide, text, n)
    ensures n <= |text|
  {
  }

  lemma {:induction false} HearStream(wide: char -> bool, sp: Speaker, prior: string, n: nat, frozen: bool,
      events: seq<Timed>)
    returns (m: nat)
    requires sp.Valid() && Hearing(wide, sp.sink, prior, Talk("", "", false), n, frozen)
    ensures Hearing(wide, Drive(sp, events).sp.sink, prior, TalkOf(events), m, frozen)
    ensures Drive(sp, events).got == Outcome(events)
    decreases |events|
  {
    hide Hearing, Sent, BlockBegun, More;
    m := n;
    if events != [] {
      var before, last := events[..|events| - 1], events[|events| - 1];
      m := HearStream(wide, sp, prior, n, frozen, before);
      m := HearEvent(wide, Drive(sp, before), prior, TalkOf(before), m, frozen, last);
    }
  }

  lemma HearEvent(wide: char -> bool, d: Driven, prior: string, k: Talk, n: nat, frozen: bool, e: Timed)
    returns (m: nat)
    requires d.sp.Valid() && Hearing(wide, d.sp.sink, prior, k, n, frozen)
    ensures Hearing(wide, Heard(d, e).sp.sink, prior, if d.got.None? then More(k, e.event) else k, m, frozen)
  {
    hide Hearing, Sent, BlockBegun;
    m := n;
    if d.got.None? {
      match e.event {
        case TextDelta(more) =>
          var s := if d.responding then d.sp.sink else Sent(d.sp.sink, Status(Responding), 0);
          if !d.responding { HearQuiet(wide, d.sp.sink, prior, k, n, frozen, Status(Responding)); }
          m := HearDelta(wide, s, prior, k, n, frozen, more, e.now);
        case TextBlockEnd => HearBlockEnd(wide, d.sp.sink, prior, k, n, frozen);
        case SegmentEnd(tool) => HearQuiet(wide, d.sp.sink, prior, k, n, frozen, Segment(d.sp.next, tool));
        case _ =>
      }
    }
  }

  // ---- Between rounds ----

  /** Nothing is held, and `said` has been heard, or a part of it if the hold
      has overflowed. */
  ghost predicate Between(s: Sink, said: string) {
    && s.Valid() && s.held.Some? && s.held.value.deltas == [] && s.held.value.segments == []
    && DeltaText(s.out) <= said
    && (!s.held.value.overflowed ==> DeltaText(s.out) == said && !s.held.value.gate.closed)
  }

  lemma FlushHears(wide: char -> bool, s: Sink, prior: string, k: Talk, n: nat, frozen: bool)
    requires Hearing(wide, s, prior, k, n, frozen)
    ensures Between(Flushed(s), prior + k.text) && n <= |k.text|
    ensures DeltaText(Flushed(s).out) == prior + if s.held.value.overflowed then k.text[..n] else k.text
    ensures Flushed(s).held.value.overflowed == s.held.value.overflowed
  {
    var h, text := s.held.value, k.text;
    SafeInBounds(wide, k.first, n);
    hide SafeTo, Utf8Len, DeltaText;
    if h.overflowed {
      assert Pieces([], SkipBytes(h)) == [];
      assert s.out + Deltas([]) + ProgressSinks.Segments([]) == s.out;
      assert text == text[..n] + text[n..];
      Assoc(prior, text[..n], text[n..]);
    } else {
      assert text == "" + text[..n] + text[n..];
      assert text == text[..n] + text[n..];
      FlushDeliversTheRest(s, "", text[..n], text[n..]);
      Assoc(prior, text[..n], text[n..]);
    }
  }

  lemma FlushIdles(s: Sink, said: string)
    requires Between(s, said)
    ensures Between(Flushed(s), said) && Flushed(s).out == s.out
    ensures Flushed(s).held.value.overflowed == s.held.value.overflowed
  {
    hide DeltaText, Utf8Len;
    assert s.out + Deltas([]) + ProgressSinks.Segments([]) == s.out;
  }

  lemma TellKeepsBetween(s: Sink, said: string, events: seq<TurnEvent>)
    requires Between(s, said) && forall e :: e in events ==> !e.Delta?
    ensures Between(s.(out := s.out + events), said) && DeltaText(s.out + events) == DeltaText(s.out)
    decreases |events|
  {
    if events == [] {
      assert s.out + events == s.out;
    } else {
      var before := events[..|events| - 1];
      TellKeepsBetween(s, said, before);
      assert s.out + events == s.out + before + [events[|events| - 1]];
      DeliverOne(s.out + before, events[|events| - 1]);
    }
  }

  /** A later round starts from an empty, sealed buffer. */
  lemma OpenHears(wide: char -> bool, sp: Speaker, said: string, rounds: nat)
    requires sp.Valid() && Between(sp.sink, said)
    requires rounds == 0 ==> sp.sink.held.value.gate.buf == "" && sp.sink.held.value.gate.released == 0
    ensures Hearing(wide, RoundOpened(sp, rounds).sink, DeltaText(sp.sink.out), Talk("", "", false), 0,
                    sp.sink.held.value.overflowed)
  {
    hide DeltaText;
    var s := if rounds > 0 then RoundBegun(sp.sink) else sp.sink;
    var prior := DeltaText(sp.sink.out);
    assert prior + ""[..0] == prior;
    assert SafeTo(wide, "", 0);
    HearQuiet(wide, s, prior, Talk("", "", false), 0, sp.sink.held.value.overflowed, Status(Thinking));
  }

  // ---- The end of a round ----

  /** A settled cut: what was heard is completed to the kept text, or left. */
  lemma CutHears(wide: char -> bool, s: Sink, prior: string, k: Talk, n: nat, frozen: bool, kept: string)
    requires Hearing(wide, s, prior, k, n, frozen) && n <= |k.text| && k.text[..n] <= kept
    ensures DeltaText(CutFinished(s, kept).0.out) <= prior + kept
  {
    assert prior + k.text[..n] <= prior + kept;
    var h := s.held.value;
    if !h.overflowed && h.gate.released > 0 {
      CutDelivers(s, prior, k.text, n, kept);
    }
  }

  lemma CutDelivers(s: Sink, prior: string, text: string, n: nat, kept: string)
    requires s.Valid() && s.held.Some? && !s.held.value.overflowed && s.held.value.gate.released == n > 0
    requires s.held.value.gate.buf == text && n <= |text| && text[..n] <= kept
    requires DeltaText(s.out) == prior + text[..n]
    ensures DeltaText(CutFinished(s, kept).0.out) == prior + kept
  {
    hide DeltaText;
    var rest := kept[n..];
    assert kept == text[..n] + rest;
    Assoc(prior, text[..n], rest);
    DeliverOne(s.out, Delta(rest));
    assert s.out + [] == s.out;
    assert Finished(s.held.value.gate, kept).1 == Rest(if rest == [] then None else Some(rest));
    if rest == "" { assert prior + text[..n] + rest == prior + text[..n]; }
  }

  /** What is heard of a round whose response the guard kept whole. */
  lemma WholeRoundHears(wide: char -> bool, env: Env, sp: Speaker, prior: string, k: Talk, n: nat, frozen: bool,
                        r: Response, names: seq<string>, rounds: nat, outcome: RoundOutcome)
    requires sp.Valid() && Hearing(wide, sp.sink, prior, k, n, frozen) && n <= |k.text| && !env.guard(r.content).1
    requires outcome.Continue? <==> Survives(env, r, rounds)
    requires outcome.TurnOver? ==> !outcome.result.wasTruncated
    ensures var s := AfterFinish(env, BeforeFinish(env, sp, r, names, rounds), r, names, rounds, outcome).sink;
            && Between(s, prior + k.text) && s.held.value.overflowed == sp.sink.held.value.overflowed
            && DeltaText(s.out) == prior + if s.held.value.overflowed then k.text[..n] else k.text
  {
    hide Hearing, Between, DeltaText, Flushed, Sent;
    var said := prior + k.text;
    FlushHears(wide, sp.sink, prior, k, n, frozen);
    var f := Flushed(sp.sink);
    FlushIdles(f, said);
    TellKeepsBetween(f, said, [ToolBoundary(sp.next, true)]);
    TellKeepsBetween(f, said, [ToolBoundary(sp.next, false)]);
    var g := Flushed(f);
    TellKeepsBetween(g, said, Statuses(names));
    TellKeepsBetween(f, said, Statuses(names));
    TellKeepsBetween(f.(out := f.out + [ToolBoundary(sp.next, true)]), said, Statuses(names));
    HearingHolds(wide, sp.sink, prior, k, n, frozen);
  }

  function ToolBoundary(index: nat, tool: bool): TurnEvent { Segment(index, tool) }

  lemma HearingHolds(wide: char -> bool, s: Sink, prior: string, k: Talk, n: nat, frozen: bool)
    requires Hearing(wide, s, prior, k, n, frozen)
    ensures s.Valid() && s.held.Some? && SafeTo(wide, k.first, n) && k.first <= k.text && n <= |k.text|
    ensures DeltaText(s.out) == prior + k.text[..n]
  {
  }

  // ---- The whole turn ----

  /** The replies in the history from index `from` on, as text. */
  function Said(history: seq<Message>, from: nat): string
    requires from <= |history|
    decreases |history|
  {
    if from == |history| then ""
    else
      var last := history[|history| - 1];
      Said(history[..|history| - 1], from) + if last.role == Assistant then TextOf(last.blocks) else ""
  }

  lemma SaidAppend(history: seq<Message>, from: nat, m: Message)
    requires from <= |history|
    ensures Said(history + [m], from) == Said(history, from) + if m.role == Assistant then TextOf(m.blocks) else ""
  {
    assert (history + [m])[..|history + [m]| - 1] == history;
  }

  /** What was heard is a beginning of `said` and then of what the guard keeps of
      every reply whose first text block begins with `first`. */
  ghost predicate HeardSafely(env: Env, heard: string, said: string, first: string) {
    forall blocks :: first <= FirstText(blocks) ==> heard <= said + TextOf(env.guard(blocks).0)
  }

  /** Where the sink stands when `calls` provider calls have been answered and
      the turn goes on. */
  ghost predicate Going(sp: Speaker, rounds: nat, said: string) {
    && sp.Valid() && Between(sp.sink, said)
    && (rounds == 0 ==> sp.sink.held.value.gate.buf == "" && sp.sink.held.value.gate.released == 0)
  }

  lemma RoundShape(env: Env, rs: Rounds, history: seq<Message>, from: nat, r: Response)
    requires from <= |history|
    ensures var (rs1, history1, outcome) := RoundFinished(env, rs, history, r);
            var kept := env.guard(r.content).0;
            && |history| <= |history1|
            && Said(history1, from) == Said(history, from) + TextOf(kept)
            && (outcome.Continue? <==> Survives(env, r, rs.rounds))
            && (outcome.Continue? ==> rs1.rounds == rs.rounds + 1 <= env.maxRounds)
            && (outcome.TurnOver? ==> outcome.result.wasTruncated == env.guard(r.content).1)
  {
    ContinueCounts(env, rs, history, r);
    hide Execute, Nudged, Spoken, TextOf, Said, Join;
    var (kept, _) := env.guard(r.content);
    var reply := Message(Assistant, kept);
    var (rs1, history1, outcome) := RoundFinished(env, rs, history, r);
    SaidAppend(history, from, reply);
    if outcome.Continue? {
      var answer := history1[|history1| - 1];
      assert history1 == history + [reply] + [answer];
      SaidAppend(history + [reply], from, answer);
      assert Said(history, from) + TextOf(kept) + "" == Said(history, from) + TextOf(kept);
    }
  }

  /** One round of a voice turn. */
  lemma RoundHears(wide: char -> bool, env: Env, rs: Rounds, history: seq<Message>, sp: Speaker, from: nat)
    requires GuardKeeps(wide, env) && StreamsMatch(env) && from <= |history|
    requires Going(sp, rs.rounds, Said(history, from))
    ensures var s := StreamRound(env, rs, history, sp);
            && from <= |s.history| && s.sp.sink.held.Some?
            && var said := Said(s.history, from);
            match s.outcome
            case Ok(Continue) => Going(s.sp, s.rs.rounds, said)
            case Ok(TurnOver(result)) =>
              && DeltaText(s.sp.sink.out) <= said
              && (!result.wasTruncated && !s.sp.sink.held.value.overflowed ==> DeltaText(s.sp.sink.out) == said)
            case Err(_) => HeardSafely(env, DeltaText(s.sp.sink.out), said, TalkOf(env.stream(history)).first)
  {
    hide Hearing, RoundFinished, BeforeFinish, AfterFinish, Said, TextOf, FirstText, DeltaText, TalkOf, SafeTo;
    var said, events := Said(history, from), env.stream(history);
    var prior, frozen := DeltaText(sp.sink.out), sp.sink.held.value.overflowed;
    OpenHears(wide, sp, said, rs.rounds);
    var begun := RoundOpened(sp, rs.rounds);
    var n := HearStream(wide, begun, prior, 0, frozen, events);
    var d, k := Drive(begun, events), TalkOf(events);
    HearingHolds(wide, d.sp.sink, prior, k, n, frozen);
    if d.got.Some? && d.got.value.Ok? {
      var r := d.got.value.value;
      assert Carries(r, k);
      ResponseHears(wide, env, rs, history, d.sp, from, r, d.names, prior, k, n, frozen);
    } else {
      forall blocks | k.first <= FirstText(blocks)
        ensures DeltaText(d.sp.sink.out) <= said + TextOf(env.guard(blocks).0)
      {
        PartHeard(wide, env, d.sp.sink, said, prior, k, n, frozen, blocks);
      }
    }
  }

  lemma PartHeard(wide: char -> bool, env: Env, s: Sink, said: string, prior: string, k: Talk, n: nat, frozen: bool,
                  blocks: seq<Block>)
    requires GuardKeeps(wide, env) && Hearing(wide, s, prior, k, n, frozen) && k.first <= FirstText(blocks)
    requires prior <= said && (!frozen ==> prior == said)
    ensures n <= |k.text| && k.text[..n] <= TextOf(env.guard(blocks).0)
    ensures DeltaText(s.out) <= said + TextOf(env.guard(blocks).0)
  {
    hide FirstText, TextOf;
    var whole := FirstText(blocks);
    HearingHolds(wide, s, prior, k, n, frozen);
    SafeInBounds(wide, k.first, n);
    assert k.first + whole[|k.first|..] == whole;
    SafeStays(wide, k.first, whole[|k.first|..], n);
    assert k.text[..n] == k.first[..n] == whole[..n];
    hide SafeTo, DeltaText;
    if frozen {
      assert n == 0;
      assert prior + k.text[..0] == prior;
    }
  }

  lemma ResponseHears(wide: char -> bool, env: Env, rs: Rounds, history: seq<Message>, sp: Speaker, from: nat,
                      r: Response, names: seq<string>, prior: string, k: Talk, n: nat, frozen: bool)
    requires GuardKeeps(wide, env) && from <= |history| && sp.Valid()
    requires Hearing(wide, sp.sink, prior, k, n, frozen) && Carries(r, k)
    requires prior <= Said(history, from) && (!frozen ==> prior == Said(history, from))
    ensures var (rs1, history1, outcome) := RoundFinished(env, rs, history, r);
            var end := AfterFinish(env, BeforeFinish(env, sp, r, names, rs.rounds), r, names, rs.rounds, outcome);
            && from <= |history1| && end.sink.held.Some?
            && var said := Said(history1, from);
            match outcome
            case Continue => Going(end, rs1.rounds, said)
            case TurnOver(result) =>
              && DeltaText(end.sink.out) <= said
              && (!result.wasTruncated && !end.sink.held.value.overflowed ==> DeltaText(end.sink.out) == said)
  {
    hide Hearing, RoundFinished, Said, TextOf, FirstText, GuardKeeps, DeltaText, SafeTo, Flushed;
    var said := Said(history, from);
    var (kept, truncated) := env.guard(r.content);
    RoundShape(env, rs, history, from, r);
    var (rs1, history1, outcome) := RoundFinished(env, rs, history, r);
    HearingHolds(wide, sp.sink, prior, k, n, frozen);
    PartHeard(wide, env, sp.sink, said, prior, k, n, frozen, r.content);
    if truncated {
      CutHears(wide, sp.sink, prior, k, n, frozen, TextOf(kept));
      if frozen { FrozenIsOverflowed(wide, sp.sink, prior, k, n); }
    } else {
      WholeIsKept(wide, env, r.content);
      WholeRoundHears(wide, env, sp, prior, k, n, frozen, r, names, rs.rounds, outcome);
      if frozen {
        FrozenIsOverflowed(wide, sp.sink, prior, k, n);
        assert prior + k.text[..0] == prior;
      }
    }
  }

  lemma WholeIsKept(wide: char -> bool, env: Env, blocks: seq<Block>)
    requires GuardKeeps(wide, env) && !env.guard(blocks).1
    ensures env.guard(blocks).0 == blocks
  {
    hide SafeTo, FirstText, TextOf;
  }

  lemma FrozenIsOverflowed(wide: char -> bool, s: Sink, prior: string, k: Talk, n: nat)
    requires Hearing(wide, s, prior, k, n, true)
    ensures s.held.Some? && s.held.value.overflowed && n == 0
  {
  }

  /** The sink at the end of the turn, and what it has delivered. */
  lemma {:induction false} TurnHears(wide: char -> bool, env: Env, rs: Rounds, history: seq<Message>, sp: Speaker,
      from: nat, calls: nat)
    requires GuardKeeps(wide, env) && StreamsMatch(env) && from <= |history| && rs.rounds <= env.maxRounds
    requires Going(sp, rs.rounds, Said(history, from))
    ensures var (turn, end) := StreamLoop(env, rs, history, sp, calls);
            && from <= |turn.history| && end.sink.held.Some?
            && var said := Said(turn.history, from);
            match turn.result
            case Ok(result) =>
              && DeltaText(end.sink.out) <= said
              && (!result.wasTruncated && !end.sink.held.value.overflowed ==> DeltaText(end.sink.out) == said)
            case Err(_) => HeardSafely(env, DeltaText(end.sink.out), said, TalkOf(env.stream(turn.history)).first)
    decreases env.maxRounds - rs.rounds
  {
    hide Going, StreamRound, Said, DeltaText, HeardSafely, TalkOf, GuardKeeps, StreamsMatch;
    GoingIsValid(sp, rs.rounds, Said(history, from));
    RoundHears(wide, env, rs, history, sp, from);
    StreamContinueCounts(env, rs, history, sp);
    ErrKeepsHistory(env, rs, history, sp);
    var s := StreamRound(env, rs, history, sp);
    if s.outcome == Ok(Continue) {
      TurnHears(wide, env, s.rs, s.history, s.sp, from, calls + 1);
    }
  }

  /** A later round begins with nothing held, so that nothing of the earlier
      rounds can be said again. */
  lemma NothingIsHeldBetweenRounds(env: Env, rs: Rounds, history: seq<Message>, sp: Speaker)
    requires sp.Valid() && StreamRound(env, rs, history, sp).outcome == Ok(Continue)
    ensures var held := StreamRound(env, rs, history, sp).sp.sink.held;
            held.Some? ==> held.value.deltas == [] && held.value.segments == []
  {
    hide Drive, RoundOpened, Pieces, SkipBytes, Nudged, Execute, SpeechGates.Finished;
  }

  lemma GoingIsValid(sp: Speaker, rounds: nat, said: string)
    requires Going(sp, rounds, said)
    ensures sp.Valid()
  {
  }

  lemma ErrKeepsHistory(env: Env, rs: Rounds, history: seq<Message>, sp: Speaker)
    requires sp.Valid()
    ensures StreamRound(env, rs, history, sp).outcome.Err? ==> StreamRound(env, rs, history, sp).history == history
  {
    hide RoundFinished, BeforeFinish, AfterFinish, Drive, RoundOpened;
  }

  /** A whole voice turn on a fresh holding sink, for every provider, every way
      its streams are cut up and timed, every number of tool rounds, and
      whatever the channel accepts. When the turn succeeds, the text handed to
      `deliver` is a beginning of the replies as the guard kept them; it is all
      of them unless the last was cut or the hold overflowed. When it fails, it
      is a beginning of the replies kept so far and then of whatever the guard
      would keep of the reply that broke off, however that reply had gone on
      after what was streamed of its first text block. */
  lemma VoiceNeverHearsACut(wide: char -> bool, env: Env, history: seq<Message>, cap: nat,
      takes: seq<TurnEvent> -> bool)
    requires GuardKeeps(wide, env) && StreamsMatch(env)
    ensures var (turn, end) := StreamLoop(env, NO_ROUNDS, history, Speaker(Holding(cap, takes), 0, false), 0);
            && |history| <= |turn.history| && end.sink.held.Some?
            && var said := Said(turn.history, |history|);
            match turn.result
            case Ok(result) =>
              && DeltaText(end.sink.out) <= said
              && (!result.wasTruncated && !end.sink.held.value.overflowed ==> DeltaText(end.sink.out) == said)
            case Err(_) => HeardSafely(env, DeltaText(end.sink.out), said, TalkOf(env.stream(turn.history)).first)
  {
    hide StreamLoop, HeardSafely, TalkOf, GuardKeeps, StreamsMatch;
    TurnHears(wide, env, NO_ROUNDS, history, Speaker(Holding(cap, takes), 0, false), |history|, 0);
  }
}
