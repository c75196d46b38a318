/** The gate that decides how much of an unfinished reply may be spoken
    (`src/speech_gate.rs`).

    `Gate` is the value of a `SpeechGate`; the functions on it specify the
    class's methods, and the theorems are about runs of them. */
module SpeechGates {
  import opened Text
  import opened Markers

  /** Nanoseconds. */
  const FIRST_RELEASE_HOLD := 250_000_000
  const MIN_RELEASE_BYTES := 20
  const NO_CLAUSE_RELEASE_BYTES := 160

  // ---- The reply guard ----

  /** The least index at or after `from` where a marker starts, or the length. */
  ghost function FirstMarker(wide: char -> bool, text: string, from: nat): (m: nat)
    requires from <= |text|
    ensures from <= m <= |text|
    ensures m < |text| ==> MarkerAt(wide, text, m)
    decreases |text| - from
  {
    if from == |text| || MarkerAt(wide, text, from) then from else FirstMarker(wide, text, from + 1)
  }

  /** What the guard keeps of a whole reply. */
  ghost function Kept(wide: char -> bool, text: string): (kept: string)
    ensures kept <= text
  {
    var m := FirstMarker(wide, text, 0);
    if m == |text| then text
    else
      var before := TrimEnd(text[..m]);
      if Utf8Len(before) < MIN_RELEASE_BYTES then "" else before
  }

  // ---- Where a release may end ----

  predicate IsClausePunct(c: char) { c in ".!?;:," }

  predicate ClauseEnd(buf: string, e: nat) {
    0 < e < |buf| && IsClausePunct(buf[e - 1]) && IsWhitespace(buf[e])
  }

  function LastClauseEnd(buf: string, low: nat, high: nat): (r: Option<nat>)
    requires low <= high <= |buf|
    ensures r.Some? ==> low < r.value <= high && ClauseEnd(buf, r.value)
    ensures forall e :: low < e <= high && ClauseEnd(buf, e) ==> r.Some? && e <= r.value
  {
    if high == low then None
    else if ClauseEnd(buf, high) then Some(high)
    else LastClauseEnd(buf, low, high - 1)
  }

  method LastClauseBoundary(buf: string, released: nat, safe: nat) returns (last: Option<nat>)
    requires released <= safe <= |buf|
    ensures last == LastClauseEnd(buf, released, safe)
  {
    last := None;
    for at := released to safe
      invariant last == LastClauseEnd(buf, released, at)
    {
      if IsClausePunct(buf[at]) && at + 1 < |buf| && IsWhitespace(buf[at + 1]) {
        last := Some(at + 1);
      }
    }
  }

  /** The last space in `buf[low..high]`. */
  function LastSpace(buf: string, low: nat, high: nat): (r: Option<nat>)
    requires low <= high <= |buf|
    ensures r.Some? ==> low <= r.value < high && buf[r.value] == ' '
    ensures forall k :: low <= k < high && buf[k] == ' ' ==> r.Some? && k <= r.value
  {
    if high == low then None
    else if buf[high - 1] == ' ' then Some(high - 1)
    else LastSpace(buf, low, high - 1)
  }

  /** The end of the last word that is followed by a space and more text. */
  function LastWordEnd(buf: string, low: nat, high: nat): (r: Option<nat>)
    requires low <= high <= |buf|
    ensures r.Some? ==> low < r.value < high && !IsWhitespace(buf[r.value - 1])
  {
    var space := LastSpace(buf, low, StripBack(buf, low, high));
    if space.None? then None
    else
      var e := StripBack(buf, low, space.value);
      if e > low then Some(e) else None
  }

  /** The backward walk over whitespace. */
  method SkipWhitespaceBack(buf: string, low: nat, end: nat) returns (at: nat)
    requires low <= end <= |buf|
    ensures at == StripBack(buf, low, end)
  {
    at := end;
    while at > low && IsWhitespace(buf[at - 1])
      invariant low <= at <= end
      invariant StripBack(buf, low, end) == StripBack(buf, low, at)
    {
      at := at - 1;
    }
  }

  /** `rfind(' ')` in `buf[low..high]`. */
  method RfindSpace(buf: string, low: nat, high: nat) returns (r: Option<nat>)
    requires low <= high <= |buf|
    ensures r == LastSpace(buf, low, high)
  {
    var at := high;
    while at > low && buf[at - 1] != ' '
      invariant low <= at <= high
      invariant LastSpace(buf, low, high) == LastSpace(buf, low, at)
    {
      at := at - 1;
    }
    return if at == low then None else Some(at - 1);
  }

  method LastSpaceBoundary(buf: string, released: nat, safe: nat) returns (r: Option<nat>)
    requires released <= safe <= |buf|
    ensures r == LastWordEnd(buf, released, safe)
  {
    var end := SkipWhitespaceBack(buf, released, safe);
    var space := RfindSpace(buf, released, end);
    if space.None? {
      return None;
    }
    var candidate := SkipWhitespaceBack(buf, released, space.value);
    return if candidate > released then Some(candidate) else None;
  }

  // ---- The gate ----

  /** `released` counts characters of `buf`. */
  datatype Gate = Gate(buf: string, released: nat, sealed: bool, firstDeltaAt: Option<nat>, closed: bool) {
    predicate Valid() { released <= |buf| }
  }

  const NEW_GATE := Gate("", 0, false, None, false)

  predicate HoldOpen(g: Gate, now: nat) {
    g.released == 0 && (g.firstDeltaAt.None? || now < g.firstDeltaAt.value + FIRST_RELEASE_HOLD)
  }

  function ReleaseCandidate(buf: string, from: nat, safe: nat): (r: Option<nat>)
    requires from <= safe <= |buf|
    ensures r.Some? ==> from < r.value <= safe && !IsWhitespace(buf[r.value - 1])
  {
    var clause := LastClauseEnd(buf, from, safe);
    if clause.Some? then clause
    else if Utf8Len(buf[from..safe]) >= NO_CLAUSE_RELEASE_BYTES then LastWordEnd(buf, from, safe)
    else None
  }

  /** The index the gate may release up to now, if any. */
  function ReleaseTo(g: Gate, now: nat): (r: Option<nat>)
    requires g.Valid()
    ensures r.Some? ==> g.released < r.value <= |g.buf|
  {
    if g.sealed || HoldOpen(g, now) then None
    else
      var candidate := ReleaseCandidate(g.buf, g.released, EarliestViableFrom(g.buf, g.released));
      if candidate.Some? && Utf8Len(TrimEnd(g.buf[..candidate.value])) < MIN_RELEASE_BYTES then None
      else candidate
  }

  /** `take_release`. */
  function Released(g: Gate, now: nat): (r: (Gate, Option<string>))
    requires g.Valid()
    ensures r.0.Valid()
  {
    var to := ReleaseTo(g, now);
    if to.None? then (g, None) else (g.(released := to.value), Some(g.buf[g.released..to.value]))
  }

  function Appended(g: Gate, text: string, now: nat): Gate {
    g.(buf := g.buf + text,
       firstDeltaAt := if g.firstDeltaAt.None? && text != [] then Some(now) else g.firstDeltaAt)
  }

  /** `push`. */
  function Pushed(g: Gate, text: string, now: nat): (r: (Gate, Option<string>))
    requires g.Valid()
    ensures r.0.Valid()
  {
    if g.closed then (g, None) else Released(Appended(g, text, now), now)
  }

  datatype Finish = Rest(text: Option<string>) | PrefixViolation

  function Finished(g: Gate, kept: string): (r: (Gate, Finish))
    requires g.Valid()
    ensures r.0.Valid()
  {
    var h := g.(closed := true);
    if !(g.buf[..g.released] <= kept) then (h, PrefixViolation)
    else
      var rest := kept[g.released..];
      var released := if kept <= g.buf then |kept| else g.released;
      (h.(released := released), Rest(if rest == [] then None else Some(rest)))
  }

  /** The source moves the cursor in a second case too, when the rest of the
      buffer starts with the remainder. The first case always covers it. */
  lemma SecondCursorCaseIsCovered(buf: string, released: nat, kept: string)
    requires released <= |buf| && buf[..released] <= kept
    requires kept[released..] <= buf[released..]
    ensures kept <= buf
  {
    assert kept == buf[..released] + kept[released..];
    assert buf == buf[..released] + buf[released..];
  }

  class SpeechGate {
    var buf: string
    var released: nat
    var sealed: bool
    var firstDeltaAt: Option<nat>
    var closed: bool

    function State(): Gate
      reads this
    {
      Gate(buf, released, sealed, firstDeltaAt, closed)
    }

    constructor ()
      ensures State() == NEW_GATE
    {
      buf, released, sealed, firstDeltaAt, closed := "", 0, false, None, false;
    }

    method Push(text: string, now: nat) returns (piece: Option<string>)
      requires State().Valid()
      modifies this
      ensures (State(), piece) == Pushed(old(State()), text, now)
    {
      if closed {
        return None;
      }
      if firstDeltaAt.None? && text != [] {
        firstDeltaAt := Some(now);
      }
      buf := buf + text;
      piece := TakeRelease(now);
    }

    method TakeRelease(now: nat) returns (piece: Option<string>)
      requires State().Valid()
      modifies `released
      ensures (State(), piece) == Released(old(State()), now)
    {
      if sealed || HoldOpen(State(), now) {
        return None;
      }
      var from := released;
      var safe := EarliestViable(buf, from);
      var candidate := FindCandidate(from, safe);
      if candidate.None? {
        return None;
      }
      if Utf8Len(TrimEnd(buf[..candidate.value])) < MIN_RELEASE_BYTES {
        return None;
      }
      released := candidate.value;
      return Some(buf[from..candidate.value]);
    }

    method FindCandidate(from: nat, safe: nat) returns (candidate: Option<nat>)
      requires from <= safe <= |buf|
      ensures candidate == ReleaseCandidate(buf, from, safe)
    {
      if safe <= from {
        return None;
      }
      candidate := LastClauseBoundary(buf, from, safe);
      if candidate.Some? {
        return;
      }
      if Utf8Len(buf[from..safe]) >= NO_CLAUSE_RELEASE_BYTES {
        candidate := LastSpaceBoundary(buf, from, safe);
      }
    }

    method Finish(kept: string) returns (r: Finish)
      requires State().Valid()
      modifies this
      ensures (State(), r) == Finished(old(State()), kept)
    {
      closed := true;
      var already := buf[..released];
      if !(already <= kept) {
        return PrefixViolation;
      }
      var rest := kept[released..];
      if kept <= buf {
        released := |kept|;
      }
      return Rest(if rest == [] then None else Some(rest));
    }

    method NoteRawFlush()
      modifies `released
      ensures State() == old(State()).(released := |buf|)
    {
      released := |buf|;
    }

    method BeginBlock()
      modifies `sealed
      ensures State() == old(State()).(sealed := true)
    {
      sealed := true;
    }

    method RestartRound()
      modifies this
      ensures State() == Gate("", 0, true, old(firstDeltaAt), false)
    {
      buf := "";
      released := 0;
      closed := false;
      sealed := true;
    }
  }

  // ---- Safety ----

  /** No reply that starts with `buf` has a marker below `n`. */
  ghost predicate ClearBelow(wide: char -> bool, buf: string, n: nat)
    requires n <= |buf|
  {
    forall text, i: nat :: buf <= text && i < n ==> !MarkerAt(wide, text, i)
  }

  /** The guard can no longer cut the first `n` characters of `buf`, whatever follows. */
  ghost predicate SafeTo(wide: char -> bool, buf: string, n: nat) {
    && n <= |buf|
    && (n > 0 ==> !IsWhitespace(buf[n - 1]) && Utf8Len(buf[..n]) >= MIN_RELEASE_BYTES)
    && ClearBelow(wide, buf, n)
  }

  /** What has been released is safe. */
  ghost predicate Safe(wide: char -> bool, g: Gate) { SafeTo(wide, g.buf, g.released) }

  lemma SafeStays(wide: char -> bool, buf: string, more: string, n: nat)
    requires SafeTo(wide, buf, n)
    ensures SafeTo(wide, buf + more, n)
  {
    hide Utf8Len;
    assert (buf + more)[..n] == buf[..n];
    forall text, i: nat | buf + more <= text && i < n
      ensures !MarkerAt(wide, text, i)
    {
      assert buf <= text;
    }
  }

  lemma ClearUpToViable(wide: char -> bool, buf: string, more: string, released: nat)
    requires released <= |buf| && ClearBelow(wide, buf, released)
    ensures ClearBelow(wide, buf + more, released)
    ensures ClearBelow(wide, buf + more, EarliestViableFrom(buf + more, released))
  {
    forall text, i: nat | buf + more <= text && i < EarliestViableFrom(buf + more, released)
      ensures !MarkerAt(wide, text, i)
    {
      if i < released {
        assert buf <= text;
      } else {
        NoMarkerBeforeViable(wide, buf + more, released, text, i);
      }
    }
  }

  lemma ReleaseStops(g: Gate, now: nat)
    requires g.Valid() && ReleaseTo(g, now).Some?
    ensures var to := ReleaseTo(g, now).value;
            && to <= EarliestViableFrom(g.buf, g.released)
            && !IsWhitespace(g.buf[to - 1]) && Utf8Len(g.buf[..to]) >= MIN_RELEASE_BYTES
  {
    var to := ReleaseTo(g, now).value;
    TrimEndKeeps(g.buf[..to], to);
    assert TrimEnd(g.buf[..to]) == g.buf[..to];
  }

  lemma ReleaseKeepsSafe(wide: char -> bool, g: Gate, now: nat)
    requires Safe(wide, g) && ClearBelow(wide, g.buf, EarliestViableFrom(g.buf, g.released))
    ensures Safe(wide, Released(g, now).0)
  {
    if ReleaseTo(g, now).Some? {
      ReleaseStops(g, now);
    }
  }

  lemma PushKeepsSafe(wide: char -> bool, g: Gate, text: string, now: nat)
    requires Safe(wide, g)
    ensures Safe(wide, Pushed(g, text, now).0)
  {
    if !g.closed {
      var h := Appended(g, text, now);
      ClearUpToViable(wide, g.buf, text, g.released);
      assert h.buf[..g.released] == g.buf[..g.released];
      ReleaseKeepsSafe(wide, h, now);
    }
  }

  lemma TrimKeepsPrefix(text: string, n: nat, m: nat)
    requires 0 < n <= m <= |text| && !IsWhitespace(text[n - 1])
    ensures text[..n] <= TrimEnd(text[..m])
    ensures Utf8Len(text[..n]) <= Utf8Len(TrimEnd(text[..m]))
  {
    TrimEndKeeps(text[..m], n);
    var before := TrimEnd(text[..m]);
    assert before[..n] == text[..n] && before[..|before|] == before;
    Utf8LenPrefix(before, n, |before|);
  }

  /** Safe text is a prefix of what the guard keeps of every reply that starts
      with the buffer. */
  lemma SafeIsKept(wide: char -> bool, buf: string, n: nat, text: string)
    requires SafeTo(wide, buf, n) && buf <= text
    ensures buf[..n] <= Kept(wide, text)
  {
    var m := FirstMarker(wide, text, 0);
    assert buf[..n] == text[..n];
    if n > 0 && m < |text| {
      assert MarkerAt(wide, text, m);
      TrimKeepsPrefix(text, n, m);
    }
  }

  lemma ReleaseHandsOut(g: Gate, now: nat)
    requires g.Valid()
    ensures var (h, piece) := Released(g, now);
            h.buf[..h.released] == g.buf[..g.released] + if piece.Some? then piece.value else ""
  {
    var to := Released(g, now).0.released;
    assert g.buf[..to] == g.buf[..g.released] + g.buf[g.released..to];
  }

  /** A push hands out exactly the characters the cursor passed. */
  lemma PushHandsOut(g: Gate, text: string, now: nat)
    requires g.Valid()
    ensures var (h, piece) := Pushed(g, text, now);
            && g.released <= h.released && h.closed == g.closed && h.sealed == g.sealed
            && (!g.closed ==> h.buf == g.buf + text)
            && h.buf[..h.released] == g.buf[..g.released] + if piece.Some? then piece.value else ""
  {
    if !g.closed {
      var h := Appended(g, text, now);
      assert h.buf[..g.released] == g.buf[..g.released];
      ReleaseHandsOut(h, now);
    }
  }

  /** What a caller does while a reply streams in. */
  datatype Call = Push(text: string, now: nat) | BeginBlock

  /** The gate after `calls`, and everything it handed out. */
  function Run(g: Gate, calls: seq<Call>): (r: (Gate, string))
    requires g.Valid()
    ensures r.0.Valid()
    decreases |calls|
  {
    if calls == [] then (g, "")
    else
      var (before, spoken) := Run(g, calls[..|calls| - 1]);
      match calls[|calls| - 1]
      case Push(text, now) =>
        var (after, piece) := Pushed(before, text, now);
        (after, if piece.Some? then spoken + piece.value else spoken)
      case BeginBlock => (before.(sealed := true), spoken)
  }

  /** The text pushed by `calls`. */
  function PushedText(calls: seq<Call>): string {
    if calls == [] then ""
    else PushedText(calls[..|calls| - 1]) + match calls[|calls| - 1] case Push(text, _) => text case BeginBlock => ""
  }

  lemma {:induction false} RunInvariant(wide: char -> bool, calls: seq<Call>)
    ensures var (g, spoken) := Run(NEW_GATE, calls);
            && Safe(wide, g) && !g.closed
            && g.buf == PushedText(calls) && spoken == g.buf[..g.released]
    decreases |calls|
  {
    if calls != [] {
      var prefix := calls[..|calls| - 1];
      RunInvariant(wide, prefix);
      var (before, spoken) := Run(NEW_GATE, prefix);
      match calls[|calls| - 1] {
        case Push(text, now) =>
          PushKeepsSafe(wide, before, text, now);
          PushHandsOut(before, text, now);
        case BeginBlock =>
      }
    }
  }

  /** For every reply, every way of splitting it and every clock: what has been
      spoken is a prefix of what the guard keeps of the whole reply, however
      the reply continues. */
  lemma EarlySpeechIsNeverCut(wide: char -> bool, calls: seq<Call>, rest: string)
    ensures Run(NEW_GATE, calls).1 <= Kept(wide, PushedText(calls) + rest)
  {
    RunInvariant(wide, calls);
    var g := Run(NEW_GATE, calls).0;
    SafeIsKept(wide, g.buf, g.released, PushedText(calls) + rest);
  }

  lemma FinishHandsOutTheRest(g: Gate, kept: string)
    requires g.Valid() && g.buf[..g.released] <= kept
    ensures var r := Finished(g, kept).1;
            r.Rest? && kept == g.buf[..g.released] + if r.text.Some? then r.text.value else ""
  {
    assert kept == g.buf[..g.released] + kept[g.released..];
  }

  /** At the end of the round `finish` never reports a violation, and early
      speech plus the remainder is exactly the kept text. */
  lemma FinishCompletesKept(wide: char -> bool, calls: seq<Call>)
    ensures var (g, spoken) := Run(NEW_GATE, calls);
            var kept := Kept(wide, PushedText(calls));
            var r := Finished(g, kept).1;
            r.Rest? && kept == spoken + if r.text.Some? then r.text.value else ""
  {
    RunInvariant(wide, calls);
    var g := Run(NEW_GATE, calls).0;
    SafeIsKept(wide, g.buf, g.released, g.buf);
    FinishHandsOutTheRest(g, Kept(wide, g.buf));
  }

  /** After `finish` the cursor is at the end of the kept text, wherever that is
      a beginning of what was pushed, and nothing more is ever handed out. */
  lemma {:induction false} FinishedGateIsSilent(g: Gate, kept: string, calls: seq<Call>)
    requires g.Valid() && g.buf[..g.released] <= kept
    ensures var h := Run(Finished(g, kept).0, calls);
            && h.1 == "" && h.0.closed && h.0.buf == g.buf
            && (kept <= g.buf ==> h.0.buf[..h.0.released] == kept)
    decreases |calls|
  {
    if calls != [] { FinishedGateIsSilent(g, kept, calls[..|calls| - 1]); }
  }

  /** Chunking and timing do not change what is spoken in the end. */
  lemma ChunkingDoesNotMatter(wide: char -> bool, one: seq<Call>, two: seq<Call>)
    requires PushedText(one) == PushedText(two)
    ensures var kept := Kept(wide, PushedText(one));
            var a, b := Run(NEW_GATE, one), Run(NEW_GATE, two);
            var r, s := Finished(a.0, kept).1, Finished(b.0, kept).1;
            r.Rest? && s.Rest? && a.1 + (if r.text.Some? then r.text.value else "")
                               == b.1 + (if s.text.Some? then s.text.value else "")
  {
    FinishCompletesKept(wide, one);
    FinishCompletesKept(wide, two);
  }

  /** Release is prompt: once the hold is over, a push releases at least up to
      every clause end that is long enough and before any viable marker. */
  lemma ClausesAreReleased(g: Gate, text: string, now: nat, e: nat)
    requires g.Valid() && !g.sealed && !g.closed
    requires g.released > 0 || (g.firstDeltaAt.Some? && g.firstDeltaAt.value + 250_000_000 <= now)
    requires g.released < e <= EarliestViableFrom(g.buf + text, g.released)
    requires var buf := g.buf + text;
             e < |buf| && buf[e - 1] in {'.', '!', '?', ';', ':', ','} && IsWhitespace(buf[e])
             && Utf8Len(buf[..e]) >= 20
    ensures Pushed(g, text, now).0.released >= e
  {
    var buf := g.buf + text;
    assert ClauseEnd(buf, e);
    var clause := LastClauseEnd(buf, g.released, EarliestViableFrom(buf, g.released)).value;
    TrimKeepsPrefix(buf, clause, clause);
    Utf8LenPrefix(buf, e, clause);
  }

  /** A word ends at `e`: after it comes white space that reaches a space at `k`,
      and more text before `high`. */
  predicate WordEnd(buf: string, e: nat, k: nat, high: nat) {
    && 0 < e <= k < high <= |buf| && !IsWhitespace(buf[e - 1]) && buf[k] == ' '
    && (forall i :: e <= i < k ==> IsWhitespace(buf[i]))
    && (exists i :: k < i < high && !IsWhitespace(buf[i]))
  }

  /** The backward walks end at the last word end. */
  lemma LastWordEndIsLast(buf: string, low: nat, high: nat, e: nat, k: nat)
    requires low < e && high <= |buf| && WordEnd(buf, e, k, high)
    ensures var last := LastWordEnd(buf, low, high);
            last.Some? && e <= last.value && exists j :: k <= j && WordEnd(buf, last.value, j, high)
  {
    var end := StripBack(buf, low, high);
    var i :| k < i < high && !IsWhitespace(buf[i]);
    assert i < end;
    var space := LastSpace(buf, low, end).value;
    assert k <= space;
    var last := StripBack(buf, low, space);
    assert e <= last;
    assert !IsWhitespace(buf[end - 1]) && space < end - 1;
    assert WordEnd(buf, last, space, high);
  }

  lemma LastWordEndIsOne(buf: string, low: nat, high: nat)
    requires low <= high <= |buf| && LastWordEnd(buf, low, high).Some?
    ensures exists k :: WordEnd(buf, LastWordEnd(buf, low, high).value, k, high)
  {
    var end := StripBack(buf, low, high);
    var space := LastSpace(buf, low, end).value;
    assert !IsWhitespace(buf[end - 1]) && space < end - 1;
    assert WordEnd(buf, StripBack(buf, low, space), space, high);
  }

  predicate NoClauseEnd(buf: string, low: nat, high: nat) {
    forall e :: low < e <= high && high <= |buf| ==> !ClauseEnd(buf, e)
  }

  lemma NoClauseIsNone(buf: string, low: nat, high: nat)
    requires low <= high <= |buf|
    ensures NoClauseEnd(buf, low, high) <==> LastClauseEnd(buf, low, high).None?
  {
  }

  lemma LastClauseIsLast(buf: string, low: nat, high: nat)
    requires low <= high <= |buf| && LastClauseEnd(buf, low, high).Some?
    ensures var last := LastClauseEnd(buf, low, high).value; ClauseEnd(buf, last) && NoClauseEnd(buf, last, high)
  {
  }

  /** Without a clause end, 160 bytes before any viable marker are enough: a push
      then releases at least up to every word end among them. */
  lemma WordsAreReleased(g: Gate, text: string, now: nat, e: nat, k: nat)
    requires g.Valid() && !g.sealed && !g.closed
    requires g.released > 0 || (g.firstDeltaAt.Some? && g.firstDeltaAt.value + 250_000_000 <= now)
    requires var buf := g.buf + text; var safe := EarliestViableFrom(buf, g.released);
             && NoClauseEnd(buf, g.released, safe) && Utf8Len(buf[g.released..safe]) >= 160
             && g.released < e && WordEnd(buf, e, k, safe) && Utf8Len(buf[..e]) >= 20
    ensures Pushed(g, text, now).0.released >= e
  {
    hide EarliestViableFrom, Utf8Len, LastWordEnd, WordEnd, NoClauseEnd;
    var buf := g.buf + text;
    var safe := EarliestViableFrom(buf, g.released);
    NoClauseIsNone(buf, g.released, safe);
    LastWordEndIsLast(buf, g.released, safe, e, k);
    var last := LastWordEnd(buf, g.released, safe).value;
    TrimKeepsPrefix(buf, last, last);
    Utf8LenPrefix(buf, e, last);
  }

  /** Nothing is released anywhere else: a push that moves the cursor does so
      once the hold is over, with 20 bytes or more, before any viable marker, and
      to the last clause end there, or, where there is none in 160 bytes or
      more, to a word end that no other follows. */
  lemma ReleasesEndAtBoundaries(g: Gate, text: string, now: nat)
    requires g.Valid() && Pushed(g, text, now).0.released != g.released
    ensures var buf := g.buf + text; var safe := EarliestViableFrom(buf, g.released);
            var to := Pushed(g, text, now).0.released;
            && !g.sealed && !g.closed && g.released < to <= safe && Utf8Len(TrimEnd(buf[..to])) >= 20
            && (g.released > 0 || (g.firstDeltaAt.Some? && g.firstDeltaAt.value + 250_000_000 <= now))
            && if NoClauseEnd(buf, g.released, safe)
               then
                 && Utf8Len(buf[g.released..safe]) >= 160 && (exists k :: WordEnd(buf, to, k, safe))
                 && forall e, k :: to < e && WordEnd(buf, e, k, safe) ==> false
               else ClauseEnd(buf, to) && NoClauseEnd(buf, to, safe)
  {
    var buf := g.buf + text;
    var safe := EarliestViableFrom(buf, g.released);
    var to := Pushed(g, text, now).0.released;
    hide EarliestViableFrom, Utf8Len, LastWordEnd, LastClauseEnd, WordEnd, NoClauseEnd, ClauseEnd, TrimEnd;
    NoClauseIsNone(buf, g.released, safe);
    if !NoClauseEnd(buf, g.released, safe) { LastClauseIsLast(buf, g.released, safe); }
    if NoClauseEnd(buf, g.released, safe) {
      LastWordEndIsOne(buf, g.released, safe);
      forall e, k | to < e && WordEnd(buf, e, k, safe) ensures false {
        LastWordEndIsLast(buf, g.released, safe, e, k);
      }
    }
  }

  /** When the first text arrives. */
  function StartOf(calls: seq<Call>): Option<nat> {
    if calls == [] then None
    else if calls[0].Push? && calls[0].text != "" then Some(calls[0].now)
    else StartOf(calls[1..])
  }

  lemma {:induction false} StartPush(calls: seq<Call>, call: Call)
    ensures StartOf(calls + [call]) ==
            if StartOf(calls).Some? then StartOf(calls)
            else if call.Push? && call.text != "" then Some(call.now) else None
  {
    if calls == [] {
      assert [call][1..] == [];
    } else {
      assert (calls + [call])[1..] == calls[1..] + [call];
      StartPush(calls[1..], call);
    }
  }

  /** Nothing is spoken in the first 250 ms of text. */
  lemma {:induction false} HoldComesFirst(calls: seq<Call>)
    requires forall i :: 0 <= i < |calls| && calls[i].Push? && StartOf(calls).Some? ==>
               calls[i].now < StartOf(calls).value + 250_000_000
    ensures var (g, spoken) := Run(NEW_GATE, calls);
            spoken == "" && g.released == 0 && !g.closed && g.firstDeltaAt == StartOf(calls)
    decreases |calls|
  {
    if calls != [] {
      var before := calls[..|calls| - 1];
      StartPush(before, calls[|calls| - 1]);
      assert before + [calls[|calls| - 1]] == calls;
      HoldComesFirst(before);
    }
  }
}
