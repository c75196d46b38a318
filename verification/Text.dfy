/** Rust strings, as far as the modelled code looks into them.

    A Rust `String` is a sequence of Unicode scalar values, which is what a
    Dafny `string` is. A byte offset on a character boundary is written as the
    number of characters before it; where the source compares byte counts,
    `Utf8Len` gives them. */
module Text {

  datatype Option<+T> = None | Some(value: T)

  predicate IsAscii(c: char) { c < '\U{80}' }

  /** `char::is_whitespace`, the Unicode `White_Space` property. */
  predicate IsWhitespace(c: char) {
    || '\U{9}' <= c <= '\U{D}' || c == ' ' || c == '\U{85}' || c == '\U{A0}'
    || c == '\U{1680}' || '\U{2000}' <= c <= '\U{200A}' || c == '\U{2028}' || c == '\U{2029}'
    || c == '\U{202F}' || c == '\U{205F}' || c == '\U{3000}'
  }

  /** `char::len_utf8`. */
  function Utf8Width(c: char): (n: nat)
    ensures 1 <= n <= 4
  {
    if c < '\U{80}' then 1 else if c < '\U{800}' then 2 else if c < '\U{10000}' then 3 else 4
  }

  /** `str::len`: the length in bytes. */
  function Utf8Len(s: string): (n: nat)
    ensures |s| <= n
  {
    if s == [] then 0 else Utf8Width(s[0]) + Utf8Len(s[1..])
  }

  lemma {:induction false} Utf8LenConcat(s: string, t: string)
    ensures Utf8Len(s + t) == Utf8Len(s) + Utf8Len(t)
  {
    if s == [] {
      assert s + t == t;
    } else {
      assert (s + t)[1..] == s[1..] + t;
      Utf8LenConcat(s[1..], t);
    }
  }

  lemma Utf8LenPrefix(s: string, i: nat, j: nat)
    requires i <= j <= |s|
    ensures Utf8Len(s[..j]) == Utf8Len(s[..i]) + Utf8Len(s[i..j])
    ensures Utf8Len(s[..i]) <= Utf8Len(s[..j])
    ensures i < j ==> Utf8Len(s[..i]) < Utf8Len(s[..j])
  {
    assert s[..j] == s[..i] + s[i..j];
    Utf8LenConcat(s[..i], s[i..j]);
  }

  /** The start of the run of whitespace that ends at `end`, not looking below `low`. */
  function StripBack(s: string, low: nat, end: nat): (r: nat)
    requires low <= end <= |s|
    ensures low <= r <= end
    ensures forall k :: r <= k < end ==> IsWhitespace(s[k])
    ensures r == low || !IsWhitespace(s[r - 1])
  {
    if low < end && IsWhitespace(s[end - 1]) then StripBack(s, low, end - 1) else end
  }

  /** `str::trim_end`. */
  function TrimEnd(s: string): string { s[..StripBack(s, 0, |s|)] }

  lemma TrimEndKeeps(s: string, n: nat)
    requires 0 < n <= |s| && !IsWhitespace(s[n - 1])
    ensures n <= |TrimEnd(s)| && s[..n] <= TrimEnd(s)
  {
  }

  lemma Assoc(a: string, b: string, c: string)
    ensures a + b + c == a + (b + c)
  {
  }

  function Concat(parts: seq<string>): string {
    if parts == [] then "" else parts[0] + Concat(parts[1..])
  }

  lemma {:induction false} ConcatAppend(parts: seq<string>, more: seq<string>)
    ensures Concat(parts + more) == Concat(parts) + Concat(more)
  {
    if parts == [] {
      assert parts + more == more;
    } else {
      assert (parts + more)[1..] == parts[1..] + more;
      ConcatAppend(parts[1..], more);
    }
  }

  lemma ConcatPush(parts: seq<string>, s: string)
    ensures Concat(parts + [s]) == Concat(parts) + s
  {
    ConcatAppend(parts, [s]);
    assert Concat([s]) == s;
  }

  // ---- Trimming and lines ----

  /** The end of the run of whitespace that starts at `at`. */
  function StripFront(s: string, at: nat): (r: nat)
    requires at <= |s|
    ensures at <= r <= |s|
    ensures r == |s| || !IsWhitespace(s[r])
    ensures forall k :: at <= k < r ==> IsWhitespace(s[k])
    decreases |s| - at
  {
    if at < |s| && IsWhitespace(s[at]) then StripFront(s, at + 1) else at
  }

  /** `str::trim`. */
  function Trim(s: string): string {
    var t := TrimEnd(s);
    t[StripFront(t, 0)..]
  }

  function IndexOf(s: string, c: char): (i: nat)
    ensures i <= |s|
    ensures c !in s[..i]
    ensures i < |s| ==> s[i] == c
  {
    if s == [] || s[0] == c then 0 else 1 + IndexOf(s[1..], c)
  }

  /** `str::lines`: a line ends at `\n` or `\r\n`, and a final line break
      starts no further line. */
  function Lines(s: string): seq<string> {
    if s == [] then []
    else
      var i := IndexOf(s, '\n');
      if i == |s| then [s]
      else
        var end := if i > 0 && s[i - 1] == '\r' then i - 1 else i;
        [s[..end]] + Lines(s[i + 1..])
  }
}
