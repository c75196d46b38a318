/** Splitting, joining and trimming, as far as CALIBER.md's round trip needs. */
module CaliberTexts {
  import opened Text
  import opened Decimals
  import opened Calibers

  // ---- Lines ----

  lemma SplitFirst(a: string, c: char, b: string)
    requires c !in a
    ensures SplitOn(a + [c] + b, c) == [a] + SplitOn(b, c)
  {
    var s := a + [c] + b;
    IndexOfFirst(a, c, b);
    assert s[..|a|] == a && s[|a| + 1..] == b;
  }

  lemma {:induction false} IndexIs(s: string, c: char, n: nat)
    requires n < |s| && s[n] == c && c !in s[..n]
    ensures IndexOf(s, c) == n
  {
    if n > 0 {
      assert s[0] == s[..n][0] && s[1..][..n - 1] == s[..n][1..];
      IndexIs(s[1..], c, n - 1);
    }
  }

  lemma IndexOfFirst(a: string, c: char, b: string)
    requires c !in a
    ensures IndexOf(a + [c] + b, c) == |a|
  {
    var s := a + [c] + b;
    assert s[|a|] == c && s[..|a|] == a;
    IndexIs(s, c, |a|);
  }

  lemma {:induction false} SplitNone(a: string, c: char)
    requires c !in a
    ensures SplitOn(a, c) == [a]
  {
    IndexNone(a, c);
  }

  lemma {:induction false} IndexNone(a: string, c: char)
    requires c !in a
    ensures IndexOf(a, c) == |a|
  {
    if a != "" { IndexNone(a[1..], c); }
  }

  lemma {:induction false} SplitPieces(s: string, c: char)
    ensures forall k :: 0 <= k < |SplitOn(s, c)| ==> c !in SplitOn(s, c)[k]
    decreases |s|
  {
    var i := IndexOf(s, c);
    if i < |s| { SplitPieces(s[i + 1..], c); }
  }

  lemma JoinFirst(first: string, rest: seq<string>)
    requires rest != []
    ensures Join([first] + rest) == first + "\n" + Join(rest)
  {
    assert ([first] + rest)[1..] == rest;
  }

  lemma {:induction false} JoinSplit(s: string)
    ensures Join(SplitOn(s, '\n')) == s
    decreases |s|
  {
    hide Join;
    var i := IndexOf(s, '\n');
    if i < |s| {
      JoinSplit(s[i + 1..]);
      JoinFirst(s[..i], SplitOn(s[i + 1..], '\n'));
      assert s == s[..i] + "\n" + s[i + 1..];
    } else {
      JoinOne(s);
    }
  }

  lemma JoinOne(s: string)
    ensures Join([s]) == s
  {
  }

  lemma {:induction false} JoinConcat(a: seq<string>, b: seq<string>)
    requires a != [] && b != []
    ensures Join(a + b) == Join(a) + "\n" + Join(b)
    decreases |a|
  {
    if |a| == 1 {
      assert (a + b)[1..] == b;
    } else {
      assert (a + b)[1..] == a[1..] + b;
      JoinConcat(a[1..], b);
      JoinFour(a[0], Join(a[1..]), Join(b));
    }
  }

  lemma JoinFour(a: string, b: string, c: string)
    ensures a + "\n" + (b + "\n" + c) == a + "\n" + b + "\n" + c
  {
  }

  /** Each piece split into its lines. */
  function Flat(pieces: seq<string>): seq<string> {
    if pieces == [] then [] else SplitOn(pieces[0], '\n') + Flat(pieces[1..])
  }

  lemma {:induction false} FlatConcat(a: seq<string>, b: seq<string>)
    ensures Flat(a + b) == Flat(a) + Flat(b)
    decreases |a|
  {
    if a == [] {
      assert a + b == b;
    } else {
      assert (a + b)[1..] == a[1..] + b;
      FlatConcat(a[1..], b);
    }
  }

  lemma {:induction false} FlatOfLines(lines: seq<string>)
    requires forall k :: 0 <= k < |lines| ==> '\n' !in lines[k]
    ensures Flat(lines) == lines
    decreases |lines|
  {
    if lines != [] {
      SplitNone(lines[0], '\n');
      FlatOfLines(lines[1..]);
    }
  }

  lemma {:induction false} JoinFlat(pieces: seq<string>)
    requires pieces != []
    ensures Flat(pieces) != [] && Join(Flat(pieces)) == Join(pieces)
    decreases |pieces|
  {
    JoinSplit(pieces[0]);
    if |pieces| == 1 {
      assert Flat(pieces) == SplitOn(pieces[0], '\n');
    } else {
      JoinFlat(pieces[1..]);
      JoinConcat(SplitOn(pieces[0], '\n'), Flat(pieces[1..]));
    }
  }

  /** No line break inside, and no carriage return that `lines` would drop. */
  predicate Line(s: string) { '\n' !in s && (s == "" || s[|s| - 1] != '\r') }

  predicate AllLines(lines: seq<string>) { forall k :: 0 <= k < |lines| ==> Line(lines[k]) }

  lemma {:induction false} LinesOfJoin(lines: seq<string>)
    requires lines != [] && AllLines(lines)
    ensures Lines(Join(lines) + "\n") == lines
    decreases |lines|
  {
    var first := lines[0];
    if |lines| == 1 {
      FirstLine(first, "");
      assert first + "\n" + "" == first + "\n";
    } else {
      LinesOfJoin(lines[1..]);
      FirstLine(first, Join(lines[1..]) + "\n");
      assert Join(lines) + "\n" == first + "\n" + (Join(lines[1..]) + "\n");
    }
  }

  lemma FirstLine(first: string, rest: string)
    requires Line(first)
    ensures Lines(first + "\n" + rest) == [first] + Lines(rest)
  {
    var s := first + "\n" + rest;
    IndexOfFirst(first, '\n', rest);
    assert s[..|first|] == first && s[|first| + 1..] == rest;
    if first != "" { assert s[|first| - 1] == first[|first| - 1]; }
  }

  // ---- Trimming ----

  predicate Trimmed(s: string) { s == "" || (!IsWhitespace(s[0]) && !IsWhitespace(s[|s| - 1])) }

  lemma TrimTrimmed(s: string)
    requires Trimmed(s)
    ensures Trim(s) == s
  {
    if s != "" {
      assert StripBack(s, 0, |s|) == |s|;
      assert s[..|s|] == s;
      assert StripFront(s, 0) == 0;
    }
  }

  lemma TrimPadded(s: string)
    requires Trimmed(s)
    ensures Trim(" " + s + " ") == s
  {
    var p := " " + s + " ";
    assert p[|p| - 1] == ' ' && p[0] == ' ';
    if s == "" {
      assert StripBack(p, 0, 2) == StripBack(p, 0, 1) == 0;
    } else {
      assert p[|s|] == s[|s| - 1] && p[1] == s[0];
      assert StripBack(p, 0, |p|) == StripBack(p, 0, |p| - 1) == |p| - 1;
      var t := p[..|p| - 1];
      assert t == " " + s && t[0] == ' ' && t[1] == s[0];
      assert StripFront(t, 0) == StripFront(t, 1) == 1;
      assert t[1..] == s;
    }
  }

  // ---- Rules ----

  /** A piece that does not end in a dash keeps rules apart. */
  lemma NoRuleAcross(a: string, b: string)
    requires !Contains(a, RULE) && !Contains(b, RULE) && (a == "" || a[|a| - 1] != '-')
    ensures !Contains(a + b, RULE)
  {
    forall i | 0 <= i <= |a + b| ensures !PartAt(a + b, RULE, i) {
      if i >= |a| {
        assert !PartAt(b, RULE, i - |a|);
        if i + 3 <= |a + b| { assert (a + b)[i..i + 3] == b[i - |a|..i - |a| + 3]; }
      } else if i + 3 <= |a| {
        assert (a + b)[i..i + 3] == a[i..i + 3] && !PartAt(a, RULE, i);
      } else if i + 3 <= |a + b| {
        assert (a + b)[i..i + 3][|a| - 1 - i] == a[|a| - 1] && RULE[|a| - 1 - i] == '-';
      }
    }
  }

  /** And so does one that does not start with a dash. */
  lemma NoRuleBefore(a: string, b: string)
    requires !Contains(a, RULE) && !Contains(b, RULE) && (b == "" || b[0] != '-')
    ensures !Contains(a + b, RULE)
  {
    forall i | 0 <= i <= |a + b| ensures !PartAt(a + b, RULE, i) {
      if i >= |a| {
        assert !PartAt(b, RULE, i - |a|);
        if i + 3 <= |a + b| { assert (a + b)[i..i + 3] == b[i - |a|..i - |a| + 3]; }
      } else if i + 3 <= |a| {
        assert (a + b)[i..i + 3] == a[i..i + 3] && !PartAt(a, RULE, i);
      } else if i + 3 <= |a + b| {
        assert (a + b)[i..i + 3][|a| - i] == b[0] && RULE[|a| - i] == '-';
      }
    }
  }

  lemma NoDashNoRule(s: string)
    requires '-' !in s
    ensures !Contains(s, RULE)
  {
    forall i | 0 <= i <= |s| ensures !PartAt(s, RULE, i) {
      if i + 3 <= |s| { assert s[i..i + 3][0] == s[i] && s[i] in s; }
    }
  }

  // ---- Numbers ----

  predicate NumberChar(c: char) { IsDigit(c) || c == '.' }

  lemma FixedShape(k: nat)
    ensures var s := Fixed(k); |s| >= 4 && Trimmed(s) && IsFixed(s) && forall i :: 0 <= i < |s| ==> NumberChar(s[i])
  {
    var whole := Decimal(k / 100);
    var frac := [DigitOf(k / 10 % 10), DigitOf(k % 10)];
    var s := Fixed(k);
    assert s == whole + "." + frac;
    assert s[..|s| - 3] == whole && s[|s| - 2..] == frac && s[|s| - 3] == '.';
    assert s[0] == whole[0] && s[|s| - 1] == frac[1];
  }

  /** A score of `k` hundredths is read back as it was printed. */
  lemma FixedRoundTrip(f: Floats, k: nat)
    ensures ParseScore(f, Fixed(k)) == Some(Hundredths(k))
  {
    FixedShape(k);
    var s := Fixed(k);
    assert s == Decimal(k / 100) + "." + [DigitOf(k / 10 % 10), DigitOf(k % 10)];
    assert s[..|s| - 3] == Decimal(k / 100);
    ValueOfDecimal(k / 100);
    TwoDigits(s[|s| - 2..], k);
  }

  lemma TwoDigits(s: string, k: nat)
    requires s == [DigitOf(k / 10 % 10), DigitOf(k % 10)]
    ensures Value(s) == k % 100
  {
    assert s[..1][..0] == "";
    assert Value(s[..1]) == k / 10 % 10;
  }

  lemma {:induction false} DigitsOfDigits(s: string)
    requires forall k :: 0 <= k < |s| ==> IsDigit(s[k])
    ensures DigitsOf(s) == s
  {
    if s != "" { DigitsOfDigits(s[1..]); }
  }
}
