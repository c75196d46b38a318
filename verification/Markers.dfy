/** The reply guard's turn markers and the gate's lookahead over them
    (`src/speech_gate.rs`).

    `MarkerText` says on strings what the guard's 33 expressions match. For the
    scan they are written out as patterns, which are proved to match just that;
    the scan runs on sets of residuals, the states of the lazy DFA. */
module Markers {
  import opened Text

  datatype CharClass = Is(c: char) | Space | Word

  /** `Bound` is `\b`. */
  datatype Elem = One(k: CharClass) | Opt(k: CharClass) | Star(k: CharClass) | Bound

  type Pattern = seq<Elem>

  // ---- The markers, as text ----

  predicate AsciiWord(c: char) { 'a' <= c <= 'z' || 'A' <= c <= 'Z' || '0' <= c <= '9' || c == '_' }

  /** `wide` says which characters beyond ASCII are word characters. Every
      theorem below holds for every such table. */
  ghost predicate WordChar(wide: char -> bool, c: char) { if IsAscii(c) then AsciiWord(c) else wide(c) }

  ghost predicate AllWord(wide: char -> bool, s: string) { forall c :: c in s ==> WordChar(wide, c) }

  predicate AllSpace(s: string) { forall c :: c in s ==> IsWhitespace(c) }

  /** `s` begins with `text`, and no word character follows it. */
  ghost predicate WholeWord(wide: char -> bool, text: string, s: string) {
    text <= s && (|text| < |s| ==> !WordChar(wide, s[|text|]))
  }

  /** A heading of one to three levels. */
  ghost predicate HeadingOf(wide: char -> bool, name: string, s: string) {
    WholeWord(wide, "\n# " + name, s) || WholeWord(wide, "\n## " + name, s) || WholeWord(wide, "\n### " + name, s)
  }

  /** A line that quotes `name`, after any white space. */
  predicate QuoteOf(name: string, s: string) {
    "\n>" <= s && exists j :: 2 <= j <= |s| && AllSpace(s[2..j]) && name <= s[j..]
  }

  predicate InvokeTag(s: string) {
    "<invoke" <= s && exists j :: 7 < j <= |s| && AllSpace(s[7..j]) && "name=" <= s[j..]
  }

  ghost predicate PrefixedCalls(wide: char -> bool, s: string) {
    "<" <= s && exists j :: 1 < j <= |s| && AllWord(wide, s[1..j]) && ":function_calls>" <= s[j..]
  }

  predicate Begins(s: string, text: string) { text <= s }

  /** A line that names a speaker. */
  predicate SpeakerLine(s: string) {
    || Begins(s, "\n[User]:") || Begins(s, "\n[Assistant]:") || Begins(s, "\n[Human]:")
    || Begins(s, "\nUser:") || Begins(s, "\nHuman:") || Begins(s, "\nAssistant:")
  }

  /** A line that names one in bold, or the system. */
  predicate OtherLine(s: string) {
    || Begins(s, "\n**User:**") || Begins(s, "\n**Assistant:**") || Begins(s, "\n**Human:**")
    || Begins(s, "\n[System]:") || Begins(s, "\nSystem:") || Begins(s, "\n[AI]:") || Begins(s, "\nAI:")
  }

  ghost predicate HeadingLine(wide: char -> bool, s: string) {
    HeadingOf(wide, "User", s) || HeadingOf(wide, "Assistant", s) || HeadingOf(wide, "Human", s)
  }

  predicate SpeakerTag(s: string) {
    || Begins(s, "<user>") || Begins(s, "</assistant>") || Begins(s, "<human>")
    || Begins(s, "<assistant>") || Begins(s, "</user>") || Begins(s, "</human>")
    || Begins(s, "<|user|>") || Begins(s, "<|assistant|>") || Begins(s, "<|system|>")
    || Begins(s, "<|im_start|>") || Begins(s, "<|im_end|>")
  }

  ghost predicate ToolTag(wide: char -> bool, s: string) {
    Begins(s, "[antml:thinking]") || InvokeTag(s) || Begins(s, "<function_calls>") || PrefixedCalls(wide, s)
  }

  /** A turn marker stands at the beginning of `s`. */
  ghost predicate MarkerText(wide: char -> bool, s: string) {
    || SpeakerLine(s) || OtherLine(s) || HeadingLine(wide, s) || SpeakerTag(s)
    || QuoteOf("User:", s) || QuoteOf("Assistant:", s) || ToolTag(wide, s)
  }

  /** A turn marker starts at index `i`. */
  ghost predicate MarkerAt(wide: char -> bool, s: string, i: nat)
    requires i <= |s|
  {
    MarkerText(wide, s[i..])
  }

  // ---- The markers, as patterns ----

  /** The shapes the guard's expressions have. */
  datatype Marker =
    | Plain(text: string)                                  // the text itself
    | Heading(name: string)                                // \n#{1,3} name\b
    | Quoted(name: string)                                 // \n>\s*name
    | Repeat(head: string, k: CharClass, tail: string)     // head, one or more of k, tail

  const TURN_MARKERS: seq<Marker> := [
    Plain("\n[User]:"), Plain("\n[Assistant]:"), Plain("\n[Human]:"),
    Plain("\nUser:"), Plain("\nHuman:"), Plain("\nAssistant:"),
    Heading("User"), Heading("Assistant"), Heading("Human"),
    Plain("<user>"), Plain("</assistant>"), Plain("<human>"),
    Plain("\n**User:**"), Plain("\n**Assistant:**"), Plain("\n**Human:**"),
    Plain("\n[System]:"), Plain("\nSystem:"), Plain("\n[AI]:"), Plain("\nAI:"),
    Plain("<|user|>"), Plain("<|assistant|>"), Plain("<|system|>"), Plain("<|im_start|>"), Plain("<|im_end|>"),
    Plain("<assistant>"), Plain("</user>"), Plain("</human>"),
    Quoted("User:"), Quoted("Assistant:"),
    Plain("[antml:thinking]"),
    Repeat("<invoke", Space, "name="),
    Plain("<function_calls>"),
    Repeat("<", Word, ":function_calls>")]

  function Lit(s: string): Pattern { seq(|s|, i requires 0 <= i < |s| => One(Is(s[i]))) }

  function Compile(m: Marker): Pattern {
    match m
    case Plain(text) => Lit(text)
    case Heading(name) => Lit("\n#") + [Opt(Is('#')), Opt(Is('#'))] + Lit(" " + name) + [Bound]
    case Quoted(name) => Lit("\n>") + [Star(Space)] + Lit(name)
    case Repeat(head, k, tail) => Lit(head) + [One(k), Star(k)] + Lit(tail)
  }

  // ---- What a pattern matches ----

  ghost predicate InClass(wide: char -> bool, k: CharClass, c: char) {
    match k
    case Is(d) => c == d
    case Space => IsWhitespace(c)
    case Word => WordChar(wide, c)
  }

  ghost predicate WordAt(wide: char -> bool, c: Option<char>) { c.Some? && WordChar(wide, c.value) }

  function First(s: string): Option<char> { if s == [] then None else Some(s[0]) }

  /** `p` matches some prefix of `s`, where `prev` is the character before `s`. */
  ghost predicate Matches(wide: char -> bool, p: Pattern, prev: Option<char>, s: string)
    decreases |p| + |s|
  {
    if p == [] then true else
    match p[0]
    case One(k) => s != [] && InClass(wide, k, s[0]) && Matches(wide, p[1..], Some(s[0]), s[1..])
    case Opt(k) =>
      || Matches(wide, p[1..], prev, s)
      || (s != [] && InClass(wide, k, s[0]) && Matches(wide, p[1..], Some(s[0]), s[1..]))
    case Star(k) =>
      || Matches(wide, p[1..], prev, s)
      || (s != [] && InClass(wide, k, s[0]) && Matches(wide, p, Some(s[0]), s[1..]))
    case Bound => WordAt(wide, prev) != WordAt(wide, First(s)) && Matches(wide, p[1..], prev, s)
  }

  // ---- Patterns match the markers ----

  function LastOr(s: string, prev: Option<char>): Option<char> { if s == [] then prev else Some(s[|s| - 1]) }

  /** A literal matches itself, and then the rest. */
  lemma {:induction false} MatchesLit(wide: char -> bool, t: string, p: Pattern, prev: Option<char>, s: string)
    ensures Matches(wide, Lit(t) + p, prev, s) <==> t <= s && Matches(wide, p, LastOr(t, prev), s[|t|..])
  {
    if t == [] {
      assert Lit(t) + p == p && s[0..] == s;
    } else {
      assert (Lit(t) + p)[0] == One(Is(t[0])) && (Lit(t) + p)[1..] == Lit(t[1..]) + p;
      if s != [] && s[0] == t[0] {
        MatchesLit(wide, t[1..], p, Some(s[0]), s[1..]);
        assert t == [t[0]] + t[1..] && s == [s[0]] + s[1..];
        if t <= s { assert s[1..][|t| - 1..] == s[|t|..]; }
        if t[1..] <= s[1..] { assert t <= s; }
      }
    }
  }

  lemma MatchesText(wide: char -> bool, t: string, prev: Option<char>, s: string)
    ensures Matches(wide, Lit(t), prev, s) <==> t <= s
  {
    MatchesLit(wide, t, [], prev, s);
    assert Lit(t) + [] == Lit(t);
  }

  ghost predicate AllOf(wide: char -> bool, k: CharClass, s: string) { forall c :: c in s ==> InClass(wide, k, c) }

  /** Any run of the class, and then `tail`. */
  lemma {:induction false} MatchesStar(wide: char -> bool, k: CharClass, tail: string, prev: Option<char>, s: string)
    ensures Matches(wide, [Star(k)] + Lit(tail), prev, s) <==>
            exists j :: 0 <= j <= |s| && AllOf(wide, k, s[..j]) && tail <= s[j..]
    decreases |s|
  {
    var p := [Star(k)] + Lit(tail);
    assert p[1..] == Lit(tail);
    MatchesText(wide, tail, prev, s);
    assert s[..0] == [] && s[0..] == s;
    if s != [] && InClass(wide, k, s[0]) {
      MatchesStar(wide, k, tail, Some(s[0]), s[1..]);
      RunGrows(wide, k, tail, s);
    } else {
      forall j | 0 < j <= |s| ensures !AllOf(wide, k, s[..j]) {
        assert s[..j][0] == s[0] && s[0] in s[..j];
      }
    }
  }

  lemma RunGrows(wide: char -> bool, k: CharClass, tail: string, s: string)
    requires s != [] && InClass(wide, k, s[0])
    ensures (exists j :: 0 <= j <= |s| && AllOf(wide, k, s[..j]) && tail <= s[j..]) <==>
            tail <= s || exists j :: 0 <= j <= |s[1..]| && AllOf(wide, k, s[1..][..j]) && tail <= s[1..][j..]
  {
    assert s[..0] == [] && s[0..] == s;
    RunOfOne(wide, k, tail, s);
  }

  /** `head`, a run of the class, and `tail`. */
  lemma MatchesHeadStar(wide: char -> bool, head: string, k: CharClass, tail: string, prev: Option<char>, s: string)
    ensures Matches(wide, Lit(head) + [Star(k)] + Lit(tail), prev, s) <==>
            head <= s && exists j :: |head| <= j <= |s| && AllOf(wide, k, s[|head|..j]) && tail <= s[j..]
  {
    var n, p := |head|, [Star(k)] + Lit(tail);
    assert Lit(head) + [Star(k)] + Lit(tail) == Lit(head) + p;
    MatchesLit(wide, head, p, prev, s);
    if head <= s {
      var rest := s[n..];
      MatchesStar(wide, k, tail, LastOr(head, prev), rest);
      if j :| 0 <= j <= |rest| && AllOf(wide, k, rest[..j]) && tail <= rest[j..] {
        assert rest[..j] == s[n..n + j] && rest[j..] == s[n + j..];
      }
      if j :| n <= j <= |s| && AllOf(wide, k, s[n..j]) && tail <= s[j..] {
        assert rest[..j - n] == s[n..j] && rest[j - n..] == s[j..];
      }
    }
  }

  /** One of the class, and then a run of it. */
  lemma MatchesPlus(wide: char -> bool, k: CharClass, tail: string, prev: Option<char>, s: string)
    ensures Matches(wide, [One(k), Star(k)] + Lit(tail), prev, s) <==>
            exists j :: 0 < j <= |s| && AllOf(wide, k, s[..j]) && tail <= s[j..]
  {
    var p := [One(k), Star(k)] + Lit(tail);
    assert p[0] == One(k) && p[1..] == [Star(k)] + Lit(tail);
    if s != [] && InClass(wide, k, s[0]) {
      MatchesStar(wide, k, tail, Some(s[0]), s[1..]);
      hide Matches, Lit;
      RunOfOne(wide, k, tail, s);
    } else {
      forall j | 0 < j <= |s| ensures !AllOf(wide, k, s[..j]) {
        assert s[..j][0] == s[0] && s[0] in s[..j];
      }
    }
  }

  lemma RunOfOne(wide: char -> bool, k: CharClass, tail: string, s: string)
    requires s != [] && InClass(wide, k, s[0])
    ensures (exists j :: 0 < j <= |s| && AllOf(wide, k, s[..j]) && tail <= s[j..]) <==>
            exists j :: 0 <= j <= |s[1..]| && AllOf(wide, k, s[1..][..j]) && tail <= s[1..][j..]
  {
    forall j | 0 <= j < |s| ensures AllOf(wide, k, s[..j + 1]) <==> AllOf(wide, k, s[1..][..j]) {
      assert s[..j + 1] == [s[0]] + s[1..][..j];
      assert forall c :: c in s[..j + 1] <==> c == s[0] || c in s[1..][..j];
    }
    forall j | 0 <= j < |s| ensures s[1..][j..] == s[j + 1..] {
    }
    if j :| 0 < j <= |s| && AllOf(wide, k, s[..j]) && tail <= s[j..] {
      assert AllOf(wide, k, s[1..][..j - 1]) && tail <= s[1..][j - 1..];
    }
    if j :| 0 <= j <= |s[1..]| && AllOf(wide, k, s[1..][..j]) && tail <= s[1..][j..] {
      assert AllOf(wide, k, s[..j + 1]) && tail <= s[j + 1..];
    }
  }

  /** `head`, one or more of the class, and `tail`. */
  lemma MatchesRepeat(wide: char -> bool, head: string, k: CharClass, tail: string, prev: Option<char>, s: string)
    ensures Matches(wide, Compile(Repeat(head, k, tail)), prev, s) <==>
            head <= s && exists j :: |head| < j <= |s| && AllOf(wide, k, s[|head|..j]) && tail <= s[j..]
  {
    hide AllOf;
    var n, p := |head|, [One(k), Star(k)] + Lit(tail);
    assert Compile(Repeat(head, k, tail)) == Lit(head) + p;
    MatchesLit(wide, head, p, prev, s);
    if head <= s {
      var rest := s[n..];
      MatchesPlus(wide, k, tail, LastOr(head, prev), rest);
      hide Matches, Lit, Compile;
      if j :| 0 < j <= |rest| && AllOf(wide, k, rest[..j]) && tail <= rest[j..] {
        assert rest[..j] == s[n..n + j] && rest[j..] == s[n + j..];
      }
      if j :| n < j <= |s| && AllOf(wide, k, s[n..j]) && tail <= s[j..] {
        assert rest[..j - n] == s[n..j] && rest[j - n..] == s[j..];
      }
    }
  }

  lemma MatchesBound(wide: char -> bool, prev: Option<char>, s: string)
    ensures Matches(wide, [Bound], prev, s) <==> WordAt(wide, prev) != WordAt(wide, First(s))
  {
    assert [Bound][1..] == [];
  }

  /** A literal that ends in a word character, and a word boundary. */
  lemma MatchesWord(wide: char -> bool, t: string, prev: Option<char>, s: string)
    requires t != [] && AsciiWord(t[|t| - 1])
    ensures Matches(wide, Lit(t) + [Bound], prev, s) <==> WholeWord(wide, t, s)
  {
    MatchesLit(wide, t, [Bound], prev, s);
    if t <= s { MatchesBound(wide, LastOr(t, prev), s[|t|..]); }
  }

  lemma MatchesOpt(wide: char -> bool, c: char, p: Pattern, prev: Option<char>, s: string)
    ensures Matches(wide, [Opt(Is(c))] + p, prev, s) <==>
            Matches(wide, p, prev, s) || Matches(wide, Lit([c]) + p, prev, s)
  {
    var q := [Opt(Is(c))] + p;
    assert q[0] == Opt(Is(c)) && q[1..] == p;
    assert (Lit([c]) + p)[0] == One(Is(c)) && (Lit([c]) + p)[1..] == p;
  }

  lemma LitConcat(a: string, b: string, p: Pattern)
    ensures Lit(a) + (Lit(b) + p) == Lit(a + b) + p
  {
  }

  /** An optional character after a literal. */
  lemma MatchesLitOpt(wide: char -> bool, t: string, c: char, p: Pattern, prev: Option<char>, s: string)
    ensures Matches(wide, Lit(t) + ([Opt(Is(c))] + p), prev, s) <==>
            Matches(wide, Lit(t) + p, prev, s) || Matches(wide, Lit(t + [c]) + p, prev, s)
  {
    MatchesLit(wide, t, [Opt(Is(c))] + p, prev, s);
    MatchesLit(wide, t, p, prev, s);
    MatchesLit(wide, t, Lit([c]) + p, prev, s);
    LitConcat(t, [c], p);
    if t <= s { MatchesOpt(wide, c, p, LastOr(t, prev), s[|t|..]); }
  }

  lemma MatchesHeading(wide: char -> bool, name: string, prev: Option<char>, s: string)
    requires name != [] && AsciiWord(name[|name| - 1])
    ensures Matches(wide, Compile(Heading(name)), prev, s) <==> HeadingOf(wide, name, s)
  {
    hide Matches, Lit;
    var word := Lit(" " + name) + [Bound];
    var one := [Opt(Is('#'))] + word;
    HeadingShape(name);
    MatchesLitOpt(wide, "\n#", '#', one, prev, s);
    MatchesLitOpt(wide, "\n#", '#', word, prev, s);
    MatchesLitOpt(wide, "\n##", '#', word, prev, s);
    assert "\n#" + ['#'] == "\n##" && "\n##" + ['#'] == "\n###";
    LevelMatches(wide, "\n#", name, prev, s);
    LevelMatches(wide, "\n##", name, prev, s);
    LevelMatches(wide, "\n###", name, prev, s);
    assert "\n#" + " " == "\n# " && "\n##" + " " == "\n## " && "\n###" + " " == "\n### ";
  }

  lemma HeadingShape(name: string)
    ensures Compile(Heading(name)) == Lit("\n#") + ([Opt(Is('#'))] + ([Opt(Is('#'))] + (Lit(" " + name) + [Bound])))
  {
  }

  lemma LevelMatches(wide: char -> bool, level: string, name: string, prev: Option<char>, s: string)
    requires name != [] && AsciiWord(name[|name| - 1])
    ensures Matches(wide, Lit(level) + (Lit(" " + name) + [Bound]), prev, s) <==> WholeWord(wide, level + " " + name, s)
  {
    LitConcat(level, " " + name, [Bound]);
    var t := level + (" " + name);
    assert t == level + " " + name && t[|t| - 1] == name[|name| - 1];
    MatchesWord(wide, t, prev, s);
  }

  /** What a marker stands for, as text. */
  ghost predicate Spelled(wide: char -> bool, m: Marker, s: string) {
    match m
    case Plain(text) => Begins(s, text)
    case Heading(name) => HeadingOf(wide, name, s)
    case Quoted(name) => QuoteOf(name, s)
    case Repeat(head, k, tail) =>
      head <= s && exists j :: |head| < j <= |s| && AllOf(wide, k, s[|head|..j]) && tail <= s[j..]
  }

  /** A compiled marker matches exactly the text it stands for. */
  lemma CompiledMatches(wide: char -> bool, m: Marker, prev: Option<char>, s: string)
    requires WellFormed(m)
    ensures Matches(wide, Compile(m), prev, s) <==> Spelled(wide, m, s)
  {
    match m
    case Plain(text) => MatchesText(wide, text, prev, s);
    case Heading(name) => MatchesHeading(wide, name, prev, s);
    case Quoted(name) => MatchesQuote(wide, name, prev, s);
    case Repeat(head, k, tail) => MatchesRepeat(wide, head, k, tail, prev, s);
  }

  lemma MatchesQuote(wide: char -> bool, name: string, prev: Option<char>, s: string)
    ensures Matches(wide, Compile(Quoted(name)), prev, s) <==> QuoteOf(name, s)
  {
    MatchesHeadStar(wide, "\n>", Space, name, prev, s);
    assert forall j :: 2 <= j <= |s| ==> (AllOf(wide, Space, s[2..j]) <==> AllSpace(s[2..j]));
  }

  /** The 33 patterns together match exactly the marker texts. */
  lemma PatternsAreTheMarkers(wide: char -> bool, prev: Option<char>, s: string)
    ensures MarkerText(wide, s) <==> exists m :: m in TURN_MARKERS && Matches(wide, Compile(m), prev, s)
  {
    hide Matches, Compile;
    MarkersWellFormed();
    forall m | m in TURN_MARKERS ensures Matches(wide, Compile(m), prev, s) <==> Spelled(wide, m, s) {
      CompiledMatches(wide, m, prev, s);
    }
    MarkersAreSpelled(wide, s);
  }

  lemma MarkersAreSpelled(wide: char -> bool, s: string)
    ensures MarkerText(wide, s) <==> exists m :: m in TURN_MARKERS && Spelled(wide, m, s)
  {
    hide MarkerText, Spelled;
    if MarkerText(wide, s) {
      var i := TextIsSpelled(wide, s);
      assert TURN_MARKERS[i] in TURN_MARKERS;
    }
    if m :| m in TURN_MARKERS && Spelled(wide, m, s) {
      var i :| 0 <= i < |TURN_MARKERS| && TURN_MARKERS[i] == m;
      SpelledIsText(wide, s, i);
    }
  }

  /** Which of the patterns spells the marker. */
  lemma TextIsSpelled(wide: char -> bool, s: string) returns (i: nat)
    requires MarkerText(wide, s)
    ensures i < |TURN_MARKERS| && Spelled(wide, TURN_MARKERS[i], s)
  {
    hide SpeakerLine, OtherLine, SpeakerTag, HeadingOf, QuoteOf, Begins, InvokeTag, PrefixedCalls;
    if SpeakerLine(s) {
      i := LineIsSpelled(wide, s);
    } else if OtherLine(s) {
      i := OtherIsSpelled(wide, s);
    } else if SpeakerTag(s) {
      i := TagIsSpelled(wide, s);
    } else if HeadingLine(wide, s) {
      return if HeadingOf(wide, "User", s) then 6 else if HeadingOf(wide, "Assistant", s) then 7 else 8;
    } else if QuoteOf("User:", s) || QuoteOf("Assistant:", s) {
      return if QuoteOf("User:", s) then 27 else 28;
    } else if Begins(s, "[antml:thinking]") || Begins(s, "<function_calls>") {
      return if Begins(s, "[antml:thinking]") then 29 else 31;
    } else {
      InvokeIsSpelled(wide, s);
      PrefixedIsSpelled(wide, s);
      return if InvokeTag(s) then 30 else 32;
    }
  }

  lemma LineIsSpelled(wide: char -> bool, s: string) returns (i: nat)
    requires SpeakerLine(s)
    ensures i < |TURN_MARKERS| && Spelled(wide, TURN_MARKERS[i], s)
  {
    hide Begins;
    if Begins(s, "\n[User]:") { return 0; }
    if Begins(s, "\n[Assistant]:") { return 1; }
    if Begins(s, "\n[Human]:") { return 2; }
    if Begins(s, "\nUser:") { return 3; }
    if Begins(s, "\nHuman:") { return 4; }
    return 5;
  }

  lemma OtherIsSpelled(wide: char -> bool, s: string) returns (i: nat)
    requires OtherLine(s)
    ensures i < |TURN_MARKERS| && Spelled(wide, TURN_MARKERS[i], s)
  {
    hide Begins;
    if Begins(s, "\n**User:**") { return 12; }
    if Begins(s, "\n**Assistant:**") { return 13; }
    if Begins(s, "\n**Human:**") { return 14; }
    if Begins(s, "\n[System]:") { return 15; }
    if Begins(s, "\nSystem:") { return 16; }
    if Begins(s, "\n[AI]:") { return 17; }
    return 18;
  }

  lemma TagIsSpelled(wide: char -> bool, s: string) returns (i: nat)
    requires SpeakerTag(s)
    ensures i < |TURN_MARKERS| && Spelled(wide, TURN_MARKERS[i], s)
  {
    hide Begins;
    if Begins(s, "<user>") { return 9; }
    if Begins(s, "</assistant>") { return 10; }
    if Begins(s, "<human>") { return 11; }
    if Begins(s, "<|user|>") { return 19; }
    if Begins(s, "<|assistant|>") { return 20; }
    if Begins(s, "<|system|>") { return 21; }
    if Begins(s, "<|im_start|>") { return 22; }
    if Begins(s, "<|im_end|>") { return 23; }
    if Begins(s, "<assistant>") { return 24; }
    if Begins(s, "</user>") { return 25; }
    return 26;
  }

  lemma InvokeIsSpelled(wide: char -> bool, s: string)
    ensures InvokeTag(s) <==> Spelled(wide, Repeat("<invoke", Space, "name="), s)
  {
    assert forall j :: 7 < j <= |s| ==> (AllOf(wide, Space, s[7..j]) <==> AllSpace(s[7..j]));
  }

  lemma PrefixedIsSpelled(wide: char -> bool, s: string)
    ensures PrefixedCalls(wide, s) <==> Spelled(wide, Repeat("<", Word, ":function_calls>"), s)
  {
    assert forall j :: 1 < j <= |s| ==> (AllOf(wide, Word, s[1..j]) <==> AllWord(wide, s[1..j]));
  }

  lemma SpelledIsText(wide: char -> bool, s: string, i: nat)
    requires i < |TURN_MARKERS| && Spelled(wide, TURN_MARKERS[i], s)
    ensures MarkerText(wide, s)
  {
    hide Begins, HeadingOf, QuoteOf, InvokeTag, PrefixedCalls;
    InvokeIsSpelled(wide, s);
    PrefixedIsSpelled(wide, s);
  }

  function Before(s: string, i: nat): Option<char>
    requires i <= |s|
  {
    if i == 0 then None else Some(s[i - 1])
  }

  // ---- The scan ----

  datatype Scan = Dead | Viable

  predicate AsciiIn(k: CharClass, c: char) {
    match k
    case Is(d) => c == d
    case Space => IsWhitespace(c)
    case Word => AsciiWord(c)
  }

  predicate AsciiWordAt(c: Option<char>) { c.Some? && AsciiWord(c.value) }

  /** A match ends here, given one character of lookahead. */
  predicate Accepts(p: Pattern, prev: Option<char>, next: Option<char>) {
    if p == [] then true else
    match p[0]
    case One(_) => false
    case Opt(_) => Accepts(p[1..], prev, next)
    case Star(_) => Accepts(p[1..], prev, next)
    case Bound => AsciiWordAt(prev) != AsciiWordAt(next) && Accepts(p[1..], prev, next)
  }

  /** What is left of `p` to match after it has consumed `c`. */
  function Residuals(p: Pattern, prev: Option<char>, c: char): set<Pattern> {
    if p == [] then {} else
    match p[0]
    case One(k) => if AsciiIn(k, c) then {p[1..]} else {}
    case Opt(k) => Residuals(p[1..], prev, c) + if AsciiIn(k, c) then {p[1..]} else {}
    case Star(k) => Residuals(p[1..], prev, c) + if AsciiIn(k, c) then {p} else {}
    case Bound => if AsciiWordAt(prev) != AsciiWord(c) then Residuals(p[1..], prev, c) else {}
  }

  /** The transition of a DFA state, a set of residuals. */
  function Next(state: set<Pattern>, prev: Option<char>, c: char): set<Pattern> {
    set p, q | p in state && q in Residuals(p, prev, c) :: q
  }

  /** The verdict on `s` from `state`. A character beyond ASCII quits the DFA. */
  function ScanFrom(state: set<Pattern>, prev: Option<char>, s: string): Scan
    decreases |s|
  {
    if s == [] then Viable
    else if !IsAscii(s[0]) || (exists p | p in state :: Accepts(p, prev, Some(s[0]))) then Viable
    else
      var next := Next(state, prev, s[0]);
      if next == {} then Dead else ScanFrom(next, Some(s[0]), s[1..])
  }

  function StartState(): set<Pattern> { set m | m in TURN_MARKERS :: Compile(m) }

  /** The scan of `suffix`: one pass over its bytes. */
  method ScanSuffix(suffix: string) returns (r: Scan)
    ensures r == ScanFrom(StartState(), None, suffix)
  {
    var state := StartState();
    var prev: Option<char> := None;
    for i := 0 to |suffix|
      invariant ScanFrom(StartState(), None, suffix) == ScanFrom(state, prev, suffix[i..])
    {
      var c := suffix[i];
      if !IsAscii(c) || exists p | p in state :: Accepts(p, prev, Some(c)) {
        return Viable;
      }
      state := Next(state, prev, c);
      if state == {} {
        return Dead;
      }
      prev := Some(c);
    }
    return Viable;
  }

  // ---- Soundness: a dead start has no marker in any continuation ----

  predicate AsciiOpt(c: Option<char>) { c.Some? ==> IsAscii(c.value) }

  /** Some residual of `p` after `c` matches `rest`. */
  ghost predicate GoesOn(wide: char -> bool, p: Pattern, prev: Option<char>, c: char, rest: string) {
    exists q :: q in Residuals(p, prev, c) && Matches(wide, q, Some(c), rest)
  }

  /** Consuming one character: a match ends here, or a residual goes on to match. */
  lemma {:induction false} MatchesStep(wide: char -> bool, p: Pattern, prev: Option<char>, c: char, rest: string)
    requires IsAscii(c) && AsciiOpt(prev)
    ensures Matches(wide, p, prev, [c] + rest) <==> Accepts(p, prev, Some(c)) || GoesOn(wide, p, prev, c, rest)
  {
    if p != [] {
      var s := [c] + rest;
      assert s[0] == c && s[1..] == rest && First(s) == Some(c);
      if !p[0].One? {
        MatchesStep(wide, p[1..], prev, c, rest);
        if p[0].Bound? {
          assert WordAt(wide, prev) == AsciiWordAt(prev) && WordAt(wide, Some(c)) == AsciiWordAt(Some(c));
        } else {
          assert AsciiIn(p[0].k, c) == InClass(wide, p[0].k, c);
          var tail, now := Residuals(p[1..], prev, c), if p[0].Opt? then p[1..] else p;
          assert Residuals(p, prev, c) == tail + if AsciiIn(p[0].k, c) then {now} else {};
          assert GoesOn(wide, p, prev, c, rest) <==>
                 GoesOn(wide, p[1..], prev, c, rest) || (AsciiIn(p[0].k, c) && Matches(wide, now, Some(c), rest));
        }
      }
    }
  }

  lemma {:induction false} DeadIsSound(
      wide: char -> bool, state: set<Pattern>, prev: Option<char>, s: string, ext: string, p: Pattern)
    requires ScanFrom(state, prev, s) == Dead && AsciiOpt(prev) && p in state
    ensures !Matches(wide, p, prev, s + ext)
    decreases |s|
  {
    var c, rest := s[0], s[1..] + ext;
    assert s + ext == [c] + rest;
    MatchesStep(wide, p, prev, c, rest);
    forall q | q in Residuals(p, prev, c)
      ensures !Matches(wide, q, Some(c), rest)
    {
      assert q in Next(state, prev, c);
      DeadIsSound(wide, Next(state, prev, c), Some(c), s[1..], ext, q);
    }
  }

  // ---- Precision: a viable ASCII start has a marker in some continuation ----

  /** A `\b` stands only at the end, after a word character. */
  predicate Usable(p: Pattern, prev: Option<char>) {
    if p == [] then true else
    match p[0]
    case One(Is(c)) => Usable(p[1..], Some(c))
    case Bound => AsciiWordAt(prev) && p[1..] == []
    case _ => Usable(p[1..], None)
  }

  lemma UsableAnywhere(p: Pattern, prev: Option<char>)
    requires Usable(p, None)
    ensures Usable(p, prev)
  {
  }

  function Completion(p: Pattern): string {
    if p == [] then "" else
    match p[0]
    case One(Is(c)) => [c] + Completion(p[1..])
    case One(Space) => " " + Completion(p[1..])
    case One(Word) => "w" + Completion(p[1..])
    case _ => Completion(p[1..])
  }

  lemma {:induction false} CompletionMatches(wide: char -> bool, p: Pattern, prev: Option<char>)
    requires Usable(p, prev)
    ensures Matches(wide, p, prev, Completion(p))
  {
    if p != [] && !p[0].Bound? {
      if p[0].One? {
        var c := Completion(p)[0];
        assert Completion(p)[1..] == Completion(p[1..]);
        if !p[0].k.Is? { UsableAnywhere(p[1..], Some(c)); }
        CompletionMatches(wide, p[1..], Some(c));
      } else {
        UsableAnywhere(p[1..], prev);
        CompletionMatches(wide, p[1..], prev);
      }
    }
  }

  lemma {:induction false} ResidualsStayUsable(p: Pattern, prev: Option<char>, c: char, q: Pattern)
    requires Usable(p, prev) && q in Residuals(p, prev, c)
    ensures Usable(q, Some(c))
  {
    if p[0].One? {
      if !p[0].k.Is? { UsableAnywhere(p[1..], Some(c)); }
    } else if !p[0].Bound? {
      UsableAnywhere(p[1..], prev);
      if q in Residuals(p[1..], prev, c) {
        ResidualsStayUsable(p[1..], prev, c, q);
      } else if p[0].Opt? {
        UsableAnywhere(p[1..], Some(c));
      }
    }
  }

  /** A continuation of `s` that matches a pattern of `state`. */
  lemma {:induction false} ViableIsPrecise(wide: char -> bool, state: set<Pattern>, prev: Option<char>, s: string)
    returns (ext: string, p: Pattern)
    requires ScanFrom(state, prev, s) == Viable && state != {} && (forall p :: p in state ==> Usable(p, prev))
             && AsciiOpt(prev)
    requires forall c :: c in s ==> IsAscii(c)
    ensures p in state && Matches(wide, p, prev, s + ext)
    decreases |s|
  {
    if s == [] {
      p :| p in state;
      ext := Completion(p);
      CompletionMatches(wide, p, prev);
      assert s + ext == ext;
    } else if exists p | p in state :: Accepts(p, prev, Some(s[0])) {
      p :| p in state && Accepts(p, prev, Some(s[0]));
      ext := "";
      assert s + ext == [s[0]] + s[1..];
      MatchesStep(wide, p, prev, s[0], s[1..]);
    } else {
      var next := Next(state, prev, s[0]);
      forall q | q in next
        ensures Usable(q, Some(s[0]))
      {
        var r :| r in state && q in Residuals(r, prev, s[0]);
        ResidualsStayUsable(r, prev, s[0], q);
      }
      var q;
      ext, q := ViableIsPrecise(wide, next, Some(s[0]), s[1..]);
      p :| p in state && q in Residuals(p, prev, s[0]);
      assert s + ext == [s[0]] + (s[1..] + ext);
      assert GoesOn(wide, p, prev, s[0], s[1..] + ext);
      MatchesStep(wide, p, prev, s[0], s[1..] + ext);
    }
  }

  // ---- The 33 markers ----

  predicate IsMarkerStart(c: char) { c == '\n' || c == '<' || c == '[' }

  /** What the gate relies on: a marker begins with one of three characters,
      and a heading's name ends in a word character. */
  predicate WellFormed(m: Marker) {
    match m
    case Plain(text) => text != [] && IsMarkerStart(text[0])
    case Heading(name) => name != [] && AsciiWord(name[|name| - 1])
    case Quoted(_) => true
    case Repeat(head, k, _) => head != [] && IsMarkerStart(head[0]) && !k.Is?
  }

  lemma MarkersWellFormed()
    ensures forall m :: m in TURN_MARKERS ==> WellFormed(m)
  {
    forall i | 0 <= i < |TURN_MARKERS|
      ensures WellFormed(TURN_MARKERS[i])
    {
      if i < 11 {} else if i < 22 {} else {}
    }
  }

  lemma {:induction false} LitUsable(s: string, rest: Pattern)
    requires Usable(rest, if s == [] then None else Some(s[|s| - 1]))
    ensures Usable(Lit(s) + rest, None)
  {
    if s == [] {
      assert Lit(s) + rest == rest;
    } else {
      assert (Lit(s) + rest)[1..] == Lit(s[1..]) + rest;
      if |s| == 1 {
        assert Lit(s[1..]) + rest == rest;
      } else {
        LitUsable(s[1..], rest);
        UsableAnywhere(Lit(s[1..]) + rest, Some(s[0]));
      }
    }
  }

  lemma MarkerUsable(m: Marker)
    requires WellFormed(m)
    ensures Usable(Compile(m), None)
  {
    match m
    case Plain(text) =>
      LitUsable(text, []);
      assert Lit(text) + [] == Lit(text);
    case Heading(name) =>
      LitUsable(" " + name, [Bound]);
      PrependUsable("\n#", [Opt(Is('#')), Opt(Is('#'))], Lit(" " + name) + [Bound]);
      assert Compile(m) == Lit("\n#") + [Opt(Is('#')), Opt(Is('#'))] + (Lit(" " + name) + [Bound]);
    case Quoted(name) =>
      LitUsable(name, []);
      assert Lit(name) + [] == Lit(name);
      PrependUsable("\n>", [Star(Space)], Lit(name));
    case Repeat(head, k, tail) =>
      LitUsable(tail, []);
      assert Lit(tail) + [] == Lit(tail);
      PrependUsable(head, [One(k), Star(k)], Lit(tail));
  }

  lemma PrependUsable(head: string, middle: Pattern, tail: Pattern)
    requires 1 <= |middle| <= 2 && Usable(tail, None)
    requires forall e :: e in middle ==> !e.Bound? && e != One(Is('#')) && (e.One? ==> !e.k.Is?)
    ensures Usable(Lit(head) + middle + tail, None)
  {
    var rest := middle + tail;
    if |middle| == 1 {
      assert rest[1..] == tail;
    } else {
      assert rest[1..][1..] == tail && rest[1..][0] == middle[1];
    }
    UsableAnywhere(rest, if head == [] then None else Some(head[|head| - 1]));
    LitUsable(head, rest);
    assert Lit(head) + middle + tail == Lit(head) + rest;
  }

  lemma MarkerHead(m: Marker)
    requires WellFormed(m)
    ensures var p := Compile(m); p != [] && p[0].One? && p[0].k.Is? && IsMarkerStart(p[0].k.c)
  {
  }

  lemma StartsOtherwise(wide: char -> bool, m: Marker, prev: Option<char>, s: string)
    requires WellFormed(m) && (s == [] || !IsMarkerStart(s[0]))
    ensures !Matches(wide, Compile(m), prev, s)
  {
    MarkerHead(m);
  }

  /** A dead suffix has no marker at its start, whatever precedes or follows it. */
  lemma DeadStart(wide: char -> bool, text: string, i: nat, n: nat)
    requires i <= n <= |text|
    requires ScanFrom(StartState(), None, text[i..n]) == Dead
    ensures !MarkerAt(wide, text, i)
  {
    hide MarkerText, ScanFrom;
    assert text[i..] == text[i..n] + text[n..];
    DeadHere(wide, text[i..n], text[n..]);
  }

  lemma DeadHere(wide: char -> bool, s: string, ext: string)
    requires ScanFrom(StartState(), None, s) == Dead
    ensures !MarkerText(wide, s + ext)
  {
    hide MarkerText, Matches, ScanFrom, Compile, WellFormed, StartState;
    MarkersWellFormed();
    PatternsAreTheMarkers(wide, None, s + ext);
    if MarkerText(wide, s + ext) {
      var m :| m in TURN_MARKERS && Matches(wide, Compile(m), None, s + ext);
      DeadForOne(wide, s, ext, m);
    }
  }

  lemma DeadForOne(wide: char -> bool, s: string, ext: string, m: Marker)
    requires ScanFrom(StartState(), None, s) == Dead && m in TURN_MARKERS
    ensures !Matches(wide, Compile(m), None, s + ext)
  {
    hide Matches, ScanFrom, Compile;
    DeadIsSound(wide, StartState(), None, s, ext, Compile(m));
  }

  /** On ASCII text the scan is exact: dead if and only if no continuation has
      a marker at the start. */
  lemma ScanExact(wide: char -> bool, s: string)
    requires forall c :: c in s ==> IsAscii(c)
    ensures ScanFrom(StartState(), None, s) == Dead <==> forall ext :: !MarkerAt(wide, s + ext, 0)
  {
    hide MarkerText, Matches, Compile;
    if ScanFrom(StartState(), None, s) == Dead {
      forall ext
        ensures !MarkerAt(wide, s + ext, 0)
      {
        assert (s + ext)[0..|s|] == s;
        DeadStart(wide, s + ext, 0, |s|);
      }
    } else {
      MarkersWellFormed();
      forall p | p in StartState()
        ensures Usable(p, None)
      {
        var m :| m in TURN_MARKERS && Compile(m) == p;
        MarkerUsable(m);
      }
      assert TURN_MARKERS[0] in TURN_MARKERS && Compile(TURN_MARKERS[0]) in StartState();
      var ext, p := ViableIsPrecise(wide, StartState(), None, s);
      var m :| m in TURN_MARKERS && Compile(m) == p;
      assert (s + ext)[0..] == s + ext;
      PatternsAreTheMarkers(wide, None, s + ext);
      assert MarkerAt(wide, s + ext, 0);
    }
  }

  // ---- The first index that may still start a marker ----

  function EarliestViableFrom(buf: string, from: nat): (r: nat)
    requires from <= |buf|
    ensures from <= r <= |buf|
    decreases |buf| - from
  {
    if from == |buf| then |buf|
    else if IsMarkerStart(buf[from]) && ScanFrom(StartState(), None, buf[from..]) == Viable then from
    else EarliestViableFrom(buf, from + 1)
  }

  method EarliestViable(buf: string, from: nat) returns (r: nat)
    ensures r == EarliestViableFrom(buf, if from < |buf| then from else |buf|)
  {
    var index := if from < |buf| then from else |buf|;
    while index < |buf|
      invariant index <= |buf|
      invariant EarliestViableFrom(buf, if from < |buf| then from else |buf|) == EarliestViableFrom(buf, index)
    {
      if !IsMarkerStart(buf[index]) {
        index := index + 1;
        continue;
      }
      var scan := ScanSuffix(buf[index..]);
      match scan {
        case Dead => index := index + 1;
        case Viable => return index;
      }
    }
    return |buf|;
  }

  /** No continuation of `buf` has a marker between `from` and the earliest
      viable index. */
  lemma {:induction false} NoMarkerBeforeViable(wide: char -> bool, buf: string, from: nat, text: string, i: nat)
    requires from <= |buf| && from <= i < EarliestViableFrom(buf, from) && buf <= text
    ensures !MarkerAt(wide, text, i)
    decreases i - from
  {
    hide MarkerText, Matches, Compile, ScanFrom;
    if from < i {
      NoMarkerBeforeViable(wide, buf, from + 1, text, i);
    } else if IsMarkerStart(buf[i]) {
      assert text[i..|buf|] == buf[i..];
      DeadStart(wide, text, i, |buf|);
    } else {
      PatternsAreTheMarkers(wide, Before(text, i), text[i..]);
      MarkersWellFormed();
      forall m | m in TURN_MARKERS
        ensures !Matches(wide, Compile(m), Before(text, i), text[i..])
      {
        StartsOtherwise(wide, m, Before(text, i), text[i..]);
      }
    }
  }
}
