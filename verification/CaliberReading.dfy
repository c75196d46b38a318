/** What the parser reads of any CALIBER.md, one edited by hand included. */
module CaliberReadings {
  import opened Text
  import opened Decimals
  import opened Calibers
  import opened CaliberTexts
  import opened CaliberProperties

  // ---- Parts of a text ----

  /** A part of a text has no character and no rule that the text has not. */
  predicate Within(part: string, s: string) {
    && (forall c :: c in part ==> c in s)
    && (Contains(part, RULE) ==> Contains(s, RULE))
  }

  lemma SliceIsWithin(s: string, i: nat, j: nat)
    requires i <= j <= |s|
    ensures Within(s[i..j], s)
  {
    var part := s[i..j];
    if Contains(part, RULE) {
      var k :| 0 <= k <= |part| && PartAt(part, RULE, k);
      assert forall m :: k <= m < k + |RULE| ==> s[i + m] == part[m];
      assert s[i + k..i + k + |RULE|] == part[k..k + |RULE|] && PartAt(s, RULE, i + k);
    }
  }

  lemma TrimIsWithin(s: string)
    ensures Within(Trim(s), s) && Trimmed(Trim(s))
  {
    var end := StripBack(s, 0, |s|);
    var t := s[..end];
    var at := StripFront(t, 0);
    assert Trim(s) == t[at..] == s[at..end];
    SliceIsWithin(s, at, end);
    if at < end {
      assert t[at] == s[at] && Trim(s)[0] == s[at] && Trim(s)[|Trim(s)| - 1] == s[end - 1];
    }
  }

  lemma WithinWithin(a: string, b: string, c: string)
    requires Within(a, b) && Within(b, c)
    ensures Within(a, c)
  {
    hide Contains;
  }

  lemma {:induction false} PiecesAreWithin(s: string, c: char)
    ensures forall k :: 0 <= k < |SplitOn(s, c)| ==> Within(SplitOn(s, c)[k], s)
    decreases |s|
  {
    hide Within, IndexOf;
    var i := IndexOf(s, c);
    assert s[0..i] == s[..i] && s[0..|s|] == s && s[i..|s|] == s[i..];
    SliceIsWithin(s, 0, i);
    if i < |s| {
      var rest := s[i + 1..];
      SliceIsWithin(s, i + 1, |s|);
      PiecesAreWithin(rest, c);
      var pieces := SplitOn(rest, c);
      forall k | 0 <= k < |pieces| ensures Within(pieces[k], s) { WithinWithin(pieces[k], rest, s); }
    } else {
      SliceIsWithin(s, 0, |s|);
    }
  }

  // ---- Rows ----

  /** A trimmed cell of a row that is one line and no rule. */
  lemma CellIsText(line: string, k: nat)
    requires '\n' !in line && !Contains(line, RULE) && k < |SplitOn(line, '|')|
    ensures CellText(Trim(SplitOn(line, '|')[k]))
  {
    hide SplitOn, Contains, Trim;
    var cell := SplitOn(line, '|')[k];
    SplitPieces(line, '|');
    PiecesAreWithin(line, '|');
    TrimIsWithin(cell);
    WithinWithin(Trim(cell), cell, line);
  }

  lemma RowIsText(f: Floats, line: string)
    requires '\n' !in line && !Contains(line, RULE) && ParseRow(f, line).Some?
    requires 0.0 <= ParseRow(f, line).value.confidence
    ensures EntryText(ParseRow(f, line).value)
  {
    hide SplitOn, Contains, Trim, ParseScore, DigitsOf, CellText;
    CellIsText(line, 1);
    CellIsText(line, 3);
    CellIsText(line, 5);
  }

  /** The cells between the bars of a row, as they stand. */
  lemma {:induction false} BarsSplit(cells: seq<string>)
    requires cells != [] && forall k :: 0 <= k < |cells| ==> '|' !in cells[k]
    ensures SplitOn(JoinWith(cells, "|"), '|') == cells
  {
    if |cells| == 1 {
      SplitNone(cells[0], '|');
    } else {
      BarsSplit(cells[1..]);
      SplitFirst(cells[0], '|', JoinWith(cells[1..], "|"));
    }
  }

  predicate NoDigits(s: string) { forall k :: 0 <= k < |s| ==> !('0' <= s[k] <= '9') }

  lemma {:induction false} DigitsSkip(before: string, s: string)
    requires NoDigits(before)
    ensures DigitsOf(before + s) == DigitsOf(s)
  {
    if before == "" {
      assert before + s == s;
    } else {
      assert (before + s)[0] == before[0] && (before + s)[1..] == before[1..] + s;
      DigitsSkip(before[1..], s);
    }
  }

  lemma {:induction false} DigitsThen(digits: string, s: string)
    requires forall k :: 0 <= k < |digits| ==> IsDigit(digits[k])
    ensures DigitsOf(digits + s) == digits + DigitsOf(s)
  {
    if digits == "" {
      assert digits + s == s;
    } else {
      assert (digits + s)[0] == digits[0] && (digits + s)[1..] == digits[1..] + s;
      DigitsThen(digits[1..], s);
    }
  }

  /** What a row written by hand means: with fewer than five cells nothing; else
      each cell trimmed, a confidence of a half when there is no number, and the
      number in the sample cell, whatever stands around it, or none. */
  lemma RowMeans(f: Floats, cells: seq<string>, before: string, n: nat, after: string)
    requires cells != [] && forall k :: 0 <= k < |cells| ==> '|' !in cells[k]
    requires NoDigits(before) && NoDigits(after)
    ensures var entry := ParseRow(f, JoinWith(cells, "|"));
            && (entry.Some? <==> |cells| >= 6)
            && (|cells| >= 6 ==>
                  var e, score := entry.value, ParseScore(f, Trim(cells[2]));
                  && e.domain == Trim(cells[1]) && e.evidence == Trim(cells[3]) && e.calibrated == Trim(cells[5])
                  && e.confidence == (if score.Some? then score.value else 0.5)
                  && (Trim(cells[4]) == before ==> e.samples == 0)
                  && (Trim(cells[4]) == before + Decimal(n) + after ==>
                        e.samples == if n < 0x1_0000_0000_0000_0000 then n else 0))
  {
    hide SplitOn, Trim, JoinWith, ParseScore, Decimal;
    BarsSplit(cells);
    DigitsSkip(before, "");
    assert before + "" == before && DigitsOf("") == "";
    DigitsSkip(after, "");
    assert after + "" == after;
    DigitsThen(Decimal(n), after);
    assert Decimal(n) + "" == Decimal(n);
    DigitsSkip(before, Decimal(n) + after);
    assert before + (Decimal(n) + after) == before + Decimal(n) + after;
    DecimalRoundTrip(n, U64);
  }

  predicate OneLiners(lines: seq<string>) { forall k :: 0 <= k < |lines| ==> '\n' !in lines[k] }

  predicate NotNegative(entries: seq<Entry>) { forall k :: 0 <= k < |entries| ==> 0.0 <= entries[k].confidence }

  lemma BothNotNegative(a: seq<Entry>, b: seq<Entry>)
    requires NotNegative(a + b)
    ensures NotNegative(a) && NotNegative(b)
  {
    assert forall k :: 0 <= k < |a| ==> (a + b)[k] == a[k];
    assert forall k :: 0 <= k < |b| ==> (a + b)[|a| + k] == b[k];
  }

  lemma {:induction false} EntriesAreText(f: Floats, lines: seq<string>, headerSeen: bool, inTable: bool)
    requires OneLiners(lines) && NotNegative(Entries(f, lines, headerSeen, inTable))
    ensures var entries := Entries(f, lines, headerSeen, inTable);
            forall k :: 0 <= k < |entries| ==> EntryText(entries[k])
    decreases |lines|
  {
    hide Trim, Contains, StartsRow, ParseRow, EntryText;
    if lines != [] {
      var line, rest := Trim(lines[0]), lines[1..];
      TrimIsWithin(lines[0]);
      if inTable && line == "" {
      } else if !StartsRow(line) {
        EntriesAreText(f, rest, headerSeen, inTable);
      } else if !headerSeen {
        EntriesAreText(f, rest, true, inTable);
      } else if Contains(line, RULE) {
        EntriesAreText(f, rest, headerSeen, true);
      } else {
        var own, later := if inTable then RowOf(f, line) else [], Entries(f, rest, headerSeen, inTable);
        BothNotNegative(own, later);
        EntriesAreText(f, rest, headerSeen, inTable);
        if own != [] {
          assert 0.0 <= own[0].confidence;
          RowIsText(f, line);
        }
      }
    }
  }

  lemma {:induction false} RowsAreText(lines: seq<string>, pastRule: bool)
    requires OneLiners(lines)
    ensures forall k :: 0 <= k < |Rows(lines, pastRule)| ==> RowText(Rows(lines, pastRule)[k])
    decreases |lines|
  {
    hide Trim, Contains, StartsRow;
    if lines != [] {
      var line, rest := Trim(lines[0]), lines[1..];
      TrimIsWithin(lines[0]);
      if !(line == "" && pastRule) {
        RowsAreText(rest, if StartsRow(line) && Contains(line, RULE) then true else pastRule);
      }
    }
  }

  // ---- Text between the tables ----

  lemma {:induction false} SplitJoin(lines: seq<string>)
    requires lines != [] && OneLiners(lines)
    ensures SplitOn(Join(lines), '\n') == lines
    decreases |lines|
  {
    hide SplitOn;
    if |lines| == 1 {
      SplitNone(lines[0], '\n');
    } else {
      SplitJoin(lines[1..]);
      SplitFirst(lines[0], '\n', Join(lines[1..]));
      assert lines[0] + ['\n'] + Join(lines[1..]) == Join(lines);
    }
  }

  lemma JoinedIsFree(lines: seq<string>, managed: set<string>)
    requires AllLines(lines) && "" !in managed && forall k :: 0 <= k < |lines| ==> Trim(lines[k]) !in managed
    ensures FreeOf(Join(lines), managed)
  {
    hide Trim, SplitOn;
    if lines == [] {
      SplitNone("", '\n');
      BlankTrims();
    } else {
      SplitJoin(lines);
    }
  }

  lemma SliceIsFree(lines: seq<string>, from: nat, to: nat, managed: set<string>)
    requires to <= |lines| && AllLines(lines) && "" !in managed
    requires forall k :: from <= k < to ==> Trim(lines[k]) !in managed
    ensures FreeOf(Slice(lines, from, to), managed)
  {
    hide Trim, FreeOf;
    if from < to { JoinedIsFree(lines[from..to], managed); } else { JoinedIsFree([], managed); }
  }

  lemma {:induction false} PositionIsFirst(lines: seq<string>, heading: string)
    ensures forall k :: 0 <= k < Or(Position(lines, heading), |lines|) ==> Trim(lines[k]) != heading
    decreases |lines|
  {
    hide Trim;
    if lines != [] { PositionIsFirst(lines[1..], heading); }
  }

  // ---- The whole text ----

  predicate Before(a: Option<nat>, b: Option<nat>) { a.Some? && b.Some? ==> a.value < b.value }

  /** The headings that are there come in order. */
  predicate InOrder(lines: seq<string>) {
    var cap, cal, evo := Position(lines, CAPABILITY_MAP), Position(lines, CALIBRATION_RECORD),
        Position(lines, EVOLUTION_LOG);
    Before(cap, cal) && Before(cal, evo) && Before(cap, evo)
  }

  lemma {:induction false} LinesAreOneLiners(s: string)
    ensures OneLiners(Lines(s))
    decreases |s|
  {
    if s != "" {
      var i := IndexOf(s, '\n');
      if i < |s| { LinesAreOneLiners(s[i + 1..]); }
    }
  }

  /** A text that can be read, edited by hand or not: no line ends in a carriage
      return that is not part of its line break, and the headings are in order. */
  predicate Readable(content: string) { AllLines(Lines(content)) && InOrder(Lines(content)) }

  /** Text with no carriage return needs only its headings in order. */
  lemma {:induction false} NoReturnsNoneLeft(s: string)
    requires '\r' !in s
    ensures AllLines(Lines(s))
    decreases |s|
  {
    if s != "" {
      hide IndexOf;
      var i := IndexOf(s, '\n');
      assert Line(s[..i]);
      if i < |s| {
        NoReturnsNoneLeft(s[i + 1..]);
        assert Lines(s) == [s[..i]] + Lines(s[i + 1..]);
      } else {
        assert s[..i] == s;
      }
    }
  }

  lemma TablesAreClean(f: Floats, lines: seq<string>)
    requires OneLiners(lines) && NotNegative(ParseLines(f, lines).capabilities)
    ensures var d := ParseLines(f, lines);
            && (forall k :: 0 <= k < |d.capabilities| ==> EntryText(d.capabilities[k]))
            && (forall k :: 0 <= k < |d.calibration| ==> RowText(d.calibration[k]))
            && (forall k :: 0 <= k < |d.evolution| ==> RowText(d.evolution[k]))
  {
    hide Position, TableEnd, Join, Entries, Rows, EntryText, RowText;
    var cap, cal, evo := Position(lines, CAPABILITY_MAP), Position(lines, CALIBRATION_RECORD),
        Position(lines, EVOLUTION_LOG);
    var evoEnd := Or(evo, |lines|);
    var capEnd := Or(cal, evoEnd);
    if cap.Some? { EntriesAreText(f, Body(lines, cap.value, capEnd), false, false); }
    if cal.Some? { RowsAreText(Body(lines, cal.value, evoEnd), false); }
    if evo.Some? { RowsAreText(Body(lines, evo.value, |lines|), false); }
  }

  lemma TextsAreFree(f: Floats, lines: seq<string>)
    requires AllLines(lines) && InOrder(lines)
    ensures var d := ParseLines(f, lines);
            && FreeOf(d.header, {CAPABILITY_MAP, CALIBRATION_RECORD, EVOLUTION_LOG})
            && FreeOf(d.middle, {CALIBRATION_RECORD, EVOLUTION_LOG})
            && FreeOf(d.post, {EVOLUTION_LOG}) && FreeOf(d.footer, {})
  {
    hide Position, TableEnd, Join, Entries, Rows, Trim, FreeOf, Slice;
    PositionIsFirst(lines, CAPABILITY_MAP);
    PositionIsFirst(lines, CALIBRATION_RECORD);
    PositionIsFirst(lines, EVOLUTION_LOG);
    var cap, cal, evo := Position(lines, CAPABILITY_MAP), Position(lines, CALIBRATION_RECORD),
        Position(lines, EVOLUTION_LOG);
    var evoEnd := Or(evo, |lines|);
    var capEnd := Or(cal, evoEnd);
    var middleFrom := if cap.Some? then TableEnd(lines, cap.value + 1, capEnd, false) else 0;
    var postFrom := if cal.Some? then TableEnd(lines, cal.value + 1, evoEnd, false) else capEnd;
    var footerFrom := if evo.Some? then TableEnd(lines, evo.value + 1, |lines|, false) else |lines|;
    JoinedIsFree(lines[..Or(cap, 0)], {CAPABILITY_MAP, CALIBRATION_RECORD, EVOLUTION_LOG});
    SliceIsFree(lines, middleFrom, capEnd, {CALIBRATION_RECORD, EVOLUTION_LOG});
    SliceIsFree(lines, postFrom, evoEnd, {EVOLUTION_LOG});
    SliceIsFree(lines, footerFrom, |lines|, {});
  }

  /** Whatever text is there to be read, with no score below zero, parsing it
      gives a document that survives being printed and read again. */
  lemma ParsedIsClean(f: Floats, content: string)
    requires Readable(content) && NotNegative(Parse(f, content).capabilities)
    ensures Clean(Parse(f, content))
  {
    hide ParseLines, EntryText, RowText, FreeOf, Lines, InOrder;
    LinesAreOneLiners(content);
    TablesAreClean(f, Lines(content));
    TextsAreFree(f, Lines(content));
  }
}
