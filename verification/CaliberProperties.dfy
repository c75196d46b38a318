/** What survives when CALIBER.md is printed and parsed again, and what an
    update does to its scores. */
module CaliberProperties {
  import opened Text
  import opened Decimals
  import opened Calibers
  import opened CaliberTexts

  // ---- Documents that survive ----

  predicate CellText(s: string) { Trimmed(s) && '|' !in s && '\n' !in s && !Contains(s, RULE) }

  predicate RowText(s: string) { StartsRow(s) && Trimmed(s) && '\n' !in s && !Contains(s, RULE) }

  predicate EntryText(e: Entry) {
    && CellText(e.domain) && CellText(e.evidence) && CellText(e.calibrated)
    && e.samples < U64 && 0.0 <= e.confidence
  }

  predicate Heading(s: string) { s == CAPABILITY_MAP || s == CALIBRATION_RECORD || s == EVOLUTION_LOG }

  /** Free text whose lines are not the headings in `managed`, and lose no carriage return. */
  predicate FreeOf(text: string, managed: set<string>) {
    var lines := SplitOn(text, '\n');
    AllLines(lines) && forall k :: 0 <= k < |lines| ==> Trim(lines[k]) !in managed
  }

  predicate Clean(doc: Document) {
    && (forall k :: 0 <= k < |doc.capabilities| ==> EntryText(doc.capabilities[k]))
    && (forall k :: 0 <= k < |doc.calibration| ==> RowText(doc.calibration[k]))
    && (forall k :: 0 <= k < |doc.evolution| ==> RowText(doc.evolution[k]))
    && FreeOf(doc.header, {CAPABILITY_MAP, CALIBRATION_RECORD, EVOLUTION_LOG})
    && FreeOf(doc.middle, {CALIBRATION_RECORD, EVOLUTION_LOG})
    && FreeOf(doc.post, {EVOLUTION_LOG})
    && FreeOf(doc.footer, {})
  }

  // ---- One row ----

  function Padded(cells: seq<string>): (r: seq<string>)
    ensures |r| == |cells| && forall k :: 0 <= k < |r| ==> r[k] == " " + cells[k] + " "
  {
    if cells == [] then [] else [" " + cells[0] + " "] + Padded(cells[1..])
  }

  lemma {:induction false} SplitCells(cells: seq<string>)
    requires forall k :: 0 <= k < |cells| ==> '|' !in cells[k]
    ensures SplitOn(Cells(cells), '|') == Padded(cells) + [""]
    decreases |cells|
  {
    hide SplitOn;
    if cells == [] {
      SplitNone("", '|');
    } else {
      var rest := Cells(cells[1..]);
      SplitCells(cells[1..]);
      SplitFirst(" " + cells[0] + " ", '|', rest);
      BarApart(cells[0], rest);
      Reassociate([" " + cells[0] + " "], Padded(cells[1..]), [""]);
    }
  }

  lemma BarApart(cell: string, rest: string)
    ensures " " + cell + " " + ['|'] + rest == " " + cell + " |" + rest
  {
  }

  lemma BarFirst(rest: string)
    ensures "" + ['|'] + rest == "|" + rest
  {
  }

  lemma SplitRow(cells: seq<string>)
    requires forall k :: 0 <= k < |cells| ==> '|' !in cells[k]
    ensures SplitOn("|" + Cells(cells), '|') == [""] + Padded(cells) + [""]
  {
    hide SplitOn, Padded, Cells;
    SplitCells(cells);
    SplitFirst("", '|', Cells(cells));
    BarFirst(Cells(cells));
    Reassociate([""], Padded(cells), [""]);
  }

  function Rewritten(f: Floats, e: Entry): Entry { e.(confidence := Hundredths(f.hundredths(e.confidence))) }

  lemma NumbersAreCells(k: nat, n: nat)
    ensures '|' !in Fixed(k) && '|' !in Decimal(n) && '\n' !in Fixed(k) && '\n' !in Decimal(n)
    ensures '-' !in Fixed(k) && '-' !in Decimal(n) && Trimmed(Fixed(k)) && Trimmed(Decimal(n))
  {
    FixedShape(k);
    var s, t := Fixed(k), Decimal(n);
    assert IsDigit(t[0]) && IsDigit(t[|t| - 1]);
  }

  function CellsOf(f: Floats, e: Entry): seq<string> {
    [e.domain, Fixed(f.hundredths(e.confidence)), e.evidence, Decimal(e.samples), e.calibrated]
  }

  /** A printed entry is parsed back, its score rounded to hundredths. */
  lemma RowRoundTrip(f: Floats, e: Entry)
    requires EntryText(e)
    ensures ParseRow(f, ShowEntry(f, e)) == Some(Rewritten(f, e))
  {
    hide SplitOn, Trim, Fixed, ParseScore, ParseUint, DigitsOf;
    var k := f.hundredths(e.confidence);
    NumbersAreCells(k, e.samples);
    SplitRow(CellsOf(f, e));
    var split := SplitOn(ShowEntry(f, e), '|');
    assert split == [""] + Padded(CellsOf(f, e)) + [""];
    assert split[1] == " " + e.domain + " " && split[2] == " " + Fixed(k) + " " && split[3] == " " + e.evidence + " ";
    assert split[4] == " " + Decimal(e.samples) + " " && split[5] == " " + e.calibrated + " ";
    TrimPadded(e.domain);
    TrimPadded(Fixed(k));
    TrimPadded(e.evidence);
    TrimPadded(Decimal(e.samples));
    TrimPadded(e.calibrated);
    FixedRoundTrip(f, k);
    DigitsOfDigits(Decimal(e.samples));
    DecimalRoundTrip(e.samples, U64);
  }

  lemma {:induction false} CellsHaveNoRule(cells: seq<string>)
    requires forall k :: 0 <= k < |cells| ==> !Contains(cells[k], RULE) && '\n' !in cells[k]
    ensures !Contains(Cells(cells), RULE) && '\n' !in Cells(cells)
    ensures cells != [] ==> Cells(cells) != "" && Cells(cells)[|Cells(cells)| - 1] == '|'
    decreases |cells|
  {
    if cells == [] {
      NoDashNoRule("");
    } else {
      CellsHaveNoRule(cells[1..]);
      NoDashNoRule(" ");
      NoDashNoRule(" |");
      NoRuleAcross(" ", cells[0]);
      NoRuleAfterCell(" " + cells[0]);
      NoRuleAcross(" " + cells[0] + " |", Cells(cells[1..]));
    }
  }

  /** A blank and a bar after a cell make no rule, even after dashes. */
  lemma NoRuleAfterCell(front: string)
    requires !Contains(front, RULE)
    ensures !Contains(front + " |", RULE)
  {
    var s := front + " |";
    forall i | 0 <= i <= |s| ensures !PartAt(s, RULE, i) {
      if i + 3 <= |front| {
        assert !PartAt(front, RULE, i) && s[i..i + 3] == front[i..i + 3];
      } else if i + 3 <= |s| {
        assert s[i..i + 3][2] == s[i + 2] && s[i + 2] != '-' && RULE[2] == '-';
      }
    }
  }

  /** A printed entry is a row. */
  lemma ShownIsRow(f: Floats, e: Entry)
    requires EntryText(e)
    ensures RowText(ShowEntry(f, e))
  {
    hide Fixed, Contains, Cells;
    NumbersAreCells(f.hundredths(e.confidence), e.samples);
    NoDashNoRule(Fixed(f.hundredths(e.confidence)));
    NoDashNoRule(Decimal(e.samples));
    var cells := CellsOf(f, e);
    CellsHaveNoRule(cells);
    NoDashNoRule("|");
    NoRuleAcross("|", Cells(cells));
    assert ShowEntry(f, e) == "|" + Cells(cells);
  }

  // ---- Tables ----

  lemma {:induction false} ShownFromFront(f: Floats, es: seq<Entry>)
    requires es != []
    ensures ShowEntries(f, es) == [ShowEntry(f, es[0])] + ShowEntries(f, es[1..])
    decreases |es|
  {
    hide ShowEntry;
    if |es| > 1 {
      ShownFromFront(f, es[..|es| - 1]);
      assert es[1..][..|es[1..]| - 1] == es[..|es| - 1][1..];
    }
  }

  function RewrittenAll(f: Floats, es: seq<Entry>): (r: seq<Entry>)
    ensures |r| == |es| && forall k :: 0 <= k < |es| ==> r[k] == Rewritten(f, es[k])
  {
    if es == [] then [] else [Rewritten(f, es[0])] + RewrittenAll(f, es[1..])
  }

  /** A blank line ends a table. */
  lemma {:induction false} EntriesOfTable(f: Floats, es: seq<Entry>, rest: seq<string>)
    requires forall k :: 0 <= k < |es| ==> EntryText(es[k])
    ensures Entries(f, ShowEntries(f, es) + [""] + rest, true, true) == RewrittenAll(f, es)
    decreases |es|
  {
    hide ShowEntry, ParseRow, Trim, Contains, RowText, EntryText;
    if es == [] {
      assert ShowEntries(f, es) + [""] + rest == [""] + rest;
      BlankTrims();
    } else {
      ShownFromFront(f, es);
      var row := ShowEntry(f, es[0]);
      var lines := ShowEntries(f, es) + [""] + rest;
      assert lines[0] == row && lines[1..] == ShowEntries(f, es[1..]) + [""] + rest;
      ShownIsRow(f, es[0]);
      RowFacts(row);
      RowRoundTrip(f, es[0]);
      EntriesOfTable(f, es[1..], rest);
    }
  }

  lemma BlankTrims()
    ensures Trim("") == ""
  {
    TrimTrimmed("");
  }

  lemma RowFacts(row: string)
    requires RowText(row)
    ensures Trim(row) == row && row != "" && StartsRow(row) && !Contains(row, RULE) && Line(row)
  {
    TrimTrimmed(row);
  }

  lemma {:induction false} RowsOfTable(rows: seq<string>, rest: seq<string>)
    requires forall k :: 0 <= k < |rows| ==> RowText(rows[k])
    ensures Rows(rows + [""] + rest, true) == rows && Rows(rows, true) == rows
    decreases |rows|
  {
    hide Trim, Contains, RowText;
    if rows == [] {
      BlankTrims();
      assert rows + [""] + rest == [""] + rest;
    } else {
      RowFacts(rows[0]);
      RowsOfTable(rows[1..], rest);
      assert (rows + [""] + rest)[1..] == rows[1..] + [""] + rest;
    }
  }

  /** Rows from `i` to `j`, and no row there: the table ends at `j`. */
  lemma {:induction false} EndOfTable(lines: seq<string>, i: nat, j: nat, end: nat)
    requires i <= j <= end <= |lines|
    requires forall k :: i <= k < j ==> StartsRow(Trim(lines[k]))
    requires j == end || !StartsRow(Trim(lines[j]))
    ensures TableEnd(lines, i, end, true) == j
    decreases j - i
  {
    hide Trim;
    if i < j { EndOfTable(lines, i + 1, j, end); }
  }

  // ---- The printed lines ----

  /** The lines of a printed section after its heading. */
  function Section(head: string, rule: string, rows: seq<string>, tail: seq<string>): seq<string> {
    ["", head, rule] + rows + tail
  }

  /** What is printed between a table and the next heading. */
  function Between(text: string): seq<string> { [""] + if text == "" then [] else SplitOn(text, '\n') + [""] }

  function Below(text: string): seq<string> { if text == "" then [] else [""] + SplitOn(text, '\n') }

  function HeaderLines(text: string): seq<string> { if text == "" then [] else SplitOn(text, '\n') }

  function MapLines(f: Floats, doc: Document): seq<string> {
    Section(ENTRY_HEAD, ENTRY_RULE, ShowEntries(f, doc.capabilities), Between(doc.middle))
  }

  function RecordLines(doc: Document): seq<string> {
    Section(CALIBRATION_HEAD, ROW_RULE, doc.calibration, Between(doc.post))
  }

  function LogLines(doc: Document): seq<string> { Section(EVOLUTION_HEAD, ROW_RULE, doc.evolution, Below(doc.footer)) }

  function Printed(f: Floats, doc: Document): seq<string> {
    HeaderLines(doc.header) + [CAPABILITY_MAP] + MapLines(f, doc) + [CALIBRATION_RECORD] + RecordLines(doc) +
    [EVOLUTION_LOG] + LogLines(doc)
  }

  lemma FlatText(text: string)
    ensures Flat(FreeText(text)) + [""] == Between(text) && Flat(FreeText(text)) == Below(text)
  {
    hide SplitOn;
    if text == "" {
    } else {
      SplitNone("", '\n');
      assert FreeText(text)[1..] == [text] && [text][1..] == [];
      assert Flat([text]) == SplitOn(text, '\n') + Flat([]);
    }
  }

  lemma FlatOne(s: string)
    ensures Flat([s]) == SplitOn(s, '\n')
  {
    hide SplitOn;
    assert [s][1..] == [];
  }

  lemma ShownAreLines(f: Floats, es: seq<Entry>)
    requires forall k :: 0 <= k < |es| ==> EntryText(es[k])
    ensures forall k :: 0 <= k < |es| ==> RowText(ShowEntries(f, es)[k])
  {
    hide ShowEntry, RowText, EntryText;
    if es != [] {
      ShownAreLines(f, es[..|es| - 1]);
      ShownIsRow(f, es[|es| - 1]);
    }
  }

  lemma RowsAreLines(rows: seq<string>)
    requires forall k :: 0 <= k < |rows| ==> RowText(rows[k])
    ensures Flat(rows) == rows && AllLines(rows)
  {
    forall k | 0 <= k < |rows| ensures Line(rows[k]) { RowFacts(rows[k]); }
    FlatOfLines(rows);
  }

  const MAP_FRONT := [CAPABILITY_MAP, "", ENTRY_HEAD, ENTRY_RULE]
  const RECORD_FRONT := ["", CALIBRATION_RECORD, "", CALIBRATION_HEAD, ROW_RULE]
  const LOG_FRONT := ["", EVOLUTION_LOG, "", EVOLUTION_HEAD, ROW_RULE]

  lemma HeadsAreRows()
    ensures RowText(ENTRY_HEAD) && RowText(CALIBRATION_HEAD) && RowText(EVOLUTION_HEAD)
  {
    hide Cells, RowText;
    WordsAreRow(["Domain", "Confidence", "Evidence", "Sample", "Last Calibrated"]);
    WordsAreRow(["Date", "Prediction", "Actual", "Error"]);
    WordsAreRow(["Date", "Change", "Trigger", "Effect"]);
  }

  lemma WordsAreRow(cells: seq<string>)
    requires cells != [] && forall k :: 0 <= k < |cells| ==> '-' !in cells[k] && '\n' !in cells[k]
    ensures RowText("|" + Cells(cells))
  {
    hide Cells, Contains;
    forall k | 0 <= k < |cells| ensures !Contains(cells[k], RULE) { NoDashNoRule(cells[k]); }
    CellsHaveNoRule(cells);
    NoDashNoRule("|");
    NoRuleAcross("|", Cells(cells));
  }

  lemma RulesAreLines()
    ensures '\n' !in ENTRY_RULE && '\n' !in ROW_RULE
  {
  }

  lemma HeadingsAreLines()
    ensures '\n' !in CAPABILITY_MAP && '\n' !in CALIBRATION_RECORD && '\n' !in EVOLUTION_LOG
  {
  }

  lemma FlatFive(a: string, b: string, c: string, d: string, e: string)
    requires '\n' !in a && '\n' !in b && '\n' !in c && '\n' !in d && '\n' !in e
    ensures Flat([a, b, c, d]) == [a, b, c, d] && Flat([a, b, c, d, e]) == [a, b, c, d, e]
  {
    hide Flat;
    FlatOfLines([a, b, c, d]);
    FlatOfLines([a, b, c, d, e]);
  }

  lemma FrontsAreLines()
    ensures Flat(MAP_FRONT) == MAP_FRONT && Flat(RECORD_FRONT) == RECORD_FRONT && Flat(LOG_FRONT) == LOG_FRONT
  {
    hide Flat, SplitOn, Contains, Cells;
    HeadsAreRows();
    RulesAreLines();
    HeadingsAreLines();
    FlatFive(CAPABILITY_MAP, "", ENTRY_HEAD, ENTRY_RULE, "");
    FlatFive("", CALIBRATION_RECORD, "", CALIBRATION_HEAD, ROW_RULE);
    FlatFive("", EVOLUTION_LOG, "", EVOLUTION_HEAD, ROW_RULE);
  }

  /** The pieces that are joined, line by line. */
  lemma SectionsAreLines(f: Floats, doc: Document)
    requires Clean(doc)
    ensures Flat(Sections(f, doc)) == Printed(f, doc) + [""]
  {
    hide Flat, SplitOn, ShowEntries, RowText, EntryText, FreeOf;
    var header := if doc.header == "" then [] else [doc.header];
    var rows := ShowEntries(f, doc.capabilities);
    FrontsAreLines();
    ShownAreLines(f, doc.capabilities);
    RowsAreLines(rows);
    RowsAreLines(doc.calibration);
    RowsAreLines(doc.evolution);
    FlatText(doc.middle);
    FlatText(doc.post);
    FlatText(doc.footer);
    assert Flat(header) == HeaderLines(doc.header) by {
      if doc.header != "" { FlatOne(doc.header); } else { FlatNothing(); }
    }
    FlatOne("");
    SplitNone("", '\n');
    var a := header + MAP_FRONT;
    FlatConcat(header, MAP_FRONT);
    FlatConcat(a, rows);
    FlatConcat(a + rows, FreeText(doc.middle));
    var b := a + rows + FreeText(doc.middle);
    FlatConcat(b, RECORD_FRONT);
    FlatConcat(b + RECORD_FRONT, doc.calibration);
    FlatConcat(b + RECORD_FRONT + doc.calibration, FreeText(doc.post));
    var c := b + RECORD_FRONT + doc.calibration + FreeText(doc.post);
    FlatConcat(c, LOG_FRONT);
    FlatConcat(c + LOG_FRONT, doc.evolution);
    FlatConcat(c + LOG_FRONT + doc.evolution, FreeText(doc.footer));
    var d := c + LOG_FRONT + doc.evolution + FreeText(doc.footer);
    FlatConcat(d, [""]);
    assert Sections(f, doc) == d + [""];
    Layout(HeaderLines(doc.header), rows, Flat(FreeText(doc.middle)), doc.calibration, Flat(FreeText(doc.post)),
           doc.evolution, Flat(FreeText(doc.footer)));
  }

  lemma FlatNothing()
    ensures Flat([]) == []
  {
  }

  lemma Layout(h: seq<string>, rows: seq<string>, m: seq<string>, cal: seq<string>, p: seq<string>, evo: seq<string>,
      t: seq<string>)
    ensures h + MAP_FRONT + rows + m + RECORD_FRONT + cal + p + LOG_FRONT + evo + t ==
            h + [CAPABILITY_MAP] + Section(ENTRY_HEAD, ENTRY_RULE, rows, m + [""]) +
            [CALIBRATION_RECORD] + Section(CALIBRATION_HEAD, ROW_RULE, cal, p + [""]) +
            [EVOLUTION_LOG] + Section(EVOLUTION_HEAD, ROW_RULE, evo, t)
  {
  }

  // ---- Finding the sections again ----

  predicate Avoids(lines: seq<string>, heading: string) { forall k :: 0 <= k < |lines| ==> Trim(lines[k]) != heading }

  lemma {:induction false} PositionAfter(front: seq<string>, heading: string, rest: seq<string>)
    requires Avoids(front, heading) && Trim(heading) == heading
    ensures Position(front + [heading] + rest, heading) == Some(|front|)
    decreases |front|
  {
    hide Trim;
    var lines := front + [heading] + rest;
    if front != [] {
      assert lines[0] == front[0] && lines[1..] == front[1..] + [heading] + rest;
      PositionAfter(front[1..], heading, rest);
    }
  }

  lemma AvoidsConcat(a: seq<string>, b: seq<string>, heading: string)
    requires Avoids(a, heading) && Avoids(b, heading)
    ensures Avoids(a + b, heading)
  {
    hide Trim;
  }

  lemma HeadingsTrim()
    ensures Trim(CAPABILITY_MAP) == CAPABILITY_MAP && Trim(CALIBRATION_RECORD) == CALIBRATION_RECORD
    ensures Trim(EVOLUTION_LOG) == EVOLUTION_LOG
  {
    hide Trim;
    TrimTrimmed(CAPABILITY_MAP);
    TrimTrimmed(CALIBRATION_RECORD);
    TrimTrimmed(EVOLUTION_LOG);
  }

  predicate IsRule(rule: string) { rule == ENTRY_RULE || rule == ROW_RULE }

  /** What the parser sees of the two lines above a table's rows. */
  lemma TableFront(head: string, rule: string)
    requires RowText(head) && IsRule(rule)
    ensures Trim(head) == head && StartsRow(head) && !Contains(head, RULE)
    ensures Trim(rule) == rule && StartsRow(rule) && Contains(rule, RULE) && rule != ""
  {
    hide Trim;
    TrimTrimmed(head);
    TrimTrimmed(rule);
    assert rule[1] == '-' && rule[2] == '-' && rule[3] == '-';
    assert rule[1..4] == ['-', '-', '-'] == RULE;
    assert PartAt(rule, RULE, 1);
  }

  lemma SectionAvoids(head: string, rule: string, rows: seq<string>, tail: seq<string>, heading: string)
    requires RowText(head) && IsRule(rule) && Heading(heading)
    requires (forall k :: 0 <= k < |rows| ==> RowText(rows[k])) && Avoids(tail, heading)
    ensures Avoids(Section(head, rule, rows, tail), heading)
  {
    hide Trim, Contains, RowText, IsRule;
    BlankTrims();
    TableFront(head, rule);
    forall k | 0 <= k < |rows| ensures Trim(rows[k]) != heading { RowFacts(rows[k]); }
    assert Avoids(["", head, rule], heading);
    AvoidsConcat(["", head, rule], rows, heading);
    AvoidsConcat(["", head, rule] + rows, tail, heading);
  }

  lemma FreeAvoids(text: string, managed: set<string>, heading: string)
    requires FreeOf(text, managed) && heading in managed && Heading(heading)
    ensures Avoids(SplitOn(text, '\n'), heading) && Avoids(Between(text), heading) && Avoids(HeaderLines(text), heading)
  {
    hide Trim, SplitOn;
    BlankTrims();
    var lines := SplitOn(text, '\n');
    assert Avoids([""], heading);
    if text != "" {
      AvoidsConcat(lines, [""], heading);
      AvoidsConcat([""], lines + [""], heading);
    }
  }

  lemma SectionSlices(
      lines: seq<string>, front: seq<string>, heading: string, head: string, rule: string,
      rows: seq<string>, tail: seq<string>, back: seq<string>)
    requires lines == front + [heading] + Section(head, rule, rows, tail) + back
    ensures var start := |front| + 1;
            var end := start + |Section(head, rule, rows, tail)|;
            && end <= |lines| && Body(lines, |front|, end) == Section(head, rule, rows, tail)
            && TableAt(lines, start, end, head, rule, rows, tail)
  {
    var before := front + [heading];
    var section := Section(head, rule, rows, tail);
    assert forall k :: 0 <= k < |section| ==> (before + section + back)[|before| + k] == section[k];
    assert lines[|before|..|before| + |section|] == section;
    assert section[3 + |rows|..] == tail;
  }

  /** A table at `start`, and `tail` after it, up to `end`. */
  predicate TableAt(
      lines: seq<string>, start: nat, end: nat, head: string, rule: string, rows: seq<string>, tail: seq<string>)
  {
    && end == start + 3 + |rows| + |tail| <= |lines|
    && lines[start] == "" && lines[start + 1] == head && lines[start + 2] == rule
    && lines[start + 3..start + 3 + |rows|] == rows
    && lines[end - |tail|..end] == tail
    && (tail != [] ==> lines[start + 3 + |rows|] == tail[0])
  }

  /** The parser finds the end of a printed table. */
  lemma RowsAt(
      lines: seq<string>, start: nat, end: nat, head: string, rule: string, rows: seq<string>, tail: seq<string>)
    requires RowText(head) && IsRule(rule)
    requires (forall k :: 0 <= k < |rows| ==> RowText(rows[k])) && (tail != [] ==> tail[0] == "")
    requires TableAt(lines, start, end, head, rule, rows, tail)
    ensures |tail| <= end <= |lines| && TableEnd(lines, start, end, false) == end - |tail|
    ensures lines[end - |tail|..end] == tail
  {
    hide Trim, Contains, RowText, TableEnd, StartsRow, IsRule;
    TableFront(head, rule);
    RowsStart(rows);
    assert forall k :: start + 3 <= k < start + 3 + |rows| ==> lines[k] == rows[k - start - 3];
    SectionEnds(lines, start, |rows|, end);
  }

  lemma RowsStart(rows: seq<string>)
    requires forall k :: 0 <= k < |rows| ==> RowText(rows[k])
    ensures forall k :: 0 <= k < |rows| ==> StartsRow(Trim(rows[k]))
  {
    hide Trim, RowText, StartsRow;
    forall k | 0 <= k < |rows| ensures StartsRow(Trim(rows[k])) { RowFacts(rows[k]); }
  }

  lemma SectionEnds(lines: seq<string>, start: nat, n: nat, end: nat)
    requires start + 3 + n <= end <= |lines| && lines[start] == ""
    requires StartsRow(Trim(lines[start + 1])) && StartsRow(Trim(lines[start + 2]))
    requires forall k :: start + 3 <= k < start + 3 + n ==> StartsRow(Trim(lines[k]))
    requires start + 3 + n == end || lines[start + 3 + n] == ""
    ensures TableEnd(lines, start, end, false) == start + 3 + n
  {
    hide Trim, TableEnd;
    BlankTrims();
    EndOfTable(lines, start + 1, start + 3 + n, end);
    FirstIsNoRow(lines, start, end);
  }

  lemma FirstIsNoRow(lines: seq<string>, i: nat, end: nat)
    requires i < end <= |lines| && !StartsRow(Trim(lines[i])) && i + 1 < end && StartsRow(Trim(lines[i + 1]))
    ensures TableEnd(lines, i, end, false) == TableEnd(lines, i + 1, end, true)
  {
    hide Trim;
    assert TableEnd(lines, i, end, false) == TableEnd(lines, i + 1, end, false);
    assert TableEnd(lines, i + 1, end, false) == TableEnd(lines, i + 2, end, true);
    assert TableEnd(lines, i + 1, end, true) == TableEnd(lines, i + 2, end, true);
  }

  /** The tables of a section. */
  lemma SectionTables(f: Floats, head: string, rule: string, rows: seq<string>, tail: seq<string>)
    requires RowText(head) && IsRule(rule)
    ensures Entries(f, Section(head, rule, rows, tail), false, false) == Entries(f, rows + tail, true, true)
    ensures Rows(Section(head, rule, rows, tail), false) == Rows(rows + tail, true)
  {
    hide Trim, Contains, RowText, ParseRow, IsRule;
    BlankTrims();
    TableFront(head, rule);
    var section := Section(head, rule, rows, tail);
    var one, two, three := section[1..], section[1..][1..], section[1..][1..][1..];
    assert section[0] == "" && one[0] == head && two[0] == rule && three == rows + tail;
    assert Entries(f, section, false, false) == Entries(f, one, false, false);
    assert Entries(f, one, false, false) == Entries(f, two, true, false);
    assert Rows(section, false) == Rows(one, false) && Rows(one, false) == Rows(two, false);
  }

  // ---- The round trip ----

  function Framed(text: string): string { if text == "" then "" else "\n" + text + "\n" }

  /** What comes back of a printed document. */
  function Returned(f: Floats, doc: Document): Document {
    doc.(capabilities := RewrittenAll(f, doc.capabilities), middle := Framed(doc.middle), post := Framed(doc.post),
         footer := if doc.footer == "" then "" else "\n" + doc.footer)
  }

  lemma JoinBetween(text: string)
    ensures Join(Between(text)) == Framed(text) && Between(text) != [] && Between(text)[0] == ""
    ensures text != "" ==> Join(Below(text)) == "\n" + text && Below(text) != [] && Below(text)[0] == ""
    ensures Join(HeaderLines(text)) == text
  {
    hide Join, SplitOn;
    JoinOne("");
    var lines := SplitOn(text, '\n');
    JoinSplit(text);
    JoinFirst("", lines + [""]);
    JoinFirst("", lines);
    JoinConcat(lines, [""]);
    if text == "" {
      assert [""] + [] == [""];
      JoinNothing();
    } else {
      assert "" + "\n" + (text + "\n" + "") == "\n" + text + "\n";
    }
  }

  lemma JoinNothing()
    ensures Join([]) == ""
  {
  }

  lemma PrintedAreLines(f: Floats, doc: Document)
    requires Clean(doc)
    ensures AllLines(Printed(f, doc)) && Printed(f, doc) != []
  {
    hide Flat, SplitOn, RowText, EntryText, Contains, Cells, Trim;
    ShownAreLines(f, doc.capabilities);
    RowsAreLines(ShowEntries(f, doc.capabilities));
    RowsAreLines(doc.calibration);
    RowsAreLines(doc.evolution);
    HeadsAreRows();
    RowFacts(ENTRY_HEAD);
    RowFacts(CALIBRATION_HEAD);
    RowFacts(EVOLUTION_HEAD);
    RulesAreLines();
    HeadingsAreLines();
    TextsAreLines(doc);
    LinesConcat(["", ENTRY_HEAD, ENTRY_RULE], ShowEntries(f, doc.capabilities), Between(doc.middle));
    LinesConcat(["", CALIBRATION_HEAD, ROW_RULE], doc.calibration, Between(doc.post));
    LinesConcat(["", EVOLUTION_HEAD, ROW_RULE], doc.evolution, Below(doc.footer));
    var a := HeaderLines(doc.header) + [CAPABILITY_MAP] + MapLines(f, doc);
    LinesConcat(HeaderLines(doc.header), [CAPABILITY_MAP], MapLines(f, doc));
    LinesConcat(a, [CALIBRATION_RECORD], RecordLines(doc));
    LinesConcat(a + [CALIBRATION_RECORD] + RecordLines(doc), [EVOLUTION_LOG], LogLines(doc));
  }

  lemma LinesConcat(a: seq<string>, b: seq<string>, c: seq<string>)
    requires AllLines(a) && AllLines(b) && AllLines(c)
    ensures AllLines(a + b + c)
  {
  }

  lemma TextsAreLines(doc: Document)
    requires Clean(doc)
    ensures AllLines(HeaderLines(doc.header)) && AllLines(Between(doc.middle)) && AllLines(Between(doc.post))
    ensures AllLines(Below(doc.footer))
  {
    hide SplitOn, Trim, RowText, EntryText;
  }

  /** The printed text, read line by line. */
  lemma PrintedIsRead(f: Floats, doc: Document)
    requires Clean(doc)
    ensures Lines(Render(f, doc)) == Printed(f, doc)
  {
    hide Flat, Join, Lines, Printed, Sections, Clean;
    SectionsAreLines(f, doc);
    SectionsNotEmpty(f, doc);
    JoinFlat(Sections(f, doc));
    PrintedAreLines(f, doc);
    LinesOfJoin(Printed(f, doc));
    JoinConcat(Printed(f, doc), [""]);
    JoinOne("");
    assert Join(Printed(f, doc)) + "\n" + "" == Join(Printed(f, doc)) + "\n";
  }

  lemma SectionsNotEmpty(f: Floats, doc: Document)
    ensures Sections(f, doc) != []
  {
  }

  /** Where the three headings are printed. */
  lemma HeadingsFound(f: Floats, doc: Document)
    requires Clean(doc)
    ensures var lines, h := Printed(f, doc), |HeaderLines(doc.header)|;
            && Position(lines, CAPABILITY_MAP) == Some(h)
            && Position(lines, CALIBRATION_RECORD) == Some(h + 1 + |MapLines(f, doc)|)
            && Position(lines, EVOLUTION_LOG) == Some(h + 2 + |MapLines(f, doc)| + |RecordLines(doc)|)
  {
    hide SplitOn, Trim, RowText, EntryText, Contains, Cells, Section, HeaderLines, Between, FreeOf;
    var header, map1, record, last := HeaderLines(doc.header), MapLines(f, doc), RecordLines(doc), LogLines(doc);
    HeadingsTrim();
    HeadsAreRows();
    ShownAreLines(f, doc.capabilities);
    FreeAvoids(doc.header, {CAPABILITY_MAP, CALIBRATION_RECORD, EVOLUTION_LOG}, CAPABILITY_MAP);
    FreeAvoids(doc.header, {CAPABILITY_MAP, CALIBRATION_RECORD, EVOLUTION_LOG}, CALIBRATION_RECORD);
    FreeAvoids(doc.header, {CAPABILITY_MAP, CALIBRATION_RECORD, EVOLUTION_LOG}, EVOLUTION_LOG);
    FreeAvoids(doc.middle, {CALIBRATION_RECORD, EVOLUTION_LOG}, CALIBRATION_RECORD);
    FreeAvoids(doc.middle, {CALIBRATION_RECORD, EVOLUTION_LOG}, EVOLUTION_LOG);
    FreeAvoids(doc.post, {EVOLUTION_LOG}, EVOLUTION_LOG);
    SectionAvoids(ENTRY_HEAD, ENTRY_RULE, ShowEntries(f, doc.capabilities), Between(doc.middle), CALIBRATION_RECORD);
    SectionAvoids(ENTRY_HEAD, ENTRY_RULE, ShowEntries(f, doc.capabilities), Between(doc.middle), EVOLUTION_LOG);
    SectionAvoids(CALIBRATION_HEAD, ROW_RULE, doc.calibration, Between(doc.post), EVOLUTION_LOG);
    FindsThree(header, map1, record, last);
  }

  lemma FindsThree(header: seq<string>, map1: seq<string>, record: seq<string>, last: seq<string>)
    requires Avoids(header, CAPABILITY_MAP) && Avoids(header, CALIBRATION_RECORD) && Avoids(header, EVOLUTION_LOG)
    requires Avoids(map1, CALIBRATION_RECORD) && Avoids(map1, EVOLUTION_LOG) && Avoids(record, EVOLUTION_LOG)
    ensures var lines := header + [CAPABILITY_MAP] + map1 + [CALIBRATION_RECORD] + record + [EVOLUTION_LOG] + last;
            && Position(lines, CAPABILITY_MAP) == Some(|header|)
            && Position(lines, CALIBRATION_RECORD) == Some(|header| + 1 + |map1|)
            && Position(lines, EVOLUTION_LOG) == Some(|header| + 2 + |map1| + |record|)
  {
    hide Trim, Avoids, Position;
    HeadingsTrim();
    var lines := header + [CAPABILITY_MAP] + map1 + [CALIBRATION_RECORD] + record + [EVOLUTION_LOG] + last;
    HeadingsApart();
    PositionAfter(header, CAPABILITY_MAP, map1 + [CALIBRATION_RECORD] + record + [EVOLUTION_LOG] + last);
    assert lines == header + [CAPABILITY_MAP] + (map1 + [CALIBRATION_RECORD] + record + [EVOLUTION_LOG] + last);
    var one := header + [CAPABILITY_MAP] + map1;
    AvoidsConcat(header, [CAPABILITY_MAP], CALIBRATION_RECORD);
    AvoidsConcat(header + [CAPABILITY_MAP], map1, CALIBRATION_RECORD);
    PositionAfter(one, CALIBRATION_RECORD, record + [EVOLUTION_LOG] + last);
    assert lines == one + [CALIBRATION_RECORD] + (record + [EVOLUTION_LOG] + last);
    AvoidsConcat(header, [CAPABILITY_MAP], EVOLUTION_LOG);
    AvoidsConcat(header + [CAPABILITY_MAP], map1, EVOLUTION_LOG);
    AvoidsConcat(one, [CALIBRATION_RECORD], EVOLUTION_LOG);
    AvoidsConcat(one + [CALIBRATION_RECORD], record, EVOLUTION_LOG);
    PositionAfter(one + [CALIBRATION_RECORD] + record, EVOLUTION_LOG, last);
  }

  lemma HeadingsApart()
    ensures Avoids([CAPABILITY_MAP], CALIBRATION_RECORD) && Avoids([CAPABILITY_MAP], EVOLUTION_LOG)
    ensures Avoids([CALIBRATION_RECORD], EVOLUTION_LOG)
  {
    hide Trim;
    HeadingsTrim();
    assert CAPABILITY_MAP[4] != CALIBRATION_RECORD[4] || CAPABILITY_MAP[5] != CALIBRATION_RECORD[5];
    assert |CAPABILITY_MAP| != |CALIBRATION_RECORD| && |CAPABILITY_MAP| != |EVOLUTION_LOG|;
    assert |CALIBRATION_RECORD| != |EVOLUTION_LOG|;
  }

  lemma RowsShown(f: Floats, doc: Document)
    requires Clean(doc)
    ensures forall k :: 0 <= k < |ShowEntries(f, doc.capabilities)| ==> RowText(ShowEntries(f, doc.capabilities)[k])
    ensures forall k :: 0 <= k < |doc.calibration| ==> RowText(doc.calibration[k])
    ensures forall k :: 0 <= k < |doc.evolution| ==> RowText(doc.evolution[k])
    ensures forall k :: 0 <= k < |doc.capabilities| ==> EntryText(doc.capabilities[k])
  {
    hide RowText, EntryText, FreeOf;
    ShownAreLines(f, doc.capabilities);
  }

  function AfterBlank(text: string): seq<string> { if text == "" then [] else SplitOn(text, '\n') + [""] }

  lemma BetweenSplits(rows: seq<string>, text: string)
    ensures rows + Between(text) == rows + [""] + AfterBlank(text)
  {
    hide SplitOn;
  }

  /** The text after a table is parsed framed by blank lines. */
  lemma TextReturns(lines: seq<string>, from: nat, to: nat, text: string)
    requires from <= to <= |lines| && lines[from..to] == Between(text)
    ensures Slice(lines, from, to) == Framed(text)
  {
    hide SplitOn, Between, Join, Framed;
    JoinBetween(text);
  }

  function BeforeRecord(f: Floats, doc: Document): seq<string> {
    HeaderLines(doc.header) + [CAPABILITY_MAP] + MapLines(f, doc)
  }

  function AfterMap(doc: Document): seq<string> {
    [CALIBRATION_RECORD] + RecordLines(doc) + [EVOLUTION_LOG] + LogLines(doc)
  }

  lemma PrintedAround(f: Floats, doc: Document)
    ensures Printed(f, doc) == HeaderLines(doc.header) + [CAPABILITY_MAP] + MapLines(f, doc) + AfterMap(doc)
    ensures Printed(f, doc) ==
            BeforeRecord(f, doc) + [CALIBRATION_RECORD] + RecordLines(doc) + ([EVOLUTION_LOG] + LogLines(doc))
    ensures Join(Printed(f, doc)[..|HeaderLines(doc.header)|]) == doc.header
  {
    hide HeaderLines, MapLines, RecordLines, LogLines, Join;
    JoinBetween(doc.header);
    assert Printed(f, doc)[..|HeaderLines(doc.header)|] == HeaderLines(doc.header);
  }

  /** The capability map as parsed. */
  lemma MapReturns(f: Floats, doc: Document)
    requires Clean(doc)
    ensures var lines, h := Printed(f, doc), |HeaderLines(doc.header)|;
            var end := h + 1 + |MapLines(f, doc)|;
            end <= |lines| && Entries(f, Body(lines, h, end), false, false) == RewrittenAll(f, doc.capabilities)
  {
    RowsShown(f, doc);
    PrintedAround(f, doc);
    HeadsAreRows();
    var rows := ShowEntries(f, doc.capabilities);
    hide RowText, EntryText, Section, Between, Entries, Clean, Body, Cells, HeaderLines, AfterMap, Printed, IsRule,
         TableAt;
    SectionSlices(Printed(f, doc), HeaderLines(doc.header), CAPABILITY_MAP, ENTRY_HEAD, ENTRY_RULE, rows,
                  Between(doc.middle), AfterMap(doc));
    RulesAreRules();
    SectionTables(f, ENTRY_HEAD, ENTRY_RULE, rows, Between(doc.middle));
    BetweenSplits(rows, doc.middle);
    EntriesOfTable(f, doc.capabilities, AfterBlank(doc.middle));
  }

  lemma RulesAreRules()
    ensures IsRule(ENTRY_RULE) && IsRule(ROW_RULE)
  {
  }

  lemma MiddleAt(f: Floats, doc: Document)
    ensures var start := |HeaderLines(doc.header)| + 1;
            TableAt(Printed(f, doc), start, start + |MapLines(f, doc)|, ENTRY_HEAD, ENTRY_RULE,
                    ShowEntries(f, doc.capabilities), Between(doc.middle))
  {
    PrintedAround(f, doc);
    hide Section, Between, Body, HeaderLines, AfterMap, Printed, TableAt;
    SectionSlices(Printed(f, doc), HeaderLines(doc.header), CAPABILITY_MAP, ENTRY_HEAD, ENTRY_RULE,
                  ShowEntries(f, doc.capabilities), Between(doc.middle), AfterMap(doc));
  }

  lemma MiddleFound(f: Floats, doc: Document)
    requires Clean(doc)
    ensures var lines, start := Printed(f, doc), |HeaderLines(doc.header)| + 1;
            var end := start + |MapLines(f, doc)|;
            && |Between(doc.middle)| <= end <= |lines|
            && TableEnd(lines, start, end, false) == end - |Between(doc.middle)|
            && lines[end - |Between(doc.middle)|..end] == Between(doc.middle)
  {
    hide RowText, EntryText, Between, Clean, TableEnd, HeaderLines, MapLines, Printed, IsRule, TableAt;
    MiddleAt(f, doc);
    RowsShown(f, doc);
    HeadsAreRows();
    RulesAreRules();
    JoinBetween(doc.middle);
    var start := |HeaderLines(doc.header)| + 1;
    RowsAt(Printed(f, doc), start, start + |MapLines(f, doc)|, ENTRY_HEAD, ENTRY_RULE,
           ShowEntries(f, doc.capabilities), Between(doc.middle));
  }

  /** The text after the capability map as parsed. */
  lemma MiddleReturns(f: Floats, doc: Document)
    requires Clean(doc)
    ensures var lines, h := Printed(f, doc), |HeaderLines(doc.header)|;
            var end := h + 1 + |MapLines(f, doc)|;
            end <= |lines| && Slice(lines, TableEnd(lines, h + 1, end, false), end) == Framed(doc.middle)
  {
    hide Between, Clean, TableEnd, Slice, Framed, HeaderLines, MapLines, Printed;
    MiddleFound(f, doc);
    var lines, start := Printed(f, doc), |HeaderLines(doc.header)| + 1;
    var end := start + |MapLines(f, doc)|;
    TextReturns(lines, TableEnd(lines, start, end, false), end, doc.middle);
  }

  /** The calibration record as parsed. */
  lemma RecordReturns(f: Floats, doc: Document)
    requires Clean(doc)
    ensures var lines, h := Printed(f, doc), |BeforeRecord(f, doc)|;
            var end := h + 1 + |RecordLines(doc)|;
            end <= |lines| && Rows(Body(lines, h, end), false) == doc.calibration
  {
    RowsShown(f, doc);
    PrintedAround(f, doc);
    HeadsAreRows();
    hide RowText, EntryText, Section, Between, Rows, Clean, Body, Cells, BeforeRecord, LogLines, Printed, IsRule,
         TableAt;
    SectionSlices(Printed(f, doc), BeforeRecord(f, doc), CALIBRATION_RECORD, CALIBRATION_HEAD, ROW_RULE,
                  doc.calibration, Between(doc.post), [EVOLUTION_LOG] + LogLines(doc));
    RulesAreRules();
    SectionTables(f, CALIBRATION_HEAD, ROW_RULE, doc.calibration, Between(doc.post));
    BetweenSplits(doc.calibration, doc.post);
    RowsOfTable(doc.calibration, AfterBlank(doc.post));
  }

  lemma PostAt(f: Floats, doc: Document)
    ensures var start := |BeforeRecord(f, doc)| + 1;
            TableAt(Printed(f, doc), start, start + |RecordLines(doc)|, CALIBRATION_HEAD, ROW_RULE,
                    doc.calibration, Between(doc.post))
  {
    PrintedAround(f, doc);
    hide Section, Between, Body, BeforeRecord, LogLines, Printed, TableAt;
    SectionSlices(Printed(f, doc), BeforeRecord(f, doc), CALIBRATION_RECORD, CALIBRATION_HEAD, ROW_RULE,
                  doc.calibration, Between(doc.post), [EVOLUTION_LOG] + LogLines(doc));
  }

  lemma PostFound(f: Floats, doc: Document)
    requires Clean(doc)
    ensures var lines, start := Printed(f, doc), |BeforeRecord(f, doc)| + 1;
            var end := start + |RecordLines(doc)|;
            && |Between(doc.post)| <= end <= |lines| && TableEnd(lines, start, end, false) == end - |Between(doc.post)|
            && lines[end - |Between(doc.post)|..end] == Between(doc.post)
  {
    hide RowText, EntryText, Between, Clean, TableEnd, BeforeRecord, RecordLines, Printed, IsRule, TableAt;
    PostAt(f, doc);
    RowsShown(f, doc);
    HeadsAreRows();
    RulesAreRules();
    JoinBetween(doc.post);
    var start := |BeforeRecord(f, doc)| + 1;
    RowsAt(Printed(f, doc), start, start + |RecordLines(doc)|, CALIBRATION_HEAD, ROW_RULE, doc.calibration,
        Between(doc.post));
  }

  /** The text after the calibration record as parsed. */
  lemma PostReturns(f: Floats, doc: Document)
    requires Clean(doc)
    ensures var lines, h := Printed(f, doc), |BeforeRecord(f, doc)|;
            var end := h + 1 + |RecordLines(doc)|;
            end <= |lines| && Slice(lines, TableEnd(lines, h + 1, end, false), end) == Framed(doc.post)
  {
    hide Between, Clean, TableEnd, Slice, Framed, BeforeRecord, RecordLines, Printed;
    PostFound(f, doc);
    var lines, start := Printed(f, doc), |BeforeRecord(f, doc)| + 1;
    var end := start + |RecordLines(doc)|;
    TextReturns(lines, TableEnd(lines, start, end, false), end, doc.post);
  }

  /** The evolution log, and the text after it, as parsed. */
  lemma LogReturns(f: Floats, doc: Document)
    requires Clean(doc)
    ensures var lines := Printed(f, doc);
            var h := |HeaderLines(doc.header)| + 2 + |MapLines(f, doc)| + |RecordLines(doc)|;
            && h + 1 + |LogLines(doc)| == |lines|
            && Rows(Body(lines, h, |lines|), false) == doc.evolution
            && Slice(lines, TableEnd(lines, h + 1, |lines|, false), |lines|) == Returned(f, doc).footer
  {
    hide Trim, Contains, RowText, EntryText, SplitOn, Section, Join, Rows, Clean, Body, TableEnd, FreeOf, Cells,
         TableAt;
    RowsShown(f, doc);
    HeadsAreRows();
    var lines, rows, tail := Printed(f, doc), doc.evolution, Below(doc.footer);
    var front := HeaderLines(doc.header) + [CAPABILITY_MAP] + MapLines(f, doc) + [CALIBRATION_RECORD]
        + RecordLines(doc);
    assert lines == front + [EVOLUTION_LOG] + LogLines(doc) + [];
    JoinBetween(doc.footer);
    SectionSlices(lines, front, EVOLUTION_LOG, EVOLUTION_HEAD, ROW_RULE, rows, tail, []);
    RowsAt(lines, |front| + 1, |lines|, EVOLUTION_HEAD, ROW_RULE, rows, tail);
    SectionTables(f, EVOLUTION_HEAD, ROW_RULE, rows, tail);
    RowsOfTable(rows, []);
    if doc.footer != "" {
      RowsOfTable(rows, SplitOn(doc.footer, '\n'));
      assert rows + tail == rows + [""] + SplitOn(doc.footer, '\n');
    } else {
      assert rows + tail == rows;
    }
  }

  /** A printed document is parsed back: the same header, entries (scores rounded
      to hundredths), calibration rows and evolution rows, and the same free
      text but for a blank line on each side of it. */
  lemma RoundTrip(f: Floats, doc: Document)
    requires Clean(doc)
    ensures Parse(f, Render(f, doc)) == Returned(f, doc)
  {
    hide Trim, Contains, RowText, EntryText, SplitOn, Section, Join, Rows, Entries, Clean, Body, TableEnd, FreeOf,
         Cells, Printed, MapLines, RecordLines, LogLines, HeaderLines, Render, Position, Lines, Slice;
    PrintedIsRead(f, doc);
    HeadingsFound(f, doc);
    PrintedAround(f, doc);
    MapReturns(f, doc);
    MiddleReturns(f, doc);
    RecordReturns(f, doc);
    PostReturns(f, doc);
    LogReturns(f, doc);
  }

  lemma HundredthsArePrinted(f: Floats, k: nat)
    requires Nearest(f)
    ensures f.hundredths(Hundredths(k)) == k
  {
    var j := f.hundredths(Hundredths(k));
    assert Abs(Hundredths(j) - Hundredths(k)) <= 0.005;
  }

  /** With scores of whole hundredths, the entries come back unchanged. */
  lemma ExactScoresReturn(f: Floats, doc: Document, scores: seq<nat>)
    requires Clean(doc) && Nearest(f) && |scores| == |doc.capabilities|
    requires forall k :: 0 <= k < |scores| ==> doc.capabilities[k].confidence == Hundredths(scores[k])
    ensures Parse(f, Render(f, doc)).capabilities == doc.capabilities
  {
    hide Clean, Parse, Render;
    RoundTrip(f, doc);
    var es := RewrittenAll(f, doc.capabilities);
    forall k | 0 <= k < |es| ensures es[k] == doc.capabilities[k] {
      HundredthsArePrinted(f, scores[k]);
    }
  }

  // ---- Free text ----

  /** The lines that are not blank. */
  function NonBlank(lines: seq<string>): seq<string> {
    if lines == [] then [] else (if Trim(lines[0]) == "" then [] else [lines[0]]) + NonBlank(lines[1..])
  }

  lemma {:induction false} NonBlankConcat(a: seq<string>, b: seq<string>)
    ensures NonBlank(a + b) == NonBlank(a) + NonBlank(b)
    decreases |a|
  {
    hide Trim;
    if a == [] {
      assert a + b == b;
    } else {
      assert (a + b)[1..] == a[1..] + b;
      NonBlankConcat(a[1..], b);
    }
  }

  lemma {:induction false} SplitLast(s: string)
    ensures SplitOn(s + "\n", '\n') == SplitOn(s, '\n') + [""]
    decreases |s|
  {
    hide SplitOn, IndexOf;
    var i := IndexOf(s, '\n');
    if i == |s| {
      assert s[..|s|] == s;
      SplitFirst(s, '\n', "");
      SplitNone(s, '\n');
      SplitNone("", '\n');
      assert s + ['\n'] + "" == s + "\n";
    } else {
      var a, b := s[..i], s[i + 1..];
      SplitLast(b);
      SplitFirst(a, '\n', b + "\n");
      SplitFirst(a, '\n', b);
      assert s == a + ['\n'] + b && s + "\n" == a + ['\n'] + (b + "\n");
    }
  }

  lemma FramedSplits(text: string)
    requires text != ""
    ensures SplitOn(Framed(text), '\n') == [""] + SplitOn(text, '\n') + [""]
    ensures SplitOn("\n" + text, '\n') == [""] + SplitOn(text, '\n')
  {
    hide SplitOn, IndexOf;
    SplitLast(text);
    SplitFirst("", '\n', text + "\n");
    SplitFirst("", '\n', text);
    assert "" + ['\n'] + (text + "\n") == Framed(text) && "" + ['\n'] + text == "\n" + text;
  }

  lemma BlankIsBlank()
    ensures NonBlank([""]) == []
  {
    hide Trim;
    BlankTrims();
    assert [""][1..] == [];
  }

  /** Every line of the free text that is not blank comes back, in order. */
  lemma FreeTextKeepsItsLines(f: Floats, doc: Document)
    requires Clean(doc)
    ensures var back := Parse(f, Render(f, doc));
            && NonBlank(SplitOn(back.middle, '\n')) == NonBlank(SplitOn(doc.middle, '\n'))
            && NonBlank(SplitOn(back.post, '\n')) == NonBlank(SplitOn(doc.post, '\n'))
            && NonBlank(SplitOn(back.footer, '\n')) == NonBlank(SplitOn(doc.footer, '\n'))
            && back.header == doc.header
  {
    hide Clean, Parse, Render, NonBlank, SplitOn, Framed;
    RoundTrip(f, doc);
    FramedKeeps(doc.middle);
    FramedKeeps(doc.post);
    FramedKeeps(doc.footer);
  }

  lemma FramedKeeps(text: string)
    ensures NonBlank(SplitOn(Framed(text), '\n')) == NonBlank(SplitOn(text, '\n'))
    ensures text != "" ==> NonBlank(SplitOn("\n" + text, '\n')) == NonBlank(SplitOn(text, '\n'))
  {
    hide NonBlank, SplitOn;
    if text != "" {
      var lines := SplitOn(text, '\n');
      FramedSplits(text);
      BlankIsBlank();
      NonBlankConcat([""], lines);
      NonBlankConcat([""] + lines, [""]);
      assert [] + NonBlank(lines) + [] == NonBlank(lines);
    }
  }

  lemma FramedIsFree(text: string, managed: set<string>)
    requires FreeOf(text, managed) && "" !in managed
    ensures FreeOf(Framed(text), managed) && (text != "" ==> FreeOf("\n" + text, managed))
  {
    hide SplitOn, Trim;
    BlankTrims();
    if text != "" { FramedSplits(text); }
  }

  /** What comes back of a clean document is clean. */
  lemma ReturnedIsClean(f: Floats, doc: Document)
    requires Clean(doc)
    ensures Clean(Returned(f, doc))
  {
    hide FreeOf, RowText, Framed, CellText;
    FramedIsFree(doc.middle, {CALIBRATION_RECORD, EVOLUTION_LOG});
    FramedIsFree(doc.post, {EVOLUTION_LOG});
    FramedIsFree(doc.footer, {});
  }
}
