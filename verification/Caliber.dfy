/** CALIBER.md: its parser and printer, and the nightly update of its scores
    (`src/caliber/document.rs`). */
module Calibers {
  import opened Text
  import opened Decimals

  // ---- Lines and cells ----

  function SplitOn(s: string, c: char): (pieces: seq<string>)
    ensures pieces != []
  {
    var i := IndexOf(s, c);
    if i == |s| then [s] else [s[..i]] + SplitOn(s[i + 1..], c)
  }

  /** `join("\n")`. */
  function Join(lines: seq<string>): string {
    if lines == [] then "" else if |lines| == 1 then lines[0] else lines[0] + "\n" + Join(lines[1..])
  }

  predicate PartAt(s: string, part: string, i: nat) { i + |part| <= |s| && s[i..i + |part|] == part }

  predicate Contains(s: string, part: string) { exists i :: 0 <= i <= |s| && PartAt(s, part, i) }

  predicate StartsRow(line: string) { line != "" && line[0] == '|' }

  const RULE := "---"

  // ---- Numbers ----

  /** What this model leaves open of floating point text: how a score is rounded
      to two decimals and a rate to whole per cents when it is printed, and how
      text other than digits with two decimals is read. */
  datatype Floats = Floats(hundredths: real -> nat, percent: real -> nat, parse: string -> Option<real>)

  function Hundredths(k: nat): real { k as real / 100.0 }

  /** A score is printed as the nearest hundredths. */
  ghost predicate Nearest(f: Floats) { forall x :: x >= 0.0 ==> Abs(Hundredths(f.hundredths(x)) - x) <= 0.005 }

  /** `{:.2}` of `k` hundredths. */
  function Fixed(k: nat): string { Decimal(k / 100) + "." + [DigitOf(k / 10 % 10), DigitOf(k % 10)] }

  predicate IsFixed(s: string) { |s| >= 4 && s[|s| - 3] == '.' && AllDigits(s[..|s| - 3]) && AllDigits(s[|s| - 2..]) }

  function ParseScore(f: Floats, s: string): Option<real> {
    if IsFixed(s) then Some(Hundredths(Value(s[..|s| - 3]) * 100 + Value(s[|s| - 2..]))) else f.parse(s)
  }

  function DigitsOf(s: string): (d: string)
    ensures forall k :: 0 <= k < |d| ==> IsDigit(d[k])
  {
    if s == "" then "" else (if IsDigit(s[0]) then [s[0]] else []) + DigitsOf(s[1..])
  }

  // ---- The document ----

  datatype Entry = Entry(domain: string, confidence: real, evidence: string, samples: nat, calibrated: string)

  datatype Document = Document(
    header: string,
    capabilities: seq<Entry>,
    middle: string,
    calibration: seq<string>,
    post: string,
    evolution: seq<string>,
    footer: string)

  const CAPABILITY_MAP := "## Capability Map"
  const CALIBRATION_RECORD := "## Calibration Record"
  const EVOLUTION_LOG := "## Evolution Log"

  /** `parse_capability_row`. */
  function ParseRow(f: Floats, line: string): Option<Entry> {
    var cells := SplitOn(line, '|');
    if |cells| < 6 then None
    else
      var score := ParseScore(f, Trim(cells[2]));
      var samples := ParseUint(DigitsOf(Trim(cells[4])), U64);
      Some(Entry(Trim(cells[1]), if score.Some? then score.value else 0.5, Trim(cells[3]),
                 if samples.Some? then samples.value else 0, Trim(cells[5])))
  }

  function RowOf(f: Floats, line: string): seq<Entry> {
    var entry := ParseRow(f, line);
    if entry.Some? then [entry.value] else []
  }

  /** The entries of a table, in the lines after its heading. */
  function Entries(f: Floats, lines: seq<string>, headerSeen: bool, inTable: bool): seq<Entry> {
    if lines == [] then []
    else
      var line, rest := Trim(lines[0]), lines[1..];
      if inTable && line == "" then []
      else if !StartsRow(line) then Entries(f, rest, headerSeen, inTable)
      else if !headerSeen then Entries(f, rest, true, inTable)
      else if Contains(line, RULE) then Entries(f, rest, headerSeen, true)
      else (if inTable then RowOf(f, line) else []) + Entries(f, rest, headerSeen, inTable)
  }

  /** The rows of a table, in the lines after its heading. */
  function Rows(lines: seq<string>, pastRule: bool): seq<string> {
    if lines == [] then []
    else
      var line, rest := Trim(lines[0]), lines[1..];
      if line == "" && pastRule then []
      else if !StartsRow(line) then Rows(rest, pastRule)
      else if Contains(line, RULE) then Rows(rest, true)
      else (if pastRule then [line] else []) + Rows(rest, pastRule)
  }

  /** The first line at or after `i` that is no row, once a row was seen. */
  function TableEnd(lines: seq<string>, i: nat, end: nat, pastTable: bool): (r: nat)
    requires end <= |lines|
    ensures r <= end
    decreases end - i
  {
    if i >= end then end
    else if StartsRow(Trim(lines[i])) then TableEnd(lines, i + 1, end, true)
    else if pastTable then i
    else TableEnd(lines, i + 1, end, false)
  }

  /** The lines of a section after its heading, up to `end`. */
  function Body(lines: seq<string>, start: nat, end: nat): seq<string>
    requires end <= |lines|
  {
    if start < end then lines[start + 1..end] else []
  }

  function Position(lines: seq<string>, heading: string): (r: Option<nat>)
    ensures r.Some? ==> r.value < |lines|
  {
    if lines == [] then None
    else if Trim(lines[0]) == heading then Some(0)
    else
      var r := Position(lines[1..], heading);
      if r.Some? then Some(r.value + 1) else None
  }

  function Or(a: Option<nat>, default: nat): nat { if a.Some? then a.value else default }

  function Slice(lines: seq<string>, from: nat, to: nat): string
    requires to <= |lines|
  {
    if from < to then Join(lines[from..to]) else ""
  }

  /** `parse_caliber_md`, of the lines of the text. */
  function ParseLines(f: Floats, lines: seq<string>): Document {
    var cap, cal, evo := Position(lines, CAPABILITY_MAP), Position(lines, CALIBRATION_RECORD),
        Position(lines, EVOLUTION_LOG);
    var evoEnd := Or(evo, |lines|);
    var capEnd := Or(cal, evoEnd);
    var middleFrom := if cap.Some? then TableEnd(lines, cap.value + 1, capEnd, false) else 0;
    var postFrom := if cal.Some? then TableEnd(lines, cal.value + 1, evoEnd, false) else capEnd;
    var footerFrom := if evo.Some? then TableEnd(lines, evo.value + 1, |lines|, false) else |lines|;
    Document(
      Join(lines[..Or(cap, 0)]),
      if cap.Some? then Entries(f, Body(lines, cap.value, capEnd), false, false) else [],
      Slice(lines, middleFrom, capEnd),
      if cal.Some? then Rows(Body(lines, cal.value, evoEnd), false) else [],
      Slice(lines, postFrom, evoEnd),
      if evo.Some? then Rows(Body(lines, evo.value, |lines|), false) else [],
      Slice(lines, footerFrom, |lines|))
  }

  function Parse(f: Floats, content: string): Document { ParseLines(f, Lines(content)) }

  method ParseCapabilityTable(f: Floats, lines: seq<string>, start: nat, end: nat) returns (entries: seq<Entry>)
    requires end <= |lines|
    ensures entries == Entries(f, Body(lines, start, end), false, false)
  {
    hide Trim, StartsRow, Contains, ParseRow, RowOf;
    entries := [];
    var body := Body(lines, start, end);
    var headerSeen, inTable := false, false;
    for i := 0 to |body|
      invariant Entries(f, body, false, false) == entries + Entries(f, body[i..], headerSeen, inTable)
    {
      var line := Trim(body[i]);
      assert body[i..][0] == body[i] && body[i..][1..] == body[i + 1..];
      if inTable && line == "" {
        assert entries + [] == entries;
        return;
      }
      if !StartsRow(line) {
        continue;
      }
      if !headerSeen {
        headerSeen := true;
        continue;
      }
      if Contains(line, RULE) {
        inTable := true;
        continue;
      }
      if inTable {
        Reassociate(entries, RowOf(f, line), Entries(f, body[i + 1..], headerSeen, inTable));
        RowIs(f, line, entries);
        var entry := ParseRow(f, line);
        if entry.Some? {
          entries := entries + [entry.value];
        }
      }
    }
    assert body[|body|..] == [] && entries + [] == entries;
  }

  lemma RowIs(f: Floats, line: string, before: seq<Entry>)
    ensures before + RowOf(f, line) == if ParseRow(f, line).Some? then before + [ParseRow(f, line).value] else before
  {
  }

  lemma Reassociate<T>(a: seq<T>, b: seq<T>, c: seq<T>)
    ensures a + (b + c) == a + b + c && [] + c == c
  {
  }

  method ParseTableRows(lines: seq<string>, start: nat, end: nat) returns (rows: seq<string>)
    requires end <= |lines|
    ensures rows == Rows(Body(lines, start, end), false)
  {
    hide Trim, StartsRow, Contains;
    rows := [];
    var body := Body(lines, start, end);
    var pastRule := false;
    for i := 0 to |body|
      invariant Rows(body, false) == rows + Rows(body[i..], pastRule)
    {
      var line := Trim(body[i]);
      assert body[i..][0] == body[i] && body[i..][1..] == body[i + 1..];
      if line == "" && pastRule {
        assert rows + [] == rows;
        return;
      }
      if !StartsRow(line) {
        continue;
      }
      if Contains(line, RULE) {
        pastRule := true;
        continue;
      }
      if pastRule {
        Reassociate(rows, [line], Rows(body[i + 1..], pastRule));
        rows := rows + [line];
      }
    }
    assert body[|body|..] == [] && rows + [] == rows;
  }

  method FindSectionEnd(lines: seq<string>, start: nat, end: nat) returns (r: nat)
    requires end <= |lines|
    ensures r == TableEnd(lines, start + 1, end, false)
  {
    var pastTable := false;
    var i := start + 1;
    while i < end
      invariant TableEnd(lines, start + 1, end, false) == TableEnd(lines, i, end, pastTable)
    {
      var line := Trim(lines[i]);
      if StartsRow(line) {
        pastTable := true;
      } else if pastTable {
        return i;
      }
      i := i + 1;
    }
    return end;
  }

  method ParseCaliberMd(f: Floats, content: string) returns (doc: Document)
    ensures doc == Parse(f, content)
  {
    hide Lines, Position, Join, Entries, Rows, TableEnd;
    var lines := Lines(content);
    var cap, cal, evo := Position(lines, CAPABILITY_MAP), Position(lines, CALIBRATION_RECORD),
        Position(lines, EVOLUTION_LOG);
    var header := Join(lines[..Or(cap, 0)]);
    var evoEnd := Or(evo, |lines|);
    var capEnd := Or(cal, evoEnd);
    var capabilities, calibration, evolution := [], [], [];
    var middleFrom, postFrom, footerFrom := 0, capEnd, |lines|;
    if cap.Some? {
      capabilities := ParseCapabilityTable(f, lines, cap.value, capEnd);
      middleFrom := FindSectionEnd(lines, cap.value, capEnd);
    }
    if cal.Some? {
      calibration := ParseTableRows(lines, cal.value, evoEnd);
      postFrom := FindSectionEnd(lines, cal.value, evoEnd);
    }
    if evo.Some? {
      evolution := ParseTableRows(lines, evo.value, |lines|);
      footerFrom := FindSectionEnd(lines, evo.value, |lines|);
    }
    doc := Document(header, capabilities, Slice(lines, middleFrom, capEnd), calibration, Slice(lines, postFrom, evoEnd),
                    evolution, Slice(lines, footerFrom, |lines|));
  }

  // ---- Printing ----

  /** The cells of a row after its first bar. */
  function Cells(cells: seq<string>): string {
    if cells == [] then "" else " " + cells[0] + " |" + Cells(cells[1..])
  }

  const ENTRY_HEAD := "|" + Cells(["Domain", "Confidence", "Evidence", "Sample", "Last Calibrated"])
  const ENTRY_RULE := "|---|---|---|---|---|"
  const CALIBRATION_HEAD := "|" + Cells(["Date", "Prediction", "Actual", "Error"])
  const EVOLUTION_HEAD := "|" + Cells(["Date", "Change", "Trigger", "Effect"])
  const ROW_RULE := "|---|---|---|---|"

  function ShowEntry(f: Floats, e: Entry): string {
    "|" + Cells([e.domain, Fixed(f.hundredths(e.confidence)), e.evidence, Decimal(e.samples), e.calibrated])
  }

  function ShowEntries(f: Floats, entries: seq<Entry>): (rows: seq<string>)
    ensures |rows| == |entries|
  {
    if entries == [] then [] else ShowEntries(f, entries[..|entries| - 1]) + [ShowEntry(f, entries[|entries| - 1])]
  }

  function FreeText(text: string): seq<string> { if text == "" then [] else ["", text] }

  /** The pieces that `render_caliber_doc` joins. */
  function Sections(f: Floats, doc: Document): seq<string> {
    (if doc.header == "" then [] else [doc.header]) +
    [CAPABILITY_MAP, "", ENTRY_HEAD, ENTRY_RULE] + ShowEntries(f, doc.capabilities) + FreeText(doc.middle) +
    ["", CALIBRATION_RECORD, "", CALIBRATION_HEAD, ROW_RULE] + doc.calibration + FreeText(doc.post) +
    ["", EVOLUTION_LOG, "", EVOLUTION_HEAD, ROW_RULE] + doc.evolution + FreeText(doc.footer) + [""]
  }

  function Render(f: Floats, doc: Document): string { Join(Sections(f, doc)) }

  method RenderCaliberDoc(f: Floats, doc: Document) returns (text: string)
    ensures text == Render(f, doc)
  {
    hide Join, ShowEntry;
    var sections := [];
    if doc.header != "" {
      sections := sections + [doc.header];
    }
    sections := sections + [CAPABILITY_MAP];
    sections := sections + [""];
    sections := sections + [ENTRY_HEAD];
    sections := sections + [ENTRY_RULE];
    ghost var front := sections;
    assert front == (if doc.header == "" then [] else [doc.header]) + [CAPABILITY_MAP, "", ENTRY_HEAD, ENTRY_RULE];
    for i := 0 to |doc.capabilities|
      invariant sections == front + ShowEntries(f, doc.capabilities[..i])
    {
      assert doc.capabilities[..i + 1][..i] == doc.capabilities[..i];
      sections := sections + [ShowEntry(f, doc.capabilities[i])];
    }
    assert doc.capabilities[..|doc.capabilities|] == doc.capabilities;
    sections := PushText(sections, doc.middle);
    sections := sections + ["", CALIBRATION_RECORD, "", CALIBRATION_HEAD, ROW_RULE];
    sections := PushAll(sections, doc.calibration);
    sections := PushText(sections, doc.post);
    sections := sections + ["", EVOLUTION_LOG, "", EVOLUTION_HEAD, ROW_RULE];
    sections := PushAll(sections, doc.evolution);
    sections := PushText(sections, doc.footer);
    sections := sections + [""];
    text := Join(sections);
  }

  method PushText(sections: seq<string>, text: string) returns (r: seq<string>)
    ensures r == sections + FreeText(text)
  {
    r := sections;
    if text != "" {
      r := r + [""];
      r := r + [text];
    }
  }

  method PushAll(sections: seq<string>, rows: seq<string>) returns (r: seq<string>)
    ensures r == sections + rows
  {
    r := sections;
    for i := 0 to |rows|
      invariant r == sections + rows[..i]
    {
      r := r + [rows[i]];
    }
  }

  // ---- The nightly update ----

  /** A domain's day: `rated` when there were samples enough for a rate. */
  datatype DomainReport = DomainReport(domain: string, samples: nat, rate: real, rated: bool)

  /** `(x * 100.0).round() / 100.0`, which rounds halves away from zero. */
  function Rounded(x: real): real {
    if x >= 0.0 then (x * 100.0 + 0.5).Floor as real / 100.0 else -((-x * 100.0 + 0.5).Floor as real / 100.0)
  }

  function AtLeastOne(n: nat): nat { if n == 0 then 1 else n }

  function Weighted(score: real, samples: nat, rate: real, today: nat): real {
    (score * AtLeastOne(samples) as real + rate * today as real) / (AtLeastOne(samples) as real + today as real)
  }

  function Abs(x: real): real { if x < 0.0 then -x else x }

  function Spaces(s: string): string { if s == "" then "" else [if s[0] == '_' then ' ' else s[0]] + Spaces(s[1..]) }

  /** `normalize_domain`; `lower` is the Unicode lower case. */
  function Normal(lower: string -> string, domain: string): string { Spaces(lower(domain)) }

  /** The first entry of a domain. */
  function Find(lower: string -> string, entries: seq<Entry>, domain: string): (r: Option<nat>)
    ensures r.Some? ==> r.value < |entries| && Normal(lower, entries[r.value].domain) == Normal(lower, domain)
    ensures r.None? ==> forall k :: 0 <= k < |entries| ==> Normal(lower, entries[k].domain) != Normal(lower, domain)
    ensures r.Some? ==> forall k :: 0 <= k < r.value ==> Normal(lower, entries[k].domain) != Normal(lower, domain)
  {
    if entries == [] then None
    else if Normal(lower, entries[0].domain) == Normal(lower, domain) then Some(0)
    else
      var r := Find(lower, entries[1..], domain);
      if r.Some? then Some(r.value + 1) else None
  }

  function Evidence(samples: nat): string { AUTO + ("detected from " + Decimal(samples) + " outcome records.") }

  /** One domain of the report against one entry: whether it changed. */
  function Scored(e: Entry, dr: DomainReport, date: string): (Entry, bool) {
    var score := Weighted(e.confidence, e.samples, dr.rate, dr.samples);
    if Abs(score - e.confidence) > 0.02 then
      (e.(confidence := Rounded(score), samples := e.samples + dr.samples, calibrated := date), true)
    else (e, false)
  }

  function Updated(lower: string -> string, entries: seq<Entry>, dr: DomainReport, date: string): (seq<Entry>, bool) {
    if !dr.rated then (entries, false)
    else
      var at := Find(lower, entries, dr.domain);
      if at.None? then (entries + [Entry(dr.domain, Rounded(dr.rate), Evidence(dr.samples), dr.samples, date)], true)
      else
        var (e, changed) := Scored(entries[at.value], dr, date);
        (entries[at.value := e], changed)
  }

  function UpdatedAll(lower: string -> string, entries: seq<Entry>, reports: seq<DomainReport>,
      date: string): (seq<Entry>, bool) {
    if reports == [] then (entries, false)
    else
      var (before, changed) := UpdatedAll(lower, entries, reports[..|reports| - 1], date);
      var (after, more) := Updated(lower, before, reports[|reports| - 1], date);
      (after, changed || more)
  }

  /** The loop over the report in `update_caliber_md`. */
  method UpdateScores(lower: string -> string, capabilities: seq<Entry>, reports: seq<DomainReport>, date: string)
    returns (entries: seq<Entry>, changed: bool)
    ensures (entries, changed) == UpdatedAll(lower, capabilities, reports, date)
  {
    hide Find, Weighted, Rounded;
    entries, changed := capabilities, false;
    for i := 0 to |reports|
      invariant (entries, changed) == UpdatedAll(lower, capabilities, reports[..i], date)
    {
      assert reports[..i + 1][..i] == reports[..i];
      var dr := reports[i];
      if !dr.rated {
        continue;
      }
      var at := Find(lower, entries, dr.domain);
      if at.Some? {
        var e := entries[at.value];
        var score := Weighted(e.confidence, e.samples, dr.rate, dr.samples);
        if Abs(score - e.confidence) > 0.02 {
          entries := entries[at.value := e.(confidence := Rounded(score), samples := e.samples + dr.samples,
                                            calibrated := date)];
          changed := true;
        } else {
          assert entries[at.value := e] == entries;
        }
      } else {
        entries := entries + [Entry(dr.domain, Rounded(dr.rate), Evidence(dr.samples), dr.samples, date)];
        changed := true;
      }
    }
    assert reports[..|reports|] == reports;
  }

  // ---- The whole update ----

  /** A prediction that went wrong, as its parts are printed. */
  datatype Miss = Miss(predicted: string, outcome: string, valence: string, kind: string)

  datatype Report = Report(date: string, total: nat, domains: seq<DomainReport>, misses: seq<Miss>,
      patterns: seq<string>)

  function MissRow(date: string, m: Miss): string {
    "|" + Cells([date, m.predicted, m.outcome + " (" + m.valence + ")", m.kind])
  }

  function MissRows(date: string, misses: seq<Miss>): (rows: seq<string>)
    ensures |rows| == |misses|
  {
    if misses == [] then [] else MissRows(date, misses[..|misses| - 1]) + [MissRow(date, misses[|misses| - 1])]
  }

  const AUTO := "Auto-"

  /** What the evolution log names as the trigger of an update. */
  const MINER := AUTO + "miner (caliber Phase 3)"

  function JoinWith(parts: seq<string>, separator: string): string {
    if parts == [] then ""
    else if |parts| == 1 then parts[0]
    else parts[0] + separator + JoinWith(parts[1..], separator)
  }

  /** The rated domains, each with its rate in per cent. */
  function Changes(f: Floats, reports: seq<DomainReport>): seq<string> {
    if reports == [] then []
    else
      var last := reports[|reports| - 1];
      Changes(f, reports[..|reports| - 1]) +
      if last.rated then [last.domain + ": " + Decimal(f.percent(last.rate)) + "%"] else []
  }

  const SCORES := "Scores updated: "
  const PATTERNS := ". Patterns: "

  /** The last cell of an evolution entry. */
  function Effect(f: Floats, r: Report): string {
    var changes := Changes(f, r.domains);
    SCORES + (if changes == [] then "none (insufficient samples)" else JoinWith(changes, ", ")) +
    PATTERNS + if r.patterns == [] then "none" else JoinWith(r.patterns, "; ")
  }

  function LogRow(f: Floats, r: Report): string {
    "|" + Cells([r.date, "Trajectory mining: " + Decimal(r.total) + " outcomes across " + Decimal(|r.domains|) +
                 " domains",
                 MINER, Effect(f, r)])
  }

  /** `update_caliber_md` on a parsed document: the document, and whether it changed. */
  function UpdatedDocument(f: Floats, lower: string -> string, doc: Document, r: Report): (Document, bool) {
    var (entries, scored) := UpdatedAll(lower, doc.capabilities, r.domains, r.date);
    var changed := scored || r.misses != [];
    (doc.(capabilities := entries, calibration := doc.calibration + MissRows(r.date, r.misses),
          evolution := doc.evolution + if changed then [LogRow(f, r)] else []),
     changed)
  }

  const FRESH_TITLE := "# Echo — Caliber"
  const FRESH_UPDATED := "# Last updated: "
  const FRESH_BY := " by trajectory miner (auto-generated)"
  const FRESH_FREQUENCY := "# Update frequency: " + "nightly (trajectory mining)"

  function FreshHeader(date: string): string {
    FRESH_TITLE + "\n\n" + FRESH_UPDATED + date + FRESH_BY + "\n" + FRESH_FREQUENCY + "\n"
  }

  function Bootstrapped(samples: nat): string { AUTO + ("bootstrapped from " + Decimal(samples) + " outcome records.") }

  function FreshEntry(dr: DomainReport, date: string): Entry {
    Entry(dr.domain, Rounded(dr.rate), Bootstrapped(dr.samples), dr.samples, date)
  }

  const CREATED := "CALIBER.md auto" + ("-" + "created from trajectory mining")

  function FreshLogRow(r: Report): string {
    "|" + Cells([r.date, CREATED, MINER,
                 Decimal(|r.domains|) + " domains, " + Decimal(r.total) + " total outcomes"])
  }

  /** `create_caliber_md`: the document for a missing or empty file. */
  function Fresh(r: Report): Document {
    Document(FreshHeader(r.date),
             seq(|r.domains|, k requires 0 <= k < |r.domains| => FreshEntry(r.domains[k], r.date)),
             "", [], "", [FreshLogRow(r)], "")
  }

  /** The file after an update, or `None` when it is not written. */
  method UpdateCaliberMd(f: Floats, lower: string -> string, content: string, r: Report)
      returns (written: Option<string>)
    ensures content == "" ==> written == Some(Render(f, Fresh(r)))
    ensures content != "" ==>
              var (doc, changed) := UpdatedDocument(f, lower, Parse(f, content), r);
              written == if changed then Some(Render(f, doc)) else None
  {
    hide Parse, Render, UpdatedAll, LogRow, MissRow, Fresh;
    if content == "" {
      var text := RenderCaliberDoc(f, Fresh(r));
      return Some(text);
    }
    var doc := ParseCaliberMd(f, content);
    var entries, changed := UpdateScores(lower, doc.capabilities, r.domains, r.date);
    var rows := doc.calibration;
    for i := 0 to |r.misses|
      invariant rows == doc.calibration + MissRows(r.date, r.misses[..i])
      invariant changed == (UpdatedAll(lower, doc.capabilities, r.domains, r.date).1 || i > 0)
    {
      assert r.misses[..i + 1][..i] == r.misses[..i];
      rows := rows + [MissRow(r.date, r.misses[i])];
      changed := true;
    }
    assert r.misses[..|r.misses|] == r.misses;
    var log := doc.evolution;
    if changed {
      log := log + [LogRow(f, r)];
    }
    if !changed {
      return None;
    }
    var text := RenderCaliberDoc(f, doc.(capabilities := entries, calibration := rows, evolution := log));
    return Some(text);
  }
}
