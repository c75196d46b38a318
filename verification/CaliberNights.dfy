/** What CALIBER.md holds night after night, and what the next night reads of it. */
module CaliberNights {
  import opened Text
  import opened Decimals
  import opened Calibers
  import opened CaliberTexts
  import opened CaliberProperties
  import opened CaliberUpdates
  import opened CaliberReadings

  // ---- Night after night ----

  /** The file after the update of one night. */
  function Night(f: Floats, lower: string -> string, content: string, r: Report): string {
    if content == "" then Render(f, Fresh(r))
    else
      var (doc, changed) := UpdatedDocument(f, lower, Parse(f, content), r);
      if changed then Render(f, doc) else content
  }

  function Nights(f: Floats, lower: string -> string, content: string, reports: seq<Report>): string {
    if reports == [] then content
    else Night(f, lower, Nights(f, lower, content, reports[..|reports| - 1]), reports[|reports| - 1])
  }

  /** All misses of all nights, as rows. */
  function AllMissRows(reports: seq<Report>): seq<string> {
    if reports == [] then []
    else
      var last := reports[|reports| - 1];
      AllMissRows(reports[..|reports| - 1]) + MissRows(last.date, last.misses)
  }

  function AllSamples(reports: seq<Report>): nat {
    if reports == [] then 0 else AllSamples(reports[..|reports| - 1]) + SamplesOf(reports[|reports| - 1].domains)
  }

  /** The same lines but for blank ones. */
  predicate KeepsLines(a: string, b: string) { NonBlank(SplitOn(a, '\n')) == NonBlank(SplitOn(b, '\n')) }

  /** The entries of `a` have kept their places and domains in `b`. */
  predicate KeepsDomains(a: seq<Entry>, b: seq<Entry>) {
    |a| <= |b| && forall k :: 0 <= k < |a| ==> b[k].domain == a[k].domain
  }

  /** `d` is what the file holds after `reports`, which started as `doc`. */
  ghost predicate Holds(doc: Document, d: Document, reports: seq<Report>, bound: nat) {
    && Clean(d) && EntriesFit(d.capabilities, bound + AllSamples(reports))
    && KeepsDomains(doc.capabilities, d.capabilities) && RowsHold(doc, d, reports) && TextsHold(doc, d)
  }

  /** The calibration record holds the old rows and then every miss, the
      evolution log has grown by at most one row a night. */
  predicate RowsHold(doc: Document, d: Document, reports: seq<Report>) {
    && d.calibration == doc.calibration + AllMissRows(reports)
    && doc.evolution <= d.evolution && |d.evolution| <= |doc.evolution| + |reports|
  }

  /** The header is the same, and so are the other texts but for blank lines. */
  predicate TextsHold(doc: Document, d: Document) {
    && d.header == doc.header
    && KeepsLines(d.middle, doc.middle) && KeepsLines(d.post, doc.post) && KeepsLines(d.footer, doc.footer)
  }

  lemma ReturnedFits(f: Floats, d: Document, bound: nat)
    requires Nearest(f) && EntriesFit(d.capabilities, bound)
    ensures EntriesFit(Returned(f, d).capabilities, bound)
  {
    hide CellText, Framed;
    var es := Returned(f, d).capabilities;
    forall k | 0 <= k < |es| ensures Unit(es[k].confidence) {
      var c := d.capabilities[k].confidence;
      assert EntryText(d.capabilities[k]) && Unit(c);
      var j := f.hundredths(c);
      assert Abs(Hundredths(j) - c) <= 0.005;
      assert j <= 100;
    }
  }

  lemma {:induction false} DomainsStay(lower: string -> string, entries: seq<Entry>, reports: seq<DomainReport>,
      date: string)
    ensures var after := UpdatedAll(lower, entries, reports, date).0;
            |entries| <= |after| && forall k :: 0 <= k < |entries| ==> after[k].domain == entries[k].domain
    decreases |reports|
  {
    hide Find, Weighted, Rounded;
    if reports != [] { DomainsStay(lower, entries, reports[..|reports| - 1], date); }
  }

  /** `back` is what is read of `d`. */
  predicate ReadsAs(back: Document, d: Document) {
    && KeepsDomains(d.capabilities, back.capabilities) && TextsHold(d, back)
    && back.calibration == d.calibration && back.evolution == d.evolution
  }

  /** What an update of `back` leaves, and what it adds. */
  predicate Adds(back: Document, after: Document, r: Report) {
    && after.header == back.header && after.middle == back.middle && after.post == back.post
    && after.footer == back.footer && KeepsDomains(back.capabilities, after.capabilities)
    && after.calibration == back.calibration + MissRows(r.date, r.misses)
    && back.evolution <= after.evolution && |after.evolution| <= |back.evolution| + 1
  }

  lemma UpdateAdds(f: Floats, lower: string -> string, back: Document, r: Report)
    ensures Adds(back, UpdatedDocument(f, lower, back, r).0, r)
    ensures !UpdatedDocument(f, lower, back, r).1 ==> MissRows(r.date, r.misses) == []
  {
    hide UpdatedAll, LogRow;
    DomainsStay(lower, back.capabilities, r.domains, r.date);
  }

  /** One night's update of `back`, which is what was read of `d`. */
  lemma UpdateHolds(f: Floats, lower: string -> string, doc: Document, d: Document, back: Document,
                    reports: seq<Report>, bound: nat)
    requires reports != [] && 1 <= bound && bound + AllSamples(reports) <= U64 && CleanReport(reports[|reports| - 1])
    requires Holds(doc, d, reports[..|reports| - 1], bound) && Clean(back) && ReadsAs(back, d)
    requires EntriesFit(back.capabilities, bound + AllSamples(reports[..|reports| - 1]))
    ensures var (after, changed) := UpdatedDocument(f, lower, back, reports[|reports| - 1]);
            Holds(doc, if changed then after else d, reports, bound)
  {
    hide Clean, EntriesFit, CleanReport, UpdatedDocument, Holds, ReadsAs, Adds;
    var r := reports[|reports| - 1];
    UpdatedIsClean(f, lower, back, r, bound + AllSamples(reports[..|reports| - 1]));
    UpdateAdds(f, lower, back, r);
    if UpdatedDocument(f, lower, back, r).1 {
      ChangedHolds(doc, d, back, UpdatedDocument(f, lower, back, r).0, reports, bound);
    } else {
      SameHolds(doc, d, reports, bound);
    }
  }

  lemma SameHolds(doc: Document, d: Document, reports: seq<Report>, bound: nat)
    requires reports != [] && Holds(doc, d, reports[..|reports| - 1], bound)
    requires MissRows(reports[|reports| - 1].date, reports[|reports| - 1].misses) == []
    ensures Holds(doc, d, reports, bound)
  {
    hide Clean, EntriesFit, KeepsLines, KeepsDomains;
    MoreFits(d.capabilities, bound + AllSamples(reports[..|reports| - 1]), bound + AllSamples(reports));
    assert AllMissRows(reports) == AllMissRows(reports[..|reports| - 1]) + [];
  }

  lemma ChangedHolds(doc: Document, d: Document, back: Document, after: Document, reports: seq<Report>, bound: nat)
    requires reports != [] && Holds(doc, d, reports[..|reports| - 1], bound) && ReadsAs(back, d)
    requires Adds(back, after, reports[|reports| - 1])
    requires Clean(after) && EntriesFit(after.capabilities, bound + AllSamples(reports))
    ensures Holds(doc, after, reports, bound)
  {
    hide Clean, EntriesFit, KeepsDomains, RowsHold, TextsHold, MissRows, AllSamples;
    DomainsChain(doc.capabilities, d.capabilities, back.capabilities);
    DomainsChain(doc.capabilities, back.capabilities, after.capabilities);
    RowsGrow(doc, d, after, reports);
    TextsChain(doc, d, back, after);
  }

  lemma DomainsChain(a: seq<Entry>, b: seq<Entry>, c: seq<Entry>)
    requires KeepsDomains(a, b) && KeepsDomains(b, c)
    ensures KeepsDomains(a, c)
  {
  }

  lemma RowsGrow(doc: Document, d: Document, after: Document, reports: seq<Report>)
    requires reports != [] && RowsHold(doc, d, reports[..|reports| - 1])
    requires after.calibration == d.calibration + MissRows(reports[|reports| - 1].date, reports[|reports| - 1].misses)
    requires d.evolution <= after.evolution && |after.evolution| <= |d.evolution| + 1
    ensures RowsHold(doc, after, reports)
  {
    hide MissRows;
    var r := reports[|reports| - 1];
    Reassociate(doc.calibration, AllMissRows(reports[..|reports| - 1]), MissRows(r.date, r.misses));
  }

  lemma TextsChain(doc: Document, d: Document, back: Document, after: Document)
    requires TextsHold(doc, d) && TextsHold(d, back)
    requires after.header == back.header && after.middle == back.middle && after.post == back.post
    requires after.footer == back.footer
    ensures TextsHold(doc, after)
  {
    hide NonBlank, SplitOn;
  }

  lemma NightHolds(f: Floats, lower: string -> string, doc: Document, d: Document, reports: seq<Report>, bound: nat)
    returns (next: Document)
    requires reports != [] && Nearest(f) && 1 <= bound && bound + AllSamples(reports) <= U64
    requires CleanReport(reports[|reports| - 1])
    requires Holds(doc, d, reports[..|reports| - 1], bound)
    ensures Holds(doc, next, reports, bound)
    ensures Night(f, lower, Render(f, d), reports[|reports| - 1]) == Render(f, next)
  {
    hide Clean, EntriesFit, CleanReport, Parse, Render, UpdatedDocument, Framed, Night, NonBlank, SplitOn;
    RenderIsNotEmpty(f, d);
    FreeTextKeepsItsLines(f, d);
    var r := reports[|reports| - 1];
    RoundTrip(f, d);
    ReturnedIsClean(f, d);
    ReturnedFits(f, d, bound + AllSamples(reports[..|reports| - 1]));
    var back := Returned(f, d);
    NightOf(f, lower, Render(f, d), r);
    assert ReadsAs(back, d);
    UpdateHolds(f, lower, doc, d, back, reports, bound);
    var (after, changed) := UpdatedDocument(f, lower, back, r);
    next := if changed then after else d;
  }

  lemma NightOf(f: Floats, lower: string -> string, content: string, r: Report)
    requires content != ""
    ensures var (doc, changed) := UpdatedDocument(f, lower, Parse(f, content), r);
            Night(f, lower, content, r) == if changed then Render(f, doc) else content
  {
    hide UpdatedDocument, Parse, Render;
  }

  lemma RenderIsNotEmpty(f: Floats, doc: Document)
    requires Clean(doc)
    ensures Render(f, doc) != ""
  {
    hide Clean, Render, Printed;
    PrintedIsRead(f, doc);
    PrintedAreLines(f, doc);
  }

  lemma MoreFits(entries: seq<Entry>, a: nat, b: nat)
    requires EntriesFit(entries, a) && a <= b
    ensures EntriesFit(entries, b)
  {
  }

  /** Night after night, from a clean document and with clean reports: the header
      stays, the entries keep their domains and places and stay in [0, 1], the
      calibration record holds the old rows and then every miss ever reported,
      in order, the evolution log only grows, by at most one row a night, and the
      text between the tables keeps its lines but for blank ones. */
  lemma {:induction false} NightsKeepTheRecord(
      f: Floats, lower: string -> string, doc: Document, reports: seq<Report>, bound: nat)
    returns (d: Document)
    requires Nearest(f) && Clean(doc) && EntriesFit(doc.capabilities, bound)
    requires 1 <= bound && bound + AllSamples(reports) <= U64
    requires forall k :: 0 <= k < |reports| ==> CleanReport(reports[k])
    ensures Nights(f, lower, Render(f, doc), reports) == Render(f, d) && Holds(doc, d, reports, bound)
    ensures Parse(f, Nights(f, lower, Render(f, doc), reports)) == Returned(f, d)
    decreases |reports|
  {
    hide CleanReport, Parse, Render, Night, Clean, EntriesFit, Returned;
    if reports == [] {
      d := doc;
      RoundTrip(f, doc);
    } else {
      var before := NightsKeepTheRecord(f, lower, doc, reports[..|reports| - 1], bound);
      d := NightHolds(f, lower, doc, before, reports, bound);
      RoundTrip(f, d);
    }
  }

  // ---- What a file looks like ----

  function HeadOf(cells: seq<string>): string { "| " + JoinWith(cells, " | ") + " |" }

  /** The lines that are the same in every file that is printed. */
  lemma EmptyPrints(f: Floats)
    ensures Render(f, Document("", [], "", [], "", [], "")) ==
            Join(["## Capability Map", "",
                  HeadOf(["Domain", "Confidence", "Evidence", "Sample", "Last Calibrated"]), "|---|---|---|---|---|",
                  "", "## Calibration Record", "",
                  HeadOf(["Date", "Prediction", "Actual", "Error"]), "|---|---|---|---|",
                  "", "## Evolution Log", "", HeadOf(["Date", "Change", "Trigger", "Effect"]), "|---|---|---|---|", ""])
  {
    hide Join, Cells, JoinWith;
    RowReads(["Domain", "Confidence", "Evidence", "Sample", "Last Calibrated"]);
    RowReads(["Date", "Prediction", "Actual", "Error"]);
    RowReads(["Date", "Change", "Trigger", "Effect"]);
    EmptySections(f);
  }

  lemma EmptySections(f: Floats)
    ensures Sections(f, Document("", [], "", [], "", [], "")) ==
            [CAPABILITY_MAP, "", ENTRY_HEAD, ENTRY_RULE, "", CALIBRATION_RECORD, "", CALIBRATION_HEAD, ROW_RULE,
             "", EVOLUTION_LOG, "", EVOLUTION_HEAD, ROW_RULE, ""]
  {
  }

  // ---- From a missing file ----

  lemma BootstrappedIsCell(n: nat)
    ensures CellText(Bootstrapped(n))
  {
    hide Contains, Bare, Plain, Decimal;
    BootstrapWordsAreBare();
    NumberIsBare(n);
    BareConcat("bootstrapped from ", Decimal(n));
    BareConcat("bootstrapped from " + Decimal(n), " outcome records.");
    assert " outcome records."[16] == '.';
    AutoCell("bootstrapped from " + Decimal(n) + " outcome records.");
  }

  lemma BootstrapWordsAreBare()
    ensures Bare("bootstrapped from ") && Bare(" outcome records.")
  {
    EvidenceWordsAreBare();
  }

  lemma CreatedIsPart()
    ensures RowPart(CREATED)
  {
    hide Contains;
    CreatedWords();
    NoDashNoRule("created from trajectory mining");
    ShortHasNoRule("-");
    NoRuleBefore("-", "created from trajectory mining");
    NoDashNoRule("CALIBER.md auto");
    assert "CALIBER.md auto"[14] == 'o';
    NoRuleAcross("CALIBER.md auto", "-" + "created from trajectory mining");
  }

  lemma CreatedWords()
    ensures Plain("created from trajectory mining") && Plain("CALIBER.md auto")
  {
  }

  lemma FreshCountIsPart(domains: nat, total: nat)
    ensures RowPart(Decimal(domains) + " domains, " + Decimal(total) + " total outcomes")
  {
    hide Contains, Plain, Decimal;
    NumbersArePlain(domains);
    NumbersArePlain(total);
    FreshWords();
    PlainConcat(Decimal(domains), " domains, ");
    PlainConcat(Decimal(domains) + " domains, ", Decimal(total));
    PlainConcat(Decimal(domains) + " domains, " + Decimal(total), " total outcomes");
    PlainIsPart(Decimal(domains) + " domains, " + Decimal(total) + " total outcomes");
  }

  lemma FreshWords()
    ensures Plain(" domains, ") && Plain(" total outcomes")
  {
  }

  lemma FreshLogRowIsRow(r: Report)
    requires CleanReport(r)
    ensures RowText(FreshLogRow(r))
  {
    hide Cells, RowText, RowPart, Decimal;
    CreatedIsPart();
    MinerIsPart();
    DateIsPart(r);
    FreshCountIsPart(|r.domains|, r.total);
    RowOfParts([r.date, CREATED, MINER, Decimal(|r.domains|) + " domains, " + Decimal(r.total) + " total outcomes"]);
  }

  /** A line of a header: no heading of a table, and nothing to trim. */
  predicate HeaderLine(s: string) { Line(s) && Trimmed(s) && |s| > 1 && s[1] == ' ' }

  lemma HeaderLineIsFree(s: string, heading: string)
    requires HeaderLine(s) && Heading(heading)
    ensures Line(s) && Trim(s) != heading
  {
    TrimTrimmed(s);
  }

  lemma UpdatedLine(date: string)
    requires CellText(date)
    ensures HeaderLine(FRESH_UPDATED + date + FRESH_BY)
  {
    hide Contains;
    var s := FRESH_UPDATED + date + FRESH_BY;
    assert s[0] == FRESH_UPDATED[0] && s[1] == FRESH_UPDATED[1] && s[|s| - 1] == FRESH_BY[|FRESH_BY| - 1];
    LinesOfHeader();
  }

  lemma LinesOfHeader()
    ensures HeaderLine(FRESH_TITLE) && HeaderLine(FRESH_FREQUENCY) && '\n' !in FRESH_UPDATED && '\n' !in FRESH_BY
  {
    hide HeaderLine;
    JoinedLine("# Update frequency: ", "nightly (trajectory mining)") by {
      assert "nightly (trajectory mining)"[26] == ')';
    }
    TitleLine();
  }

  lemma TitleLine()
    ensures HeaderLine(FRESH_TITLE)
  {
    assert FRESH_TITLE[0] == '#' && FRESH_TITLE[1] == ' ' && FRESH_TITLE[15] == 'r' && |FRESH_TITLE| == 16;
  }

  lemma JoinedLine(a: string, b: string)
    requires '\n' !in a && '\n' !in b && |a| > 1 && a[0] == '#' && a[1] == ' ' && b != ""
    requires !IsWhitespace(b[|b| - 1]) && b[|b| - 1] != '\r'
    ensures HeaderLine(a + b)
  {
    assert (a + b)[|a + b| - 1] == b[|b| - 1];
  }

  lemma FreshHeaderLines(date: string)
    requires CellText(date)
    ensures SplitOn(FreshHeader(date), '\n') == [FRESH_TITLE, "", FRESH_UPDATED + date + FRESH_BY, FRESH_FREQUENCY, ""]
  {
    hide SplitOn, CellText;
    LinesOfHeader();
    UpdatedLine(date);
    FourLines(FRESH_TITLE, FRESH_UPDATED + date + FRESH_BY, FRESH_FREQUENCY);
    assert FreshHeader(date) ==
           FRESH_TITLE + "\n\n" + (FRESH_UPDATED + date + FRESH_BY) + "\n" + FRESH_FREQUENCY + "\n";
  }

  lemma FourLines(a: string, b: string, c: string)
    requires '\n' !in a && '\n' !in b && '\n' !in c
    ensures SplitOn(a + "\n\n" + b + "\n" + c + "\n", '\n') == [a, "", b, c, ""]
  {
    hide SplitOn;
    SplitNone("", '\n');
    SplitFirst(c, '\n', "");
    SplitFirst(b, '\n', c + ['\n'] + "");
    SplitFirst("", '\n', b + ['\n'] + (c + ['\n'] + ""));
    SplitFirst(a, '\n', "" + ['\n'] + (b + ['\n'] + (c + ['\n'] + "")));
    assert a + "\n\n" + b + "\n" + c + "\n" == a + ['\n'] + ("" + ['\n'] + (b + ['\n'] + (c + ['\n'] + "")));
  }

  lemma FreshHeaderIsFree(date: string)
    requires CellText(date)
    ensures FreeOf(FreshHeader(date), {CAPABILITY_MAP, CALIBRATION_RECORD, EVOLUTION_LOG})
  {
    hide SplitOn, Trim, HeaderLine, CellText;
    FreshHeaderLines(date);
    LinesOfHeader();
    UpdatedLine(date);
    BlankTrims();
    var lines := SplitOn(FreshHeader(date), '\n');
    forall k | 0 <= k < |lines|
      ensures Line(lines[k]) && Trim(lines[k]) !in {CAPABILITY_MAP, CALIBRATION_RECORD, EVOLUTION_LOG}
    {
      if k != 1 && k != 4 {
        HeaderLineIsFree(lines[k], CAPABILITY_MAP);
        HeaderLineIsFree(lines[k], CALIBRATION_RECORD);
        HeaderLineIsFree(lines[k], EVOLUTION_LOG);
      }
    }
  }

  lemma EmptyIsFree(managed: set<string>)
    requires "" !in managed
    ensures FreeOf("", managed)
  {
    hide Trim;
    SplitNone("", '\n');
    BlankTrims();
  }

  lemma {:induction false} SamplesAreCounted(reports: seq<DomainReport>, k: nat)
    requires k < |reports|
    ensures reports[k].samples <= SamplesOf(reports)
    decreases |reports|
  {
    if k < |reports| - 1 { SamplesAreCounted(reports[..|reports| - 1], k); }
  }

  /** The document for a missing file holds an entry for every domain of the
      report, rated or not, with its rate to two decimals and its samples. */
  lemma FreshHolds(r: Report, k: nat)
    requires k < |r.domains|
    ensures var e, dr := Fresh(r).capabilities[k], r.domains[k];
            && |Fresh(r).capabilities| == |r.domains| && |Fresh(r).evolution| == 1 && Fresh(r).calibration == []
            && e.domain == dr.domain && e.samples == dr.samples && e.calibrated == r.date
            && Abs(e.confidence - dr.rate) <= 0.005
            && e.evidence == "Auto-bootstrapped from " + Decimal(dr.samples) + " outcome records."
    ensures Fresh(r).header == "# Echo — Caliber" + "\n\n" +
                               "# Last updated: " + r.date + " by trajectory miner (auto-generated)" + "\n" +
                               "# Update frequency: nightly (trajectory mining)" + "\n"
  {
    hide FreshLogRow, Rounded, Decimal;
    FrequencyReads();
    RoundedIsNear(r.domains[k].rate);
    BootstrapReads(Decimal(r.domains[k].samples));
  }

  lemma FrequencyReads()
    ensures FRESH_FREQUENCY == "# Update frequency: nightly (trajectory mining)"
  {
  }

  lemma BootstrapReads(number: string)
    ensures AUTO + ("bootstrapped from " + number + " outcome records.") ==
            "Auto-bootstrapped from " + number + " outcome records."
  {
    assert "Auto-" + "bootstrapped from " == "Auto-bootstrapped from ";
  }


  /** The document made for a missing or empty file is clean. */
  lemma FreshIsClean(r: Report)
    requires CleanReport(r) && 1 + SamplesOf(r.domains) <= U64
    ensures Clean(Fresh(r)) && EntriesFit(Fresh(r).capabilities, 1 + SamplesOf(r.domains))
  {
    hide FreeOf, CellText, RowText, FreshLogRow, FreshHeader, Rounded, Bootstrapped, RowPart;
    FreshHeaderIsFree(r.date);
    EmptyIsFree({CALIBRATION_RECORD, EVOLUTION_LOG});
    EmptyIsFree({EVOLUTION_LOG});
    EmptyIsFree({});
    FreshLogRowIsRow(r);
    var entries := Fresh(r).capabilities;
    forall k | 0 <= k < |entries|
      ensures EntryText(entries[k]) && Unit(entries[k].confidence) && entries[k].samples < 1 + SamplesOf(r.domains)
    {
      RoundedIsNear(r.domains[k].rate);
      BootstrappedIsCell(r.domains[k].samples);
      SamplesAreCounted(r.domains, k);
    }
  }

  lemma {:induction false} NightsFromFront(f: Floats, lower: string -> string, content: string, reports: seq<Report>)
    requires reports != []
    ensures Nights(f, lower, content, reports) == Nights(f, lower, Night(f, lower, content, reports[0]), reports[1..])
    decreases |reports|
  {
    hide Night;
    if |reports| > 1 {
      var n := |reports| - 1;
      NightsFromFront(f, lower, content, reports[..n]);
      assert reports[..n][1..] == reports[1..][..n - 1];
    }
  }

  /** From a missing or empty file on: what the first night writes holds from
      then on in the same way. */
  lemma NightsFromNothing(f: Floats, lower: string -> string, reports: seq<Report>) returns (d: Document)
    requires Nearest(f) && reports != [] && (forall k :: 0 <= k < |reports| ==> CleanReport(reports[k]))
    requires 1 + SamplesOf(reports[0].domains) + AllSamples(reports[1..]) <= U64
    ensures Nights(f, lower, "", reports) == Render(f, d)
    ensures Holds(Fresh(reports[0]), d, reports[1..], 1 + SamplesOf(reports[0].domains))
    ensures Parse(f, Nights(f, lower, "", reports)) == Returned(f, d)
  {
    hide CleanReport, Parse, Render, Clean, EntriesFit, Returned, Holds, Fresh;
    NightsFromFront(f, lower, "", reports);
    FreshIsClean(reports[0]);
    d := NightsKeepTheRecord(f, lower, Fresh(reports[0]), reports[1..], 1 + SamplesOf(reports[0].domains));
  }

  // ---- From any file ----

  /** Every night of `reports` leaves the file as it is. */
  predicate Unchanged(f: Floats, lower: string -> string, content: string, reports: seq<Report>) {
    forall k :: 0 <= k < |reports| ==> !UpdatedDocument(f, lower, Parse(f, content), reports[k]).1
  }

  /** From any file that is there, edited by hand included, with its headings in
      order and its scores in [0, 1]: until a night changes something the file
      stays as it is, and from then on it holds what `Holds` says of the document
      first read. */
  lemma {:induction false} NightsFromAnyFile(
      f: Floats, lower: string -> string, content: string, reports: seq<Report>, bound: nat)
    returns (d: Document)
    requires Nearest(f) && content != "" && Readable(content) && EntriesFit(Parse(f, content).capabilities, bound)
    requires 1 <= bound && bound + AllSamples(reports) <= U64
    requires forall k :: 0 <= k < |reports| ==> CleanReport(reports[k])
    ensures Holds(Parse(f, content), d, reports, bound)
    ensures if Unchanged(f, lower, content, reports)
            then Nights(f, lower, content, reports) == content && d == Parse(f, content)
            else Nights(f, lower, content, reports) == Render(f, d)
    decreases |reports|
  {
    hide CleanReport, Parse, Render, Night, EntriesFit, UpdatedDocument, Readable, AllSamples, Holds;
    var doc := Parse(f, content);
    if reports == [] {
      d := doc;
      FirstHolds(f, content, bound);
    } else {
      SamplesGrow(reports);
      var init, r := reports[..|reports| - 1], reports[|reports| - 1];
      var before := NightsFromAnyFile(f, lower, content, init, bound);
      assert reports == init + [r];
      if Unchanged(f, lower, content, init) {
        NightOf(f, lower, content, r);
        FirstUpdateHolds(f, lower, content, reports, bound);
        var (after, changed) := UpdatedDocument(f, lower, doc, r);
        d := if changed then after else doc;
      } else {
        d := NightHolds(f, lower, doc, before, reports, bound);
      }
    }
  }

  lemma SamplesGrow(reports: seq<Report>)
    requires reports != []
    ensures AllSamples(reports[..|reports| - 1]) <= AllSamples(reports)
  {
  }

  lemma FirstHolds(f: Floats, content: string, bound: nat)
    requires Readable(content) && EntriesFit(Parse(f, content).capabilities, bound)
    ensures Clean(Parse(f, content)) && Holds(Parse(f, content), Parse(f, content), [], bound)
  {
    hide Parse, Clean, EntriesFit, Readable, NonBlank, SplitOn;
    FitsAreNotNegative(Parse(f, content).capabilities, bound);
    ParsedIsClean(f, content);
    assert Parse(f, content).calibration + [] == Parse(f, content).calibration;
  }

  /** A night that updates the file as it was first read. */
  lemma FirstUpdateHolds(f: Floats, lower: string -> string, content: string, reports: seq<Report>, bound: nat)
    requires Readable(content) && EntriesFit(Parse(f, content).capabilities, bound)
    requires reports != [] && 1 <= bound && bound + AllSamples(reports) <= U64 && CleanReport(reports[|reports| - 1])
    requires Holds(Parse(f, content), Parse(f, content), reports[..|reports| - 1], bound)
    ensures var doc := Parse(f, content);
            var (after, changed) := UpdatedDocument(f, lower, doc, reports[|reports| - 1]);
            Holds(doc, if changed then after else doc, reports, bound)
  {
    hide Parse, Clean, EntriesFit, Readable, AllSamples, Holds, UpdatedDocument, CleanReport, NonBlank, SplitOn;
    var doc := Parse(f, content);
    FirstHolds(f, content, bound);
    MoreFits(doc.capabilities, bound, bound + AllSamples(reports[..|reports| - 1]));
    UpdateHolds(f, lower, doc, doc, doc, reports, bound);
  }

  lemma FitsAreNotNegative(entries: seq<Entry>, bound: nat)
    requires EntriesFit(entries, bound)
    ensures NotNegative(entries)
  {
    hide CellText;
  }
}
