/** What one night's update does to the scores and rows of CALIBER.md. */
module CaliberUpdates {
  import opened Text
  import opened Decimals
  import opened Calibers
  import opened CaliberTexts
  import opened CaliberProperties

  // ---- Scores ----

  predicate Unit(x: real) { 0.0 <= x <= 1.0 }

  function Low(a: real, b: real): real { if a < b then a else b }

  function High(a: real, b: real): real { if a < b then b else a }

  function Times(a: real, b: real): real { a * b }

  lemma TimesSign(a: real, m: real)
    requires a >= 0.0 && m >= 0.0
    ensures Times(a, m) >= 0.0 && (a > 0.0 && m > 0.0 ==> Times(a, m) > 0.0)
  {
  }

  lemma Scaled(a: real, b: real, m: real)
    requires a <= b && m >= 0.0
    ensures Times(a, m) <= Times(b, m) && (a < b && m > 0.0 ==> Times(a, m) < Times(b, m))
  {
    hide Times;
    TimesSign(b - a, m);
    Distributes(a, b - a, m);
    assert a + (b - a) == b;
  }

  lemma Distributes(a: real, b: real, m: real)
    ensures Times(a + b, m) == Times(a, m) + Times(b, m) && Times(m, a + b) == Times(m, a) + Times(m, b)
  {
  }

  /** A weighted average lies between its two values. */
  lemma WeightedIsBetween(score: real, samples: nat, rate: real, today: nat)
    ensures Low(score, rate) <= Weighted(score, samples, rate, today) <= High(score, rate)
  {
    WeightedIsAverage(score, samples, rate, today);
    AverageIsBetween(score, Behind(samples), rate, today as real, Weighted(score, samples, rate, today));
  }

  lemma AverageIsBetween(score: real, n: real, rate: real, t: real, w: real)
    requires n > 0.0 && t >= 0.0 && Times(w, n + t) == Times(score, n) + Times(rate, t)
    ensures Low(score, rate) <= w <= High(score, rate)
  {
    hide Times;
    var lo, hi := Low(score, rate), High(score, rate);
    Scaled(lo, score, n);
    Scaled(lo, rate, t);
    Scaled(score, hi, n);
    Scaled(rate, hi, t);
    Distributes(n, t, lo);
    Distributes(n, t, hi);
    if w < lo { Scaled(w, lo, n + t); }
    if w > hi { Scaled(hi, w, n + t); }
  }

  /** The samples behind a score, one at least. */
  function Behind(samples: nat): real { if samples == 0 then 1.0 else samples as real }

  lemma WeightedIsAverage(score: real, samples: nat, rate: real, today: nat)
    ensures var n, t := Behind(samples), today as real;
            Times(Weighted(score, samples, rate, today), n + t) == Times(score, n) + Times(rate, t)
  {
  }

  /** Rounding to two decimals moves a score by at most half a hundredth, and
      leaves a score between 0 and 1 there. */
  lemma RoundedIsNear(x: real)
    ensures Abs(Rounded(x) - x) <= 0.005
    ensures Unit(x) ==> Unit(Rounded(x)) && exists k: nat :: Rounded(x) == Hundredths(k)
  {
    if x >= 0.0 {
      var k := (x * 100.0 + 0.5).Floor;
      assert k as real <= x * 100.0 + 0.5 < k as real + 1.0;
      assert Rounded(x) == Hundredths(k);
    } else {
      var k := (-x * 100.0 + 0.5).Floor;
      assert k as real <= -x * 100.0 + 0.5 < k as real + 1.0;
    }
  }

  /** A score changes only by more than 0.02; it then lies, up to half a
      hundredth, between the old score and the day's rate, and in [0, 1]; the
      samples add up. */
  lemma ScoreMovesTowardsTheRate(e: Entry, dr: DomainReport, date: string)
    requires Unit(e.confidence) && Unit(dr.rate)
    ensures var (after, changed) := Scored(e, dr, date);
            && Unit(after.confidence) && after.domain == e.domain && after.evidence == e.evidence
            && Low(e.confidence, dr.rate) - 0.005 <= after.confidence <= High(e.confidence, dr.rate) + 0.005
            && (changed <==> Abs(Weighted(e.confidence, e.samples, dr.rate, dr.samples) - e.confidence) > 0.02)
            && (changed ==> after.samples == e.samples + dr.samples && after.calibrated == date)
            && (!changed ==> after == e)
  {
    hide Rounded, Weighted;
    var score := Weighted(e.confidence, e.samples, dr.rate, dr.samples);
    WeightedIsBetween(e.confidence, e.samples, dr.rate, dr.samples);
    RoundedIsNear(score);
  }

  /** The same name but for case and for underscores in place of blanks. */
  predicate SameDomain(lower: string -> string, a: string, b: string) {
    var s, t := lower(a), lower(b);
    |s| == |t| && forall k :: 0 <= k < |s| ==> s[k] == t[k] || (s[k] in {'_', ' '} && t[k] in {'_', ' '})
  }

  lemma {:induction false} SpacesAt(s: string)
    ensures |Spaces(s)| == |s| && forall k :: 0 <= k < |s| ==> Spaces(s)[k] == if s[k] == '_' then ' ' else s[k]
  {
    if s != "" { SpacesAt(s[1..]); }
  }

  lemma NormalIsSame(lower: string -> string, a: string, b: string)
    ensures Normal(lower, a) == Normal(lower, b) <==> SameDomain(lower, a, b)
  {
    hide Spaces;
    SpacesAt(lower(a));
    SpacesAt(lower(b));
    var s, t := Normal(lower, a), Normal(lower, b);
    if s == t { assert forall k :: 0 <= k < |lower(a)| ==> s[k] == t[k]; }
  }

  /** `k` is the first entry of this domain. */
  ghost predicate FirstOf(lower: string -> string, entries: seq<Entry>, domain: string, k: nat) {
    && k < |entries| && SameDomain(lower, entries[k].domain, domain)
    && forall j :: 0 <= j < k ==> !SameDomain(lower, entries[j].domain, domain)
  }

  /** The average of `old` with weight `n` and `rate` with weight `t` lies more
      than 0.02 from `old`. */
  predicate MovesEnough(score: real, n: real, rate: real, t: real) {
    (rate - score) * t > 0.02 * (n + t) || (score - rate) * t > 0.02 * (n + t)
  }

  /** `c` is that average, to half a hundredth. */
  predicate IsAverage(c: real, score: real, n: real, rate: real, t: real) {
    -(0.005 * (n + t)) <= c * (n + t) - (score * n + rate * t) <= 0.005 * (n + t)
  }

  /** What one domain of the report does to its entry: the score moves, when it
      would by more than 0.02, to the average of the old score and the day's rate
      by their samples, rounded to hundredths. */
  lemma EvidenceWeighs(lower: string -> string, entries: seq<Entry>, dr: DomainReport, date: string, k: nat)
    requires dr.rated && FirstOf(lower, entries, dr.domain, k)
    ensures var (after, changed) := Updated(lower, entries, dr, date);
            var e, c, n, t := entries[k], after[k].confidence, Behind(entries[k].samples), dr.samples as real;
            && after == entries[k := after[k]]
            && (changed <==> MovesEnough(e.confidence, n, dr.rate, t))
            && (changed ==>
                  && IsAverage(c, e.confidence, n, dr.rate, t)
                  && (0.0 <= e.confidence && 0.0 <= dr.rate ==> exists j: nat :: c == Hundredths(j))
                  && after[k] == Entry(e.domain, c, e.evidence, e.samples + dr.samples, date))
            && (!changed ==> after[k] == e)
  {
    hide Scored, Normal, SameDomain, MovesEnough, IsAverage, Behind;
    FirstIsFound(lower, entries, dr.domain, k);
    ScoreWeighs(entries[k], dr, date);
  }

  lemma ScoreWeighs(e: Entry, dr: DomainReport, date: string)
    ensures var (after, changed) := Scored(e, dr, date);
            var c, n, t := after.confidence, Behind(e.samples), dr.samples as real;
            && (changed <==> MovesEnough(e.confidence, n, dr.rate, t))
            && (changed ==>
                  && IsAverage(c, e.confidence, n, dr.rate, t)
                  && (0.0 <= e.confidence && 0.0 <= dr.rate ==> exists j: nat :: c == Hundredths(j))
                  && after == Entry(e.domain, c, e.evidence, e.samples + dr.samples, date))
            && (!changed ==> after == e)
  {
    hide Rounded, Weighted, Hundredths, MovesEnough, IsAverage;
    var w := Weighted(e.confidence, e.samples, dr.rate, dr.samples);
    AverageWeighs(e.confidence, e.samples, dr.rate, dr.samples);
    if 0.0 <= e.confidence && 0.0 <= dr.rate {
      WeightedIsBetween(e.confidence, e.samples, dr.rate, dr.samples);
      RoundedIsWhole(w);
    }
  }

  lemma AverageWeighs(score: real, samples: nat, rate: real, today: nat)
    ensures var w, n, t := Weighted(score, samples, rate, today), Behind(samples), today as real;
            && (Abs(w - score) > 0.02 <==> MovesEnough(score, n, rate, t))
            && IsAverage(Rounded(w), score, n, rate, t)
  {
    hide Rounded, Weighted;
    var w, n, t := Weighted(score, samples, rate, today), Behind(samples), today as real;
    WeightedIsAverage(score, samples, rate, today);
    AverageMoves(score, n, rate, t, w);
    RoundedIsNear(w);
    ErrorScales(Rounded(w), w, n + t, score * n + rate * t);
  }

  lemma FirstIsFound(lower: string -> string, entries: seq<Entry>, domain: string, k: nat)
    requires FirstOf(lower, entries, domain, k)
    ensures Find(lower, entries, domain) == Some(k)
  {
    hide Normal, SameDomain;
    forall j | 0 <= j < |entries|
      ensures Normal(lower, entries[j].domain) == Normal(lower, domain) <==>
              SameDomain(lower, entries[j].domain, domain)
    {
      NormalIsSame(lower, entries[j].domain, domain);
    }
  }

  /** How far an average lies from the old score. */
  lemma AverageMoves(score: real, n: real, rate: real, t: real, w: real)
    requires w * (n + t) == score * n + rate * t && n > 0.0 && t >= 0.0
    ensures Abs(w - score) > 0.02 <==> MovesEnough(score, n, rate, t)
  {
    DistanceScales(score, n, rate, t, w);
    MovesUp(score, rate, t, w, n + t);
    MovesUp(-score, -rate, t, -w, n + t) by { DistanceScales(-score, n, -rate, t, -w); }
    assert -rate - -score == score - rate && -w - -score == score - w;
  }

  lemma DistanceScales(score: real, n: real, rate: real, t: real, w: real)
    requires w * (n + t) == score * n + rate * t
    ensures (w - score) * (n + t) == (rate - score) * t
  {
  }

  lemma MovesUp(score: real, rate: real, t: real, w: real, m: real)
    requires m > 0.0 && (w - score) * m == (rate - score) * t
    ensures w - score > 0.02 <==> (rate - score) * t > 0.02 * m
  {
    ScaledOrder(w - score, 0.02, m);
  }

  lemma ScaledOrder(a: real, b: real, m: real)
    requires m > 0.0
    ensures a > b <==> a * m > b * m
  {
    if a > b { assert (a - b) * m > 0.0; }
    if a <= b { assert (b - a) * m >= 0.0; }
  }

  lemma ErrorScales(c: real, w: real, m: real, total: real)
    requires m > 0.0 && -0.005 <= c - w <= 0.005 && w * m == total
    ensures -(0.005 * m) <= c * m - total <= 0.005 * m
  {
    ProductsNear(c, w, 0.005, m);
  }

  lemma ProductsNear(c: real, w: real, e: real, m: real)
    requires m > 0.0 && -e <= c - w <= e
    ensures -Times(e, m) <= Times(c, m) - Times(w, m) <= Times(e, m)
  {
    hide Times;
    Scaled(c, w + e, m);
    Scaled(w, c + e, m);
    Distributes(w, e, m);
    Distributes(c, e, m);
  }

  lemma RoundedIsWhole(x: real)
    requires x >= 0.0
    ensures exists j: nat :: Rounded(x) == Hundredths(j)
  {
    assert Rounded(x) == Hundredths((x * 100.0 + 0.5).Floor);
  }

  /** A domain without an entry gets one, with its own rate; one without samples
      enough changes nothing. */
  lemma NewDomainsAreAdded(lower: string -> string, entries: seq<Entry>, dr: DomainReport, date: string)
    requires forall j :: 0 <= j < |entries| ==> !SameDomain(lower, entries[j].domain, dr.domain)
    ensures var (after, changed) := Updated(lower, entries, dr, date);
            && changed == dr.rated
            && if !dr.rated then after == entries
               else
                 var c := Rounded(dr.rate);
                 && after == entries + [Entry(dr.domain, c,
                                            "Auto-detected from " + Decimal(dr.samples) + " outcome records.",
                                              dr.samples, date)]
                 && dr.rate - 0.005 <= c <= dr.rate + 0.005
  {
    hide Rounded, Normal, SameDomain, Decimal;
    forall j | 0 <= j < |entries| ensures Normal(lower, entries[j].domain) != Normal(lower, dr.domain) {
      NormalIsSame(lower, entries[j].domain, dr.domain);
    }
    RoundedIsNear(dr.rate);
    DetectedWords(Decimal(dr.samples));
  }

  lemma DetectedWords(number: string)
    ensures AUTO + ("detected from " + number + " outcome records.") ==
            "Auto-detected from " + number + " outcome records."
  {
    assert AUTO + "detected from " == "Auto-detected from ";
  }

  lemma UnratedChangesNothing(lower: string -> string, entries: seq<Entry>, dr: DomainReport, date: string)
    requires !dr.rated
    ensures Updated(lower, entries, dr, date) == (entries, false)
  {
  }

  ghost predicate AllUnit(entries: seq<Entry>) { forall k :: 0 <= k < |entries| ==> Unit(entries[k].confidence) }

  /** No two entries are of the same domain. */
  ghost predicate DistinctDomains(lower: string -> string, entries: seq<Entry>) {
    forall i, j :: 0 <= i < j < |entries| ==> Normal(lower, entries[i].domain) != Normal(lower, entries[j].domain)
  }

  predicate HasDomain(lower: string -> string, entries: seq<Entry>, domain: string) {
    exists k :: 0 <= k < |entries| && Normal(lower, entries[k].domain) == Normal(lower, domain)
  }

  lemma UpdateKeeps(lower: string -> string, entries: seq<Entry>, dr: DomainReport, date: string)
    requires AllUnit(entries) && DistinctDomains(lower, entries) && Unit(dr.rate)
    ensures var after := Updated(lower, entries, dr, date).0;
            && AllUnit(after) && DistinctDomains(lower, after) && |entries| <= |after|
            && (forall k :: 0 <= k < |entries| ==> after[k].domain == entries[k].domain)
            && (forall k :: 0 <= k < |entries| ==>
                  (dr.rated && Normal(lower, dr.domain) == Normal(lower, entries[k].domain)) ||
                  after[k] == entries[k])
            && (dr.rated ==> HasDomain(lower, after, dr.domain))
  {
    hide Rounded, Weighted, Normal;
    if dr.rated {
      var at := Find(lower, entries, dr.domain);
      var after := Updated(lower, entries, dr, date).0;
      if at.Some? {
        ScoreMovesTowardsTheRate(entries[at.value], dr, date);
        assert Normal(lower, after[at.value].domain) == Normal(lower, dr.domain);
      } else {
        RoundedIsNear(dr.rate);
        assert Normal(lower, after[|entries|].domain) == Normal(lower, dr.domain);
      }
    }
  }

  ghost predicate AllRated(reports: seq<DomainReport>) { forall k :: 0 <= k < |reports| ==> Unit(reports[k].rate) }

  /** Some report of the night is of this domain. */
  predicate Reported(lower: string -> string, reports: seq<DomainReport>, domain: string) {
    exists k :: 0 <= k < |reports| && reports[k].rated && Normal(lower, reports[k].domain) == Normal(lower, domain)
  }

  /** After a night's report, whatever it holds: every score is in [0, 1], every
      domain has one entry, entries keep their places, those of domains not
      reported are untouched, and every rated domain has an entry. */
  lemma {:induction false} NightKeepsScores(lower: string -> string, entries: seq<Entry>, reports: seq<DomainReport>,
      date: string)
    requires AllUnit(entries) && DistinctDomains(lower, entries) && AllRated(reports)
    ensures var after := UpdatedAll(lower, entries, reports, date).0;
            && AllUnit(after) && DistinctDomains(lower, after) && |entries| <= |after|
            && (forall k :: 0 <= k < |entries| ==> after[k].domain == entries[k].domain)
            && (forall k :: 0 <= k < |entries| && !Reported(lower, reports, entries[k].domain) ==>
                  after[k] == entries[k])
            && (forall r :: 0 <= r < |reports| && reports[r].rated ==> HasDomain(lower, after, reports[r].domain))
    decreases |reports|
  {
    hide Updated, Normal;
    if reports != [] {
      var init, dr := reports[..|reports| - 1], reports[|reports| - 1];
      var before := UpdatedAll(lower, entries, init, date).0;
      NightKeepsScores(lower, entries, init, date);
      UpdateKeeps(lower, before, dr, date);
      var after := Updated(lower, before, dr, date).0;
      forall r | 0 <= r < |reports| && reports[r].rated
        ensures HasDomain(lower, after, reports[r].domain)
      {
        if r < |init| {
          assert init[r] == reports[r];
          StillThere(lower, before, after, reports[r].domain);
        }
      }
      forall k | 0 <= k < |entries| && !Reported(lower, reports, entries[k].domain)
        ensures after[k] == entries[k]
      {
        NotReportedBefore(lower, reports, entries[k].domain);
      }
    }
  }

  lemma NotReportedBefore(lower: string -> string, reports: seq<DomainReport>, domain: string)
    requires reports != [] && !Reported(lower, reports, domain)
    ensures !Reported(lower, reports[..|reports| - 1], domain)
    ensures !(reports[|reports| - 1].rated && Normal(lower, reports[|reports| - 1].domain) == Normal(lower, domain))
  {
    hide Normal;
    var init := reports[..|reports| - 1];
    assert forall k :: 0 <= k < |init| ==> init[k] == reports[k];
  }

  lemma StillThere(lower: string -> string, before: seq<Entry>, after: seq<Entry>, domain: string)
    requires HasDomain(lower, before, domain) && |before| <= |after|
    requires forall k :: 0 <= k < |before| ==> after[k].domain == before[k].domain
    ensures HasDomain(lower, after, domain)
  {
    hide Normal;
    var k :| 0 <= k < |before| && Normal(lower, before[k].domain) == Normal(lower, domain);
    assert Normal(lower, after[k].domain) == Normal(lower, domain);
  }

  // ---- The next night ----

  /** Text that may stand in a printed row: one line, and no rule. */
  predicate RowPart(s: string) { '\n' !in s && !Contains(s, RULE) }

  predicate CleanMiss(m: Miss) { RowPart(m.predicted) && RowPart(m.outcome) && RowPart(m.valence) && RowPart(m.kind) }

  /** A report whose texts can be printed in a table. */
  predicate CleanReport(r: Report) {
    && CellText(r.date) && (forall k :: 0 <= k < |r.patterns| ==> RowPart(r.patterns[k]))
    && (forall k :: 0 <= k < |r.misses| ==> CleanMiss(r.misses[k]))
    && (forall k :: 0 <= k < |r.domains| ==> CellText(r.domains[k].domain) && Unit(r.domains[k].rate))
  }

  lemma RowOfParts(cells: seq<string>)
    requires cells != [] && forall k :: 0 <= k < |cells| ==> RowPart(cells[k])
    ensures RowText("|" + Cells(cells))
  {
    hide Cells, Contains, RowText, RowPart;
    forall k | 0 <= k < |cells| ensures !Contains(cells[k], RULE) && '\n' !in cells[k] { PartFacts(cells[k]); }
    CellsHaveNoRule(cells);
    BarredIsRow(Cells(cells));
  }

  lemma PartFacts(s: string)
    requires RowPart(s)
    ensures !Contains(s, RULE) && '\n' !in s
  {
  }

  lemma BarredIsRow(s: string)
    requires s != "" && s[|s| - 1] == '|' && '\n' !in s && !Contains(s, RULE)
    ensures RowText("|" + s)
  {
    hide Contains;
    NoDashNoRule("|");
    NoRuleAcross("|", s);
    assert ("|" + s)[|"|" + s| - 1] == s[|s| - 1];
  }

  /** One line without dashes. */
  predicate Plain(s: string) { '\n' !in s && '-' !in s }

  lemma PlainConcat(a: string, b: string)
    requires Plain(a) && Plain(b)
    ensures Plain(a + b)
  {
  }

  lemma MinedIsPart(total: nat, domains: nat)
    ensures RowPart("Trajectory mining: " + Decimal(total) + " outcomes across " + Decimal(domains) + " domains")
  {
    hide Contains, Plain, Decimal;
    NumbersArePlain(total);
    NumbersArePlain(domains);
    WordsArePlain();
    PlainConcat("Trajectory mining: ", Decimal(total));
    PlainConcat("Trajectory mining: " + Decimal(total), " outcomes across ");
    PlainConcat("Trajectory mining: " + Decimal(total) + " outcomes across ", Decimal(domains));
    PlainConcat("Trajectory mining: " + Decimal(total) + " outcomes across " + Decimal(domains), " domains");
    PlainIsPart("Trajectory mining: " + Decimal(total) + " outcomes across " + Decimal(domains) + " domains");
  }

  lemma NumbersArePlain(n: nat)
    ensures Plain(Decimal(n))
  {
    NumbersAreCells(0, n);
  }

  lemma WordsArePlain()
    ensures Plain("Trajectory mining: ") && Plain(" outcomes across ") && Plain(" domains")
  {
  }

  lemma PlainIsPart(s: string)
    requires Plain(s)
    ensures RowPart(s)
  {
    NoDashNoRule(s);
  }

  lemma AutoPart(rest: string)
    requires Plain(rest)
    ensures RowPart(AUTO + rest)
  {
    hide Contains;
    AutoIsPart();
    PlainIsPart(rest);
    NoRuleBefore(AUTO, rest);
  }

  lemma MinerIsPart()
    ensures RowPart(MINER)
  {
    hide RowPart, Plain;
    MinerIsPlain();
    AutoPart("miner (caliber Phase 3)");
  }

  lemma MinerIsPlain()
    ensures Plain("miner (caliber Phase 3)")
  {
  }

  lemma AutoIsPart()
    ensures RowPart(AUTO)
  {
    hide Contains;
    NoDashNoRule("Auto");
    ShortHasNoRule("-");
    NoRuleAcross("Auto", "-");
    assert "Auto" + "-" == AUTO;
  }

  lemma ShortHasNoRule(s: string)
    requires |s| < 3
    ensures !Contains(s, RULE)
  {
  }

  /** A separator without dashes keeps two parts apart. */
  lemma PartsApart(a: string, separator: string, b: string)
    requires RowPart(a) && Plain(separator) && separator != "" && RowPart(b)
    ensures RowPart(a + separator + b)
  {
    hide Contains;
    NoDashNoRule(separator);
    NoRuleBefore(a, separator);
    assert (a + separator)[|a + separator| - 1] == separator[|separator| - 1];
    NoRuleAcross(a + separator, b);
  }

  lemma {:induction false} MissRowsAreRows(date: string, misses: seq<Miss>)
    requires RowPart(date) && forall k :: 0 <= k < |misses| ==> CleanMiss(misses[k])
    ensures forall k :: 0 <= k < |misses| ==> RowText(MissRows(date, misses)[k])
    decreases |misses|
  {
    hide Cells, Contains, RowText, RowPart;
    if misses != [] {
      var m := misses[|misses| - 1];
      MissRowsAreRows(date, misses[..|misses| - 1]);
      ActualIsPart(m);
      RowOfParts([date, m.predicted, m.outcome + " (" + m.valence + ")", m.kind]);
    }
  }

  lemma ActualIsPart(m: Miss)
    requires CleanMiss(m)
    ensures RowPart(m.outcome + " (" + m.valence + ")")
  {
    hide RowPart, Plain;
    assert Plain(" (") && Plain(")") by { ParensArePlain(); }
    PartsApart(m.outcome, " (", m.valence);
    EmptyIsPart();
    PartsApart(m.outcome + " (" + m.valence, ")", "");
    assert m.outcome + " (" + m.valence + ")" + "" == m.outcome + " (" + m.valence + ")";
  }

  lemma ParensArePlain()
    ensures Plain(" (") && Plain(")")
  {
  }

  lemma {:induction false} JoinedIsPart(parts: seq<string>, separator: string)
    requires forall k :: 0 <= k < |parts| ==> RowPart(parts[k])
    requires Plain(separator) && separator != ""
    ensures RowPart(JoinWith(parts, separator))
    decreases |parts|
  {
    hide RowPart, Plain;
    if parts == [] {
      EmptyIsPart();
    } else if |parts| > 1 {
      JoinedIsPart(parts[1..], separator);
      PartsApart(parts[0], separator, JoinWith(parts[1..], separator));
    }
  }

  lemma EmptyIsPart()
    ensures RowPart("")
  {
  }

  lemma {:induction false} ChangesAreParts(f: Floats, reports: seq<DomainReport>)
    requires forall k :: 0 <= k < |reports| ==> CellText(reports[k].domain)
    ensures forall k :: 0 <= k < |Changes(f, reports)| ==> RowPart(Changes(f, reports)[k])
    decreases |reports|
  {
    hide RowPart, CellText, Decimal;
    if reports != [] {
      var last := reports[|reports| - 1];
      ChangesAreParts(f, reports[..|reports| - 1]);
      RateIsPart(last.domain, f.percent(last.rate));
    }
  }

  lemma RateIsPart(domain: string, percent: nat)
    requires CellText(domain)
    ensures RowPart(domain + ": " + Decimal(percent) + "%")
  {
    hide Decimal, Contains, Trimmed;
    NumbersArePlain(percent);
    PlainConcat(Decimal(percent), "%");
    PlainIsPart(Decimal(percent) + "%");
    PartsApart(domain, ": ", Decimal(percent) + "%");
    assert domain + ": " + (Decimal(percent) + "%") == domain + ": " + Decimal(percent) + "%";
  }

  lemma EffectWordsArePlain()
    ensures Plain(SCORES) && Plain(PATTERNS) && Plain("none") && Plain("none (insufficient samples)") && Plain(", ")
            && Plain("; ")
  {
  }

  lemma EffectIsPart(f: Floats, r: Report)
    requires CleanReport(r)
    ensures RowPart(Effect(f, r))
  {
    hide RowPart, Plain, CellText, Changes, JoinWith;
    EffectWordsArePlain();
    EmptyIsPart();
    ChangesAreParts(f, r.domains);
    JoinedIsPart(Changes(f, r.domains), ", ");
    JoinedIsPart(r.patterns, "; ");
    PlainIsPart("none");
    PlainIsPart("none (insufficient samples)");
    var rates := Changes(f, r.domains);
    var changes := if rates == [] then "none (insufficient samples)" else JoinWith(rates, ", ");
    var patterns := if r.patterns == [] then "none" else JoinWith(r.patterns, "; ");
    PartsApart("", SCORES, changes);
    assert "" + SCORES + changes == SCORES + changes;
    PartsApart(SCORES + changes, PATTERNS, patterns);
  }

  lemma LogRowIsRow(f: Floats, r: Report)
    requires CleanReport(r)
    ensures RowText(LogRow(f, r))
  {
    hide Cells, RowText, RowPart, Decimal, Effect;
    var mined := "Trajectory mining: " + Decimal(r.total) + " outcomes across " + Decimal(|r.domains|) + " domains";
    MinedIsPart(r.total, |r.domains|);
    MinerIsPart();
    DateIsPart(r);
    EffectIsPart(f, r);
    RowOfParts([r.date, mined, MINER, Effect(f, r)]);
  }

  lemma DateIsPart(r: Report)
    requires CleanReport(r)
    ensures RowPart(r.date) && forall k :: 0 <= k < |r.misses| ==> CleanMiss(r.misses[k])
  {
    hide Contains, Trimmed;
  }

  /** A row is its cells, set apart by bars. */
  lemma {:induction false} RowReads(cells: seq<string>)
    requires cells != []
    ensures "|" + Cells(cells) == "| " + JoinWith(cells, " | ") + " |"
    decreases |cells|
  {
    if |cells| == 1 {
      assert Cells(cells[1..]) == "" && "|" + (" " + cells[0] + " |") == "| " + cells[0] + " |";
    } else {
      var rest, later := cells[1..], JoinWith(cells[1..], " | ");
      RowReads(rest);
      assert " |" + Cells(rest) == " " + ("|" + Cells(rest));
      assert " " + ("| " + later + " |") == " | " + later + " |";
      BarsApart(cells[0], Cells(rest), later);
    }
  }

  lemma BarsApart(cell: string, rest: string, later: string)
    requires " |" + rest == " | " + later + " |"
    ensures "|" + (" " + cell + " |" + rest) == "| " + (cell + " | " + later) + " |"
  {
    assert " " + cell + " |" + rest == " " + cell + (" |" + rest);
    assert "|" + (" " + cell + (" | " + later + " |")) == "| " + (cell + " | " + later) + " |";
  }

  /** What the new rows say. */
  lemma RowsRead(f: Floats, r: Report, m: Miss)
    ensures MissRow(r.date, m) ==
            "| " + JoinWith([r.date, m.predicted, m.outcome + " (" + m.valence + ")", m.kind], " | ") + " |"
    ensures var mined := "Trajectory mining: " + Decimal(r.total) + " outcomes across " + Decimal(|r.domains|) +
                         " domains";
            LogRow(f, r) == "| " + JoinWith([r.date, mined, "Auto-miner (caliber Phase 3)", Effect(f, r)], " | ") + " |"
  {
    hide Effect, Decimal, Cells, JoinWith;
    RowReads([r.date, m.predicted, m.outcome + " (" + m.valence + ")", m.kind]);
    var mined := "Trajectory mining: " + Decimal(r.total) + " outcomes across " + Decimal(|r.domains|) + " domains";
    RowReads([r.date, mined, MINER, Effect(f, r)]);
    MinerReads();
  }

  /** The rates of the domains with samples enough, in per cent. */
  function RatesOf(f: Floats, reports: seq<DomainReport>): seq<string> {
    if reports == [] then []
    else
      (if reports[0].rated then [reports[0].domain + ": " + Decimal(f.percent(reports[0].rate)) + "%"] else [])
      + RatesOf(f, reports[1..])
  }

  lemma {:induction false} ChangesPush(f: Floats, first: DomainReport, rest: seq<DomainReport>)
    ensures Changes(f, [first] + rest) ==
            (if first.rated then [first.domain + ": " + Decimal(f.percent(first.rate)) + "%"] else [])
            + Changes(f, rest)
    decreases |rest|
  {
    hide Decimal;
    var all := [first] + rest;
    if rest == [] {
      assert all[..0] == [];
    } else {
      ChangesPush(f, first, rest[..|rest| - 1]);
      assert all[..|all| - 1] == [first] + rest[..|rest| - 1];
    }
  }

  lemma {:induction false} ChangesAreRates(f: Floats, reports: seq<DomainReport>)
    ensures Changes(f, reports) == RatesOf(f, reports)
  {
    hide Decimal;
    if reports != [] {
      ChangesPush(f, reports[0], reports[1..]);
      ChangesAreRates(f, reports[1..]);
      assert [reports[0]] + reports[1..] == reports;
    }
  }

  /** The last cell of the new row: the rates and the patterns. */
  lemma EffectReads(f: Floats, r: Report)
    ensures var rates := RatesOf(f, r.domains);
            Effect(f, r) == "Scores updated: "
                            + (if rates == [] then "none (insufficient samples)" else JoinWith(rates, ", "))
                            + ". Patterns: " + if r.patterns == [] then "none" else JoinWith(r.patterns, "; ")
    ensures RatesOf(f, r.domains) == [] <==> forall k :: 0 <= k < |r.domains| ==> !r.domains[k].rated
  {
    hide JoinWith, Changes, RatesOf;
    ChangesAreRates(f, r.domains);
    NoRates(f, r.domains);
  }

  lemma {:induction false} NoRates(f: Floats, reports: seq<DomainReport>)
    ensures RatesOf(f, reports) == [] <==> forall k :: 0 <= k < |reports| ==> !reports[k].rated
  {
    hide Decimal;
    if reports != [] {
      NoRates(f, reports[1..]);
      assert forall k :: 1 <= k < |reports| ==> reports[k] == reports[1..][k - 1];
      assert forall k :: 0 <= k < |reports[1..]| ==> reports[1..][k] == reports[k + 1];
    }
  }

  lemma MinerReads()
    ensures MINER == "Auto-miner (caliber Phase 3)"
  {
  }

  // ---- Entries after an update ----

  /** How many samples a night can add to one entry. */
  function SamplesOf(reports: seq<DomainReport>): nat {
    if reports == [] then 0 else SamplesOf(reports[..|reports| - 1]) + reports[|reports| - 1].samples
  }

  ghost predicate EntriesFit(entries: seq<Entry>, bound: nat) {
    forall k :: 0 <= k < |entries| ==>
      EntryText(entries[k]) && Unit(entries[k].confidence) && entries[k].samples < bound
  }

  lemma UpdateKeepsText(lower: string -> string, entries: seq<Entry>, dr: DomainReport, date: string, bound: nat)
    requires EntriesFit(entries, bound) && 1 <= bound && bound + dr.samples <= U64
    requires CellText(dr.domain) && CellText(date) && Unit(dr.rate)
    ensures EntriesFit(Updated(lower, entries, dr, date).0, bound + dr.samples)
  {
    hide Rounded, Weighted, Normal, CellText;
    if dr.rated {
      var at := Find(lower, entries, dr.domain);
      if at.Some? {
        ScoreMovesTowardsTheRate(entries[at.value], dr, date);
      } else {
        RoundedIsNear(dr.rate);
        EvidenceIsCell(dr.samples);
      }
    }
  }

  lemma {:induction false} NightKeepsText(
      lower: string -> string, entries: seq<Entry>, reports: seq<DomainReport>, date: string, bound: nat)
    requires EntriesFit(entries, bound) && 1 <= bound && bound + SamplesOf(reports) <= U64 && CellText(date)
    requires forall k :: 0 <= k < |reports| ==> CellText(reports[k].domain) && Unit(reports[k].rate)
    ensures EntriesFit(UpdatedAll(lower, entries, reports, date).0, bound + SamplesOf(reports))
    decreases |reports|
  {
    hide Updated, CellText, EntriesFit;
    if reports != [] {
      var init := reports[..|reports| - 1];
      NightKeepsText(lower, entries, init, date, bound);
      UpdateKeepsText(lower, UpdatedAll(lower, entries, init, date).0, reports[|reports| - 1], date,
          bound + SamplesOf(init));
    }
  }

  /** One line without dashes or bars. */
  predicate Bare(s: string) { Plain(s) && '|' !in s }

  lemma BareConcat(a: string, b: string)
    requires Bare(a) && Bare(b)
    ensures Bare(a + b)
  {
  }

  lemma EvidenceWordsAreBare()
    ensures Bare("detected from ") && Bare(" outcome records.")
  {
  }

  lemma NumberIsBare(n: nat)
    ensures Bare(Decimal(n))
  {
    NumbersAreCells(0, n);
  }

  lemma EvidenceIsCell(n: nat)
    ensures CellText(Evidence(n))
  {
    hide Contains, Bare, Plain, Decimal;
    EvidenceWordsAreBare();
    NumberIsBare(n);
    assert " outcome records."[16] == '.';
    BareConcat("detected from ", Decimal(n));
    BareConcat("detected from " + Decimal(n), " outcome records.");
    AutoCell("detected from " + Decimal(n) + " outcome records.");
  }

  lemma AutoCell(rest: string)
    requires Bare(rest) && rest != "" && !IsWhitespace(rest[|rest| - 1])
    ensures CellText(AUTO + rest)
  {
    hide Contains;
    AutoPart(rest);
    assert (AUTO + rest)[|AUTO + rest| - 1] == rest[|rest| - 1];
  }

  /** An update of a clean document is clean. */
  lemma UpdatedIsClean(f: Floats, lower: string -> string, doc: Document, r: Report, bound: nat)
    requires Clean(doc) && EntriesFit(doc.capabilities, bound) && CleanReport(r)
    requires 1 <= bound && bound + SamplesOf(r.domains) <= U64
    ensures var after := UpdatedDocument(f, lower, doc, r).0;
            Clean(after) && EntriesFit(after.capabilities, bound + SamplesOf(r.domains))
  {
    hide RowText, FreeOf, CellText, UpdatedAll, LogRow, MissRow, RowPart, CleanMiss;
    NightKeepsText(lower, doc.capabilities, r.domains, r.date, bound);
    DateIsPart(r);
    MissRowsAreRows(r.date, r.misses);
    LogRowIsRow(f, r);
  }
}
