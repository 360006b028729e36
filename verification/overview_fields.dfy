/**
 * The single-valued fields of the site overview (parse_overview.ts): the
 * site description, total visits with its change and time range, the
 * device split, the three ranks, the engagement metrics and the brand /
 * non-brand split of organic search.  Every field is "-" when the page
 * text does not carry it.
 */
module OverviewFields {
  import opened Text
  import opened Wrappers
  import opened Patterns
  import opened Lookup

  // ---------------------------------------------------------------------
  // Site description
  // ---------------------------------------------------------------------

  /** A description candidate: longer than 50 characters, not SimilarWeb's own text, not a heading. */
  predicate IsDescription(l: string) {
    |l| > 50 && !Contains(l, "SimilarWeb") && !StartsWith(l, "#")
  }

  /** Where the description is looked for: the first "Join " line, else the first line naming the domain. */
  function DescriptionAnchor(lines: seq<string>, domain: string): (a: int)
    ensures a == -1 || 0 <= a < |lines|
  {
    if FindLine(lines, "Join ", 0) != -1 then FindLine(lines, "Join ", 0) else FindLine(lines, domain, 0)
  }

  /** First line of the description window: two lines before the anchor. */
  function DescriptionStart(a: nat): nat {
    Max(0, a - 2)
  }

  /**
   * The site description: the first candidate line from two lines before
   * the anchor to four lines after it, or "-".
   */
  function SiteDescription(lines: seq<string>, domain: string): (r: string)
    ensures DescriptionAnchor(lines, domain) == -1 ==> r == "-"
    ensures r != "-" ==> IsDescription(r) && r in lines
    ensures var a := DescriptionAnchor(lines, domain);
      a >= 0 ==>
        (r == "-" <==> forall k :: DescriptionStart(a) <= k < WindowEnd(lines, a, 4) ==> !IsDescription(lines[k]))
    ensures var a := DescriptionAnchor(lines, domain);
      a >= 0 && r != "-" ==>
        exists k :: DescriptionStart(a) <= k < WindowEnd(lines, a, 4) && lines[k] == r
          && forall j :: DescriptionStart(a) <= j < k ==> !IsDescription(lines[j])
  {
    var a := DescriptionAnchor(lines, domain);
    if a < 0 then "-"
    else
      var k := FirstLineWhere(lines, DescriptionStart(a), WindowEnd(lines, a, 4), IsDescription);
      if k < 0 then "-" else lines[k]
  }

  /** The description loop. */
  method FindDescription(lines: seq<string>, domain: string) returns (d: string)
    ensures d == SiteDescription(lines, domain)
  {
    d := "-";
    var a := LocateLine(lines, "Join ", 0);
    if a == -1 {
      a := LocateLine(lines, domain, 0);
    }
    if a >= 0 {
      var lo, hi := DescriptionStart(a), WindowEnd(lines, a, 4);
      var i := lo;
      while i < hi
        invariant lo <= i
        invariant FirstLineWhere(lines, i, hi, IsDescription) == FirstLineWhere(lines, lo, hi, IsDescription)
        decreases hi - i
      {
        if IsDescription(lines[i]) {
          d := lines[i];
          break;
        }
        i := i + 1;
      }
    }
  }

  // ---------------------------------------------------------------------
  // Total visits
  // ---------------------------------------------------------------------

  predicate HasDateRange(l: string) { Matches(DateRange, l) }

  predicate HasMonthlyChange(l: string) { Matches(MonthlyChange, l) }

  /** The line headed exactly "总访问量", or -1. */
  function VisitsAnchor(lines: seq<string>): int {
    FindExactLine(lines, "总访问量", 0)
  }

  /** Total visits: the last whole-line volume among the four lines after "总访问量", or "-". */
  function TotalVisits(lines: seq<string>): (r: string)
    ensures r == "-" || IsVolume(r)
    ensures VisitsAnchor(lines) < 0 ==> r == "-"
  {
    var a := VisitsAnchor(lines);
    if a < 0 then "-"
    else
      LastLineWhereIsLast(lines, a + 1, WindowEnd(lines, a, 4), IsVolume);
      LastLine(lines, a + 1, WindowEnd(lines, a, 4), IsVolume)
  }

  /**
   * Total visits is the last line among the four after "总访问量" that is a
   * volume such as `5.2M` on its own; "-" exactly when there is none.
   */
  lemma TotalVisitsIsLastVolume(lines: seq<string>, a: nat)
    requires a == VisitsAnchor(lines)
    ensures TotalVisits(lines) == "-" <==> NoLineIn(lines, a + 1, WindowEnd(lines, a, 4), IsVolume)
    ensures TotalVisits(lines) != "-" ==> IsLastLine(lines, a + 1, WindowEnd(lines, a, 4), IsVolume, TotalVisits(lines))
  {
    VisitsReading(lines, a);
    assert !IsVolume("-");
    LastLineIsLast(lines, a + 1, WindowEnd(lines, a, 4), IsVolume);
  }

  /**
   * The month-over-month change: the signed percentage right before
   * "自上个月" on the last such line among the four after "总访问量", or "-".
   */
  function TotalVisitsChange(lines: seq<string>): (r: string)
    ensures r == "-" || IsSignedPercentText(r)
    ensures VisitsAnchor(lines) < 0 ==> r == "-"
  {
    var a := VisitsAnchor(lines);
    if a < 0 then "-" else LastFound(lines, a + 1, WindowEnd(lines, a, 4), HasMonthlyChange, MonthlyChange)
  }

  /** The change comes from the last line with a monthly change; "-" exactly when there is none. */
  lemma TotalVisitsChangeIsLast(lines: seq<string>, a: nat)
    requires a == VisitsAnchor(lines)
    ensures TotalVisitsChange(lines) == "-" <==> NoLineIn(lines, a + 1, WindowEnd(lines, a, 4), HasMonthlyChange)
    ensures TotalVisitsChange(lines) != "-" ==>
      FoundOnLast(lines, a + 1, WindowEnd(lines, a, 4), HasMonthlyChange, MonthlyChange, TotalVisitsChange(lines))
  {
    ChangeReading(lines, a);
    MonthlyChangeFound();
    LastFoundIsLast(lines, a + 1, WindowEnd(lines, a, 4), HasMonthlyChange, MonthlyChange);
  }

  /** Past the heading, total visits are read from the four-line window that follows it. */
  lemma VisitsReading(lines: seq<string>, a: nat)
    requires a == VisitsAnchor(lines)
    ensures TotalVisits(lines) == LastLine(lines, a + 1, WindowEnd(lines, a, 4), IsVolume)
  {
  }

  /** Past the heading, the change is read from the four-line window that follows it. */
  lemma ChangeReading(lines: seq<string>, a: nat)
    requires a == VisitsAnchor(lines)
    ensures TotalVisitsChange(lines) == LastFound(lines, a + 1, WindowEnd(lines, a, 4), HasMonthlyChange, MonthlyChange)
  {
  }

  /** Past the heading, the time range is read from the four-line window that follows it. */
  lemma RangeReading(lines: seq<string>, a: nat)
    requires a == VisitsAnchor(lines)
    ensures TimeRange(lines) == LastLine(lines, a + 1, WindowEnd(lines, a, 4), HasDateRange)
  {
  }

  /** A line with a monthly change yields one, and it is not "-". */
  lemma MonthlyChangeFound()
    ensures AlwaysFound(HasMonthlyChange, MonthlyChange)
  {
    forall l | HasMonthlyChange(l) ensures Find(MonthlyChange, l).Some? && Find(MonthlyChange, l).value != "-" {
      FindMatches(MonthlyChange, l);
    }
  }

  /** The reporting period: the last line among the four after "总访问量" holding a date range, or "-". */
  function TimeRange(lines: seq<string>): (r: string)
    ensures VisitsAnchor(lines) < 0 ==> r == "-"
  {
    var a := VisitsAnchor(lines);
    if a < 0 then "-" else LastLine(lines, a + 1, WindowEnd(lines, a, 4), HasDateRange)
  }

  /** The time range is the whole of the last date-range line; "-" exactly when there is none. */
  lemma TimeRangeIsLast(lines: seq<string>, a: nat)
    requires a == VisitsAnchor(lines)
    ensures TimeRange(lines) == "-" <==> NoLineIn(lines, a + 1, WindowEnd(lines, a, 4), HasDateRange)
    ensures TimeRange(lines) != "-" ==> IsLastLine(lines, a + 1, WindowEnd(lines, a, 4), HasDateRange, TimeRange(lines))
  {
    RangeReading(lines, a);
    DashIsNoDateRange();
    LastLineIsLast(lines, a + 1, WindowEnd(lines, a, 4), HasDateRange);
  }

  /** "-" holds no date range. */
  lemma DashIsNoDateRange()
    ensures !HasDateRange("-")
  {
    assert forall j :: 0 <= j <= 1 ==> MatchAt(DateRange, "-", j).None?;
  }

  /** The three readings of the visits window, given the last line passing each test. */
  lemma VisitsFromLast(lines: seq<string>, a: nat, kr: int, kv: int, kc: int)
    requires a == VisitsAnchor(lines)
    requires kr == LastLineWhere(lines, a + 1, WindowEnd(lines, a, 4), HasDateRange)
    requires kv == LastLineWhere(lines, a + 1, WindowEnd(lines, a, 4), IsVolume)
    requires kc == LastLineWhere(lines, a + 1, WindowEnd(lines, a, 4), HasMonthlyChange)
    ensures TimeRange(lines) == if kr >= 0 then lines[kr] else "-"
    ensures TotalVisits(lines) == if kv >= 0 then lines[kv] else "-"
    ensures TotalVisitsChange(lines) == if kc >= 0 then FindOr(MonthlyChange, lines[kc], "-") else "-"
  {
  }

  /**
   * The total-visits loop: one pass over the four lines after the heading,
   * remembering the last line holding a date range, the last whole-line
   * volume and the last line with a monthly change.
   */
  method ReadTotalVisits(lines: seq<string>) returns (visits: string, change: string, range: string)
    ensures visits == TotalVisits(lines)
    ensures change == TotalVisitsChange(lines)
    ensures range == TimeRange(lines)
  {
    visits, change, range := "-", "-", "-";
    var a := LocateExactLine(lines, "总访问量", 0);
    if a >= 0 {
      var kr, kv, kc := LastOfEach(lines, a + 1, WindowEnd(lines, a, 4), HasDateRange, IsVolume, HasMonthlyChange);
      VisitsFromLast(lines, a, kr, kv, kc);
      if kr >= 0 {
        range := lines[kr];
      }
      if kv >= 0 {
        visits := lines[kv];
      }
      if kc >= 0 {
        change := FindOr(MonthlyChange, lines[kc], "-");
      }
    }
  }

  // ---------------------------------------------------------------------
  // Values on a keyword line: device split, global rank
  // ---------------------------------------------------------------------

  /**
   * `r` is the leftmost match of `p` on the first line mentioning `keyword`,
   * or "-" when that line has none; "-" also when no line mentions `keyword`.
   */
  ghost predicate OnFirstLineWith(lines: seq<string>, keyword: string, p: Pattern, r: string) {
    || ((forall j :: 0 <= j < |lines| ==> !Contains(lines[j], keyword)) && r == "-")
    || exists k :: 0 <= k < |lines| && Contains(lines[k], keyword) && r == FindOr(p, lines[k], "-")
         && forall j :: 0 <= j < k ==> !Contains(lines[j], keyword)
  }

  /**
   * The leftmost match of `p` on the first line containing `keyword`, or
   * "-" when there is no such line or it carries no match.
   */
  function ValueOnLine(lines: seq<string>, keyword: string, p: Pattern): (r: string)
    ensures r == "-" || Shape(p, r)
    ensures FindLine(lines, keyword, 0) == -1 ==> r == "-"
    ensures var k := FindLine(lines, keyword, 0);
      k >= 0 ==> (Find(p, lines[k]).Some? ==> r == Find(p, lines[k]).value)
    ensures var k := FindLine(lines, keyword, 0);
      k >= 0 ==> (Find(p, lines[k]).None? ==> r == "-")
    ensures OnFirstLineWith(lines, keyword, p, r)
  {
    var k := FindLine(lines, keyword, 0);
    if k < 0 then "-" else FindOr(p, lines[k], "-")
  }

  /** Desktop share: the first `[\d.]+%` on the first "Desktop" line. */
  function DesktopShare(lines: seq<string>): (r: string)
    ensures r == "-" || IsDecimalPercent(r)
    ensures OnFirstLineWith(lines, "Desktop", DecimalPercent, r)
  {
    ValueOnLine(lines, "Desktop", DecimalPercent)
  }

  /** Mobile share: the first `[\d.]+%` on the first "Mobile Web" line. */
  function MobileShare(lines: seq<string>): (r: string)
    ensures r == "-" || IsDecimalPercent(r)
    ensures OnFirstLineWith(lines, "Mobile Web", DecimalPercent, r)
  {
    ValueOnLine(lines, "Mobile Web", DecimalPercent)
  }

  /** Global rank: the first `#digits` on the first "全球排名" line. */
  function GlobalRank(lines: seq<string>): (r: string)
    ensures r == "-" || IsRank(r)
    ensures OnFirstLineWith(lines, "全球排名", RankNumber, r)
  {
    ValueOnLine(lines, "全球排名", RankNumber)
  }

  // ---------------------------------------------------------------------
  // Country and industry ranks
  // ---------------------------------------------------------------------

  /** A rank together with the name of what it ranks within. */
  datatype RankEntry = RankEntry(name: string, rank: string)

  const CountryLabel: string := "国家/地区排名"

  const IndustryLabel: string := "行业排名"

  /** The name left after removing pieces from a line, trimmed; "-" when nothing is left. */
  function NameOrDash(rest: string): (r: string)
    ensures r != ""
    ensures r == "-" || IsTrimmed(r)
    ensures AllSpace(rest) ==> r == "-"
    ensures !AllSpace(rest) ==> r == Trim(rest)
  {
    TrimEmpty(rest);
    var t := Trim(rest);
    if t != "" then t else "-"
  }

  /**
   * A rank read from the line labelled `lead` (the country rank, with lead
   * "国家/地区排名"): the pattern `lead\s+(.+?)\s+#([\d,]+)` gives the name
   * and the rank; failing that, the rank is the first `#digits` on the line
   * and the name is what remains once the label and that rank are cut out.
   */
  function RankAfterOn(line: string, lead: string): (r: RankEntry)
    ensures r.rank == "-" || IsRank(r.rank)
    ensures r.name != ""
    ensures var c := SearchName(RankAfter(lead), line, 0);
      c.Some? ==>
        && r.name == line[c.value.nameStart..c.value.nameEnd]
        && r.rank == line[c.value.hash..c.value.end]
        && CaptureShape(line, c.value, true)
    ensures SearchName(RankAfter(lead), line, 0).None? ==>
      r.rank == FindOr(RankNumber, line, "-") && (r.name == "-" || IsTrimmed(r.name))
    ensures SearchName(RankAfter(lead), line, 0).None? ==>
      r.name == NameOrDash(RemoveMatch(RankNumber, RemoveMatch(Literal(lead), line)))
  {
    var c := SearchName(RankAfter(lead), line, 0);
    if c.Some? then CapturedEntry(line, c.value) else FallbackEntry(line, lead)
  }

  /** The name and rank the pattern captured. */
  function CapturedEntry(line: string, c: Capture): (r: RankEntry)
    requires CaptureShape(line, c, true)
    ensures IsRank(r.rank) && r.name != ""
    ensures r.name == line[c.nameStart..c.nameEnd] && r.rank == line[c.hash..c.end]
  {
    RankEntry(line[c.nameStart..c.nameEnd], line[c.hash..c.end])
  }

  /** Without the pattern: the first `#digits` as the rank, the rest of the line as the name. */
  function FallbackEntry(line: string, lead: string): (r: RankEntry)
    ensures r.rank == "-" || IsRank(r.rank)
    ensures r.name != "" && (r.name == "-" || IsTrimmed(r.name))
    ensures r.rank == FindOr(RankNumber, line, "-")
    ensures r.name == NameOrDash(RemoveMatch(RankNumber, RemoveMatch(Literal(lead), line)))
  {
    var rest := RemoveMatch(RankNumber, RemoveMatch(Literal(lead), line));
    RankOrDash(line);
    RankEntry(NameOrDash(rest), FindOr(RankNumber, line, "-"))
  }

  /** The first `#digits` of a line, or "-". */
  lemma RankOrDash(line: string)
    ensures var rank := FindOr(RankNumber, line, "-"); rank == "-" || IsRank(rank)
  {
    var rank := FindOr(RankNumber, line, "-");
    assert rank == "-" || Shape(RankNumber, rank);
  }

  /** The country rank: read from the first line mentioning "国家/地区排名", or "-" for both parts. */
  function CountryRank(lines: seq<string>): (r: RankEntry)
    ensures r.rank == "-" || IsRank(r.rank)
    ensures r.name != ""
    ensures FindLine(lines, CountryLabel, 0) == -1 ==> r == RankEntry("-", "-")
    ensures var k := FindLine(lines, CountryLabel, 0); k >= 0 ==> r == RankAfterOn(lines[k], CountryLabel)
  {
    var k := FindLine(lines, CountryLabel, 0);
    if k < 0 then RankEntry("-", "-") else RankAfterOn(lines[k], CountryLabel)
  }

  /**
   * A rank read from the line labelled `lead` (the industry rank, with lead
   * "行业排名"): the rank is the first `#digits`;
   * the name is what `\/\s*(.+?)\s+#` captures after a slash, failing that
   * what remains once the label, the rank and everything up to the last
   * slash are cut out.
   */
  function SlashRankOn(line: string, lead: string): (r: RankEntry)
    ensures r.rank == "-" || IsRank(r.rank)
    ensures r.name != ""
    ensures r.rank == FindOr(RankNumber, line, "-")
    ensures var c := SearchName(NameAfterSlash, line, 0);
      c.Some? ==> r.name == line[c.value.nameStart..c.value.nameEnd] && CaptureShape(line, c.value, false)
    ensures SearchName(NameAfterSlash, line, 0).None? ==> r.name == "-" || IsTrimmed(r.name)
    ensures SearchName(NameAfterSlash, line, 0).None? ==>
      r.name == NameOrDash(RemoveMatch(ThroughLastSlash, RemoveMatch(RankNumber, RemoveMatch(Literal(lead), line))))
  {
    var rank := FindOr(RankNumber, line, "-");
    assert rank == "-" || IsRank(rank);
    var c := SearchName(NameAfterSlash, line, 0);
    if c.Some? then RankEntry(line[c.value.nameStart..c.value.nameEnd], rank)
    else
      var rest := RemoveMatch(ThroughLastSlash, RemoveMatch(RankNumber, RemoveMatch(Literal(lead), line)));
      RankEntry(NameOrDash(rest), rank)
  }

  /** The industry rank: read from the first line mentioning "行业排名", or "-" for both parts. */
  function IndustryRank(lines: seq<string>): (r: RankEntry)
    ensures r.rank == "-" || IsRank(r.rank)
    ensures r.name != ""
    ensures FindLine(lines, IndustryLabel, 0) == -1 ==> r == RankEntry("-", "-")
    ensures var k := FindLine(lines, IndustryLabel, 0); k >= 0 ==> r == SlashRankOn(lines[k], IndustryLabel)
  {
    var k := FindLine(lines, IndustryLabel, 0);
    if k < 0 then RankEntry("-", "-") else SlashRankOn(lines[k], IndustryLabel)
  }

  // ---------------------------------------------------------------------
  // Engagement
  // ---------------------------------------------------------------------

  /** The line headed exactly "参与度概览", or -1. */
  function EngagementAnchor(lines: seq<string>): int {
    FindExactLine(lines, "参与度概览", 0)
  }

  /**
   * The line a metric is read after: the first line at or after the
   * engagement heading mentioning `heading`; -1 without the heading or
   * without such a line.
   */
  function MetricLine(lines: seq<string>, heading: string): (m: int)
    ensures EngagementAnchor(lines) < 0 ==> m == -1
    ensures EngagementAnchor(lines) >= 0 ==> m == FindLine(lines, heading, EngagementAnchor(lines))
    ensures m == -1 || EngagementAnchor(lines) <= m < |lines|
  {
    var e := EngagementAnchor(lines);
    if e < 0 then -1 else FindLine(lines, heading, e)
  }

  /**
   * An engagement metric: the first match of `p` among the five lines after
   * the metric's line, or "-" when there is no such line.
   */
  function Metric(lines: seq<string>, heading: string, p: Pattern): (r: string)
    ensures r == "-" || Shape(p, r)
    ensures MetricLine(lines, heading) < 0 ==> r == "-"
    ensures var m := MetricLine(lines, heading);
      m >= 0 ==> r == FindValueAfter(lines, m, p, 5)
  {
    var m := MetricLine(lines, heading);
    if m < 0 then "-" else FindValueAfter(lines, m, p, 5)
  }

  /**
   * Where a metric comes from: "-" without its line; otherwise what a search
   * of the five lines after that line gives, the match on the first line that
   * matches, and "-" when none does (for a pattern "-" itself does not
   * match, exactly then).
   */
  lemma MetricFromWindow(lines: seq<string>, heading: string, p: Pattern)
    ensures MetricLine(lines, heading) < 0 ==> Metric(lines, heading, p) == "-"
    ensures var m := MetricLine(lines, heading);
      m >= 0 ==> FirstValueIn(lines, m + 1, WindowEnd(lines, m, 5), p, Metric(lines, heading, p))
  {
    var m := MetricLine(lines, heading);
    if m >= 0 {
      assert Metric(lines, heading, p) == FindValueAfter(lines, m, p, 5);
      FindValueAfterIsFirst(lines, m, p, 5);
    }
  }

  /** None of the six metric shapes is "-", so a metric of "-" was not found. */
  lemma DashIsNoMetric()
    ensures !Shape(Amount, "-") && !Shape(Clock, "-") && !Shape(Decimal, "-") && !Shape(Percent, "-")
  {
    var d := "-";
    assert |d| == 1 && d[0] == '-';
    assert !In(NumChars, d[0]) && !In(DecChars, d[0]);
  }

  /** The engagement table. */
  datatype Engagement = Engagement(
    monthlyVisits: string, uniqueVisitors: string, dedupedAudience: string,
    visitDuration: string, pagesPerVisit: string, bounceRate: string)

  /** The six engagement metrics, each "-" or a value of its own shape (see Metric). */
  function EngagementOf(lines: seq<string>): Engagement
  {
    Engagement(
      Metric(lines, "每月访问量", Amount),
      Metric(lines, "月独立访客数", Amount),
      Metric(lines, "已消除重叠的受众", Amount),
      Metric(lines, "访问持续时间", Clock),
      Metric(lines, "页面数/访问", Decimal),
      Metric(lines, "跳出率", Percent))
  }

  // ---------------------------------------------------------------------
  // Organic search: brand and non-brand shares
  // ---------------------------------------------------------------------

  /** A line mentioning 品牌 (brand) but not 非品牌 (non-brand). */
  predicate MentionsBrand(l: string) {
    Contains(l, "品牌") && !Contains(l, "非品牌")
  }

  /** A line mentioning 非品牌. */
  predicate MentionsNonBrand(l: string) {
    Contains(l, "非品牌")
  }

  /** A brand line mentions 品牌 but not 非品牌 and carries a `[\d.]+%`. */
  predicate IsBrandLine(l: string) {
    MentionsBrand(l) && Matches(DecimalPercent, l)
  }

  /** A non-brand line mentions 非品牌 and carries a `[\d.]+%`. */
  predicate IsNonBrandLine(l: string) {
    MentionsNonBrand(l) && Matches(DecimalPercent, l)
  }

  /**
   * "非品牌" contains "品牌", so every non-brand line also mentions 品牌:
   * the brand test has to exclude 非品牌 explicitly.
   */
  lemma NonBrandMentionsBrand(l: string)
    requires Contains(l, "非品牌")
    ensures Contains(l, "品牌")
  {
    var k := IndexOf(l, "非品牌", 0);
    assert l[k + 1..k + 3] == l[k..k + 3][1..];
    assert OccursAt(l, "品牌", k + 1);
  }

  /** The line mentioning "自然搜索", or -1. */
  function OrganicAnchor(lines: seq<string>): int {
    FindLine(lines, "自然搜索", 0)
  }

  /** One past the last line read for the brand split: the anchor and the nine lines after it. */
  function OrganicEnd(lines: seq<string>, a: nat): (hi: nat)
    ensures hi <= |lines|
  {
    Min(a + 10, |lines|)
  }

  /**
   * The brand share: the `[\d.]+%` on the last brand line from the
   * "自然搜索" line to nine lines after it, or "-".
   */
  function BrandShare(lines: seq<string>): (r: string)
    ensures r == "-" || IsDecimalPercent(r)
    ensures OrganicAnchor(lines) == -1 ==> r == "-"
  {
    var a := OrganicAnchor(lines);
    if a < 0 then "-" else LastFound(lines, a, OrganicEnd(lines, a), IsBrandLine, DecimalPercent)
  }

  /**
   * The brand share comes from the last brand line of the window: "-" exactly
   * when there is none, otherwise that line's first `[\d.]+%`.
   */
  lemma BrandShareIsLast(lines: seq<string>, a: nat)
    requires a == OrganicAnchor(lines)
    ensures BrandShare(lines) == "-" <==> NoLineIn(lines, a, OrganicEnd(lines, a), IsBrandLine)
    ensures BrandShare(lines) != "-" ==> FoundOnLast(lines, a, OrganicEnd(lines, a), IsBrandLine, DecimalPercent, BrandShare(lines))
  {
    assert AlwaysFound(IsBrandLine, DecimalPercent) by {
      forall l | IsBrandLine(l) ensures Find(DecimalPercent, l).Some? && Find(DecimalPercent, l).value != "-" {
        FindMatches(DecimalPercent, l);
      }
    }
    LastFoundIsLast(lines, a, OrganicEnd(lines, a), IsBrandLine, DecimalPercent);
  }

  /** The non-brand share, read like BrandShare from the non-brand lines. */
  function NonBrandShare(lines: seq<string>): (r: string)
    ensures r == "-" || IsDecimalPercent(r)
    ensures OrganicAnchor(lines) == -1 ==> r == "-"
  {
    var a := OrganicAnchor(lines);
    if a < 0 then "-" else LastFound(lines, a, OrganicEnd(lines, a), IsNonBrandLine, DecimalPercent)
  }

  /**
   * The non-brand share comes from the last non-brand line of the window: "-" exactly
   * when there is none, otherwise that line's first `[\d.]+%`.
   */
  lemma NonBrandShareIsLast(lines: seq<string>, a: nat)
    requires a == OrganicAnchor(lines)
    ensures NonBrandShare(lines) == "-" <==> NoLineIn(lines, a, OrganicEnd(lines, a), IsNonBrandLine)
    ensures NonBrandShare(lines) != "-" ==> FoundOnLast(lines, a, OrganicEnd(lines, a), IsNonBrandLine, DecimalPercent, NonBrandShare(lines))
  {
    assert AlwaysFound(IsNonBrandLine, DecimalPercent) by {
      forall l | IsNonBrandLine(l) ensures Find(DecimalPercent, l).Some? && Find(DecimalPercent, l).value != "-" {
        FindMatches(DecimalPercent, l);
      }
    }
    LastFoundIsLast(lines, a, OrganicEnd(lines, a), IsNonBrandLine, DecimalPercent);
  }

  /** The brand / non-brand loop over the "自然搜索" line and the nine lines after it. */
  method ReadBrandShares(lines: seq<string>) returns (brand: string, nonBrand: string)
    ensures brand == BrandShare(lines)
    ensures nonBrand == NonBrandShare(lines)
  {
    brand, nonBrand := "-", "-";
    var a := LocateLine(lines, "自然搜索", 0);
    if a >= 0 {
      brand, nonBrand := LastFoundOfTwo(lines, a, OrganicEnd(lines, a),
        MentionsBrand, IsBrandLine, MentionsNonBrand, IsNonBrandLine, DecimalPercent);
    }
  }
}
