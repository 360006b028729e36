/**
 * The tables of the site overview (parse_overview.ts): competitors,
 * countries, traffic channels, organic search terms, top referring sites
 * and referring industries, social platforms and display-ad publishers.
 *
 * Each table but the channels is a bounded scan (module Scan) from an
 * anchor line: a row function says which rows a line gives, a stop
 * function which line ends the section.  `...From` says, in plain terms,
 * how a row relates to the line it was read from.
 */
module OverviewTables {
  import opened Text
  import opened Wrappers
  import opened Patterns
  import opened Lookup
  import opened Scan

  /** One past the last line a scan from anchor `a` reads: `span - 1` lines after it, clipped at the end. */
  function TableEnd(lines: seq<string>, a: nat, span: nat): (hi: nat)
    ensures hi <= |lines| && hi <= a + span
  {
    Min(a + span, |lines|)
  }

  /**
   * One table section: find the first line mentioning `heading` and scan
   * from `first` lines after it up to `span - 1` lines after it.
   */
  method ReadSection<R>(lines: seq<string>, heading: string, rowsAt: nat -> seq<R>, stopAt: nat -> bool, cap: Cap, first: nat, span: nat)
    returns (rows: seq<R>)
    ensures var a := FindLine(lines, heading, 0);
      rows == if a < 0 then [] else Rows(rowsAt, stopAt, cap, a + first, TableEnd(lines, a, span), [])
  {
    rows := [];
    var a := LocateLine(lines, heading, 0);
    if a >= 0 {
      rows := ScanTable(rowsAt, stopAt, cap, a + first, TableEnd(lines, a, span));
    }
  }

  /** The first match of `p` two lines below line `j`, or "-". */
  function ChangeBelow(lines: seq<string>, j: nat, p: Pattern): (r: string)
    ensures r == "-" || Shape(p, r)
    ensures j + 2 >= |lines| ==> r == "-"
  {
    if j + 2 < |lines| then FindOr(p, lines[j + 2], "-") else "-"
  }

  /**
   * A share read for a keyword line: the first `[\d.]+%` on the line
   * itself, else the first `[\d,.]+%` on one of the two lines below, else "-".
   */
  function ShareOnOrAfter(lines: seq<string>, j: nat): (r: string)
    requires j < |lines|
    ensures r == "-" || IsDecimalPercent(r) || IsBarePercent(r)
    ensures Find(DecimalPercent, lines[j]).Some? ==> r == Find(DecimalPercent, lines[j]).value
  {
    var pm := Find(DecimalPercent, lines[j]);
    if pm.Some? then pm.value else FindValueAfter(lines, j, Percent, 2)
  }

  // ---------------------------------------------------------------------
  // Competitors
  // ---------------------------------------------------------------------

  datatype Competitor = Competitor(site: string, visits: string)

  const CompetitorHeading: string := "随着时间的访问"

  /** A competitor read from line `j`: the line is a host name; the visits are the first amount on the two lines below. */
  predicate CompetitorFrom(lines: seq<string>, j: nat, c: Competitor) {
    j < |lines| && IsHostName(lines[j]) && c.site == lines[j] && c.visits == FindValueAfter(lines, j, Amount, 2)
  }

  function CompetitorAt(lines: seq<string>, j: nat): seq<Competitor> {
    if j < |lines| && IsHostName(lines[j]) then [Competitor(lines[j], FindValueAfter(lines, j, Amount, 2))] else []
  }

  function CompetitorRows(lines: seq<string>): nat -> seq<Competitor> {
    (j: nat) => CompetitorAt(lines, j)
  }

  /** The competitor section ends at the "地理分布" line or a line mentioning 热门国家. */
  function CompetitorStop(lines: seq<string>): nat -> bool {
    (j: nat) => j < |lines| && (lines[j] == "地理分布" || Contains(lines[j], "热门国家"))
  }

  function CompetitorFromFn(lines: seq<string>): (nat, Competitor) -> bool {
    (j: nat, c) => CompetitorFrom(lines, j, c)
  }

  /**
   * The competitor table: one row per host-name line among the 29 lines
   * after "随着时间的访问", up to the end of the section; no row cap.
   */
  function Competitors(lines: seq<string>): (rows: seq<Competitor>)
    ensures FindLine(lines, CompetitorHeading, 0) == -1 ==> rows == []
    ensures |rows| <= 29
    ensures forall c :: c in rows ==> IsHostName(c.site) && (c.visits == "-" || IsAmount(c.visits))
    ensures var a := FindLine(lines, CompetitorHeading, 0);
      a >= 0 ==> forall c :: c in rows ==>
        exists j: nat :: Before(CompetitorStop(lines), a + 1, j, TableEnd(lines, a, 30)) && CompetitorFrom(lines, j, c)
  {
    var a := FindLine(lines, CompetitorHeading, 0);
    if a < 0 then []
    else
      var hi := TableEnd(lines, a, 30);
      RowsBound(CompetitorRows(lines), CompetitorStop(lines), Unlimited, 1, a + 1, hi, []);
      RowsFromLines(CompetitorRows(lines), CompetitorStop(lines), Unlimited, a + 1, hi, CompetitorFromFn(lines));
      Rows(CompetitorRows(lines), CompetitorStop(lines), Unlimited, a + 1, hi, [])
  }

  /** The competitor table is every host-name row of the section, in line order. */
  lemma CompetitorsExact(lines: seq<string>)
    ensures var a := FindLine(lines, CompetitorHeading, 0);
      a >= 0 ==> Competitors(lines) == AllRows(CompetitorRows(lines), a + 1, SectionEnd(CompetitorStop(lines), a + 1, TableEnd(lines, a, 30)))
  {
    var a := FindLine(lines, CompetitorHeading, 0);
    if a >= 0 {
      RowsUncapped(CompetitorRows(lines), CompetitorStop(lines), a + 1, TableEnd(lines, a, 30), []);
    }
  }

  /** The Competitors scan as the extractor runs it. */
  method ReadCompetitors(lines: seq<string>) returns (rows: seq<Competitor>)
    ensures rows == Competitors(lines)
  {
    rows := ReadSection(lines, CompetitorHeading, CompetitorRows(lines), CompetitorStop(lines), Unlimited, 1, 30);
  }

  // ---------------------------------------------------------------------
  // Geography
  // ---------------------------------------------------------------------

  datatype GeoEntry = GeoEntry(country: string, share: string, change: string)

  const GeoHeading: string := "热门国家/地区"

  /** The change of a country row: the second `[\d.]+%` of its line with a "+" in front, or "-". */
  function GeoChange(l: string): (r: string)
    ensures r == "-" || (|r| >= 1 && r[0] == '+' && IsDecimalPercent(r[1..]))
  {
    var second := SecondFind(DecimalPercent, l);
    if second.Some? then
      assert ("+" + second.value)[1..] == second.value;
      "+" + second.value
    else "-"
  }

  /**
   * A country read from line `j`: the line carries a `[\d.]+%`, the share;
   * the country is the line above, which carries none and is shorter than
   * 30 characters.
   */
  predicate GeoFrom(lines: seq<string>, j: nat, g: GeoEntry) {
    && 1 <= j < |lines| && Find(DecimalPercent, lines[j]).Some?
    && g.country == lines[j - 1] && g.country != "" && |g.country| < 30 && !Matches(DecimalPercent, g.country)
    && g.share == Find(DecimalPercent, lines[j]).value
    && g.change == GeoChange(lines[j])
  }

  function GeoAt(lines: seq<string>, j: nat): seq<GeoEntry> {
    if j < |lines| && Find(DecimalPercent, lines[j]).Some? then
      var above := if j >= 1 then lines[j - 1] else "";
      var country := if above != "" && !Matches(DecimalPercent, above) then above else "";
      if country != "" && |country| < 30 then
        [GeoEntry(country, Find(DecimalPercent, lines[j]).value, GeoChange(lines[j]))]
      else []
    else []
  }

  function GeoRows(lines: seq<string>): nat -> seq<GeoEntry> {
    (j: nat) => GeoAt(lines, j)
  }

  /** The geography section ends at the "流量来源" line or a line mentioning 渠道概况. */
  function GeoStop(lines: seq<string>): nat -> bool {
    (j: nat) => j < |lines| && (lines[j] == "流量来源" || Contains(lines[j], "渠道概况"))
  }

  function GeoFromFn(lines: seq<string>): (nat, GeoEntry) -> bool {
    (j: nat, g) => GeoFrom(lines, j, g)
  }

  /** The shape of a country row. */
  predicate GeoShaped(g: GeoEntry) {
    IsDecimalPercent(g.share) && (g.change == "-" || (|g.change| >= 1 && g.change[0] == '+' && IsDecimalPercent(g.change[1..])))
  }

  /**
   * The top-countries table: at most five rows, read from the 29 lines
   * after "热门国家/地区" up to the end of the section.
   */
  function GeoData(lines: seq<string>): (rows: seq<GeoEntry>)
    ensures FindLine(lines, GeoHeading, 0) == -1 ==> rows == []
    ensures |rows| <= 5
    ensures forall g :: g in rows ==> GeoShaped(g)
    ensures var a := FindLine(lines, GeoHeading, 0);
      a >= 0 ==> forall g :: g in rows ==>
        exists j: nat :: Before(GeoStop(lines), a + 1, j, TableEnd(lines, a, 30)) && GeoFrom(lines, j, g)
  {
    var a := FindLine(lines, GeoHeading, 0);
    if a < 0 then []
    else
      var hi := TableEnd(lines, a, 30);
      RowsCapped(GeoRows(lines), GeoStop(lines), 5, a + 1, hi, []);
      RowsFromLines(GeoRows(lines), GeoStop(lines), AtMost(5), a + 1, hi, GeoFromFn(lines));
      RowsWithin(GeoRows(lines), GeoStop(lines), AtMost(5), a + 1, hi, [], GeoShaped);
      Rows(GeoRows(lines), GeoStop(lines), AtMost(5), a + 1, hi, [])
  }

  /**
   * The top-countries table is the first five country rows of the section,
   * in line order, or all of them when there are fewer.
   */
  lemma GeoDataExact(lines: seq<string>)
    ensures var a := FindLine(lines, GeoHeading, 0);
      a >= 0 ==> var all := AllRows(GeoRows(lines), a + 1, SectionEnd(GeoStop(lines), a + 1, TableEnd(lines, a, 30)));
        GeoData(lines) == if |all| <= 5 then all else all[..5]
  {
    var a := FindLine(lines, GeoHeading, 0);
    if a >= 0 {
      GeoRowsSingle(lines);
      FirstRows(GeoRows(lines), GeoStop(lines), 5, a + 1, TableEnd(lines, a, 30));
    }
  }

  /** Each line gives at most one country row. */
  lemma GeoRowsSingle(lines: seq<string>)
    ensures forall j :: |GeoRows(lines)(j)| <= 1
  {
    forall j: nat ensures |GeoRows(lines)(j)| <= 1 {
      assert GeoRows(lines)(j) == GeoAt(lines, j);
    }
  }

  /** The GeoData scan as the extractor runs it. */
  method ReadGeoData(lines: seq<string>) returns (rows: seq<GeoEntry>)
    ensures rows == GeoData(lines)
  {
    rows := ReadSection(lines, GeoHeading, GeoRows(lines), GeoStop(lines), AtMost(5), 1, 30);
  }

  // ---------------------------------------------------------------------
  // Traffic channels
  // ---------------------------------------------------------------------

  datatype Channel = Channel(name: string, share: string)

  /** The channels, in the order they are reported. */
  const ChannelNames: seq<string> := ["直接", "有机搜索", "付费搜索", "外链", "显示广告", "社交", "电子邮件"]

  predicate Distinct(names: seq<string>) {
    forall i, j :: 0 <= i < j < |names| ==> names[i] != names[j]
  }

  /** The share read for the first line mentioning `name`, or "-" when no line does. */
  function ShareOf(lines: seq<string>, name: string): string {
    var k := FindLine(lines, name, 0);
    if k < 0 then "-" else ShareOnOrAfter(lines, k)
  }

  /** The entry for one channel: present when some line mentions it, with the share read for that line. */
  function ChannelOf(lines: seq<string>, name: string): seq<Channel> {
    if FindLine(lines, name, 0) < 0 then [] else [Channel(name, ShareOf(lines, name))]
  }

  /** Whether some line mentions a name. */
  function Mentioned(lines: seq<string>): string -> bool {
    (nm: string) => FindLine(lines, nm, 0) >= 0
  }

  /**
   * The entries for `names`, in their order: one for each name some line
   * mentions, none for the others.
   */
  function ChannelsFor(lines: seq<string>, names: seq<string>): (r: seq<Channel>)
    ensures |r| <= |names|
    ensures forall c :: c in r ==>
      c.name in names && FindLine(lines, c.name, 0) >= 0 && c.share == ShareOnOrAfter(lines, FindLine(lines, c.name, 0))
    ensures forall nm :: nm in names && FindLine(lines, nm, 0) >= 0 ==> exists c :: c in r && c.name == nm
    ensures Distinct(names) ==> forall i, j :: 0 <= i < j < |r| ==> r[i].name != r[j].name
    decreases |names|
  {
    if names == [] then []
    else
      var init, last := names[..|names| - 1], names[|names| - 1];
      assert names == init + [last];
      var r := ChannelsFor(lines, init) + ChannelOf(lines, last);
      r
  }

  /**
   * The entries for `names` are those of the names some line mentions, in
   * the order of `names`, each with the share read for its first line.
   */
  lemma {:induction false} ChannelsForInOrder(lines: seq<string>, names: seq<string>)
    ensures var r, found := ChannelsFor(lines, names), Filter(names, Mentioned(lines));
      |r| == |found| && forall k :: 0 <= k < |r| ==> r[k] == Channel(found[k], ShareOf(lines, found[k]))
    decreases |names|
  {
    if names != [] {
      var init, last := names[..|names| - 1], names[|names| - 1];
      assert names == init + [last];
      ChannelsForInOrder(lines, init);
      FilterSnoc(init, last, Mentioned(lines));
      var r0, f0 := ChannelsFor(lines, init), Filter(init, Mentioned(lines));
      var r, found := ChannelsFor(lines, names), Filter(names, Mentioned(lines));
      assert r == r0 + ChannelOf(lines, last);
      assert found == f0 + (if Mentioned(lines)(last) then [last] else []);
      forall k | 0 <= k < |r| ensures r[k] == Channel(found[k], ShareOf(lines, found[k])) {
        if k < |r0| {
          assert r[k] == r0[k] && found[k] == f0[k];
        } else {
          assert r[k] == ChannelOf(lines, last)[0] && found[k] == last;
        }
      }
    }
  }

  /** The channel table. */
  function Channels(lines: seq<string>): (r: seq<Channel>)
    ensures |r| <= |ChannelNames|
    ensures forall i, j :: 0 <= i < j < |r| ==> r[i].name != r[j].name
    ensures forall c :: c in r ==> c.name in ChannelNames
    ensures forall nm :: nm in ChannelNames ==> (FindLine(lines, nm, 0) >= 0 <==> exists c :: c in r && c.name == nm)
  {
    assert Distinct(ChannelNames);
    ChannelsFor(lines, ChannelNames)
  }

  /**
   * The channel table lists the channels some line mentions, in the fixed
   * order 直接, 有机搜索, 付费搜索, 外链, 显示广告, 社交, 电子邮件, each with
   * the share read for the first line mentioning it.
   */
  lemma ChannelsInOrder(lines: seq<string>)
    ensures var r, found := Channels(lines), Filter(ChannelNames, Mentioned(lines));
      |r| == |found| && forall k :: 0 <= k < |r| ==> r[k] == Channel(found[k], ShareOf(lines, found[k]))
  {
    ChannelsForInOrder(lines, ChannelNames);
  }

  /** The channel loop: for each channel name in order, look it up and read its share. */
  method ReadChannels(lines: seq<string>) returns (channels: seq<Channel>)
    ensures channels == Channels(lines)
  {
    channels := [];
    for k := 0 to |ChannelNames|
      invariant channels == ChannelsFor(lines, ChannelNames[..k])
    {
      var ch := ChannelNames[k];
      var entry: seq<Channel> := [];
      var idx := LocateLine(lines, ch, 0);
      if idx >= 0 {
        var pm := Find(DecimalPercent, lines[idx]);
        if pm.Some? {
          entry := [Channel(ch, pm.value)];
        } else {
          var next := ValueAfter(lines, idx, Percent, 2);
          entry := [Channel(ch, next)];
        }
      }
      assert entry == ChannelOf(lines, ch);
      ChannelsStep(lines, ChannelNames, k);
      channels := channels + entry;
    }
    assert ChannelNames[..|ChannelNames|] == ChannelNames;
  }

  /** One more name adds that name's entry, if any, at the end. */
  lemma ChannelsStep(lines: seq<string>, names: seq<string>, k: nat)
    requires k < |names|
    ensures ChannelsFor(lines, names[..k + 1]) == ChannelsFor(lines, names[..k]) + ChannelOf(lines, names[k])
  {
    assert names[..k + 1][..k] == names[..k];
  }

  /** `channels.find(c => c.name === name)`: the share of the first entry with that name. */
  function FindChannel(channels: seq<Channel>, name: string): Option<string> {
    if channels == [] then None
    else if channels[0].name == name then Some(channels[0].share)
    else FindChannel(channels[1..], name)
  }

  /** The lookup finds nothing exactly when no entry has the name, and otherwise the share of the first entry that has it. */
  lemma {:induction false} FindChannelFirst(channels: seq<Channel>, name: string)
    ensures FindChannel(channels, name).None? <==> forall c :: c in channels ==> c.name != name
    ensures FindChannel(channels, name).Some? ==>
      exists i :: 0 <= i < |channels| && channels[i].name == name && channels[i].share == FindChannel(channels, name).value
        && forall j :: 0 <= j < i ==> channels[j].name != name
    decreases |channels|
  {
    if channels != [] && channels[0].name != name {
      FindChannelFirst(channels[1..], name);
      assert channels == [channels[0]] + channels[1..];
      if FindChannel(channels, name).Some? {
        var i :| 0 <= i < |channels[1..]| && channels[1..][i].name == name && channels[1..][i].share == FindChannel(channels, name).value
          && forall j :: 0 <= j < i ==> channels[1..][j].name != name;
        assert channels[i + 1] == channels[1..][i];
      }
    }
  }

  /**
   * Looking a channel up in the table gives the share read for the first
   * line mentioning it, and nothing when no line does.
   */
  lemma ChannelLookup(lines: seq<string>, name: string)
    requires name in ChannelNames
    ensures var k := FindLine(lines, name, 0);
      FindChannel(Channels(lines), name) == if k < 0 then None else Some(ShareOnOrAfter(lines, k))
  {
    var r := Channels(lines);
    var k := FindLine(lines, name, 0);
    FindChannelFirst(r, name);
    if k >= 0 {
      var i :| 0 <= i < |r| && r[i].name == name && r[i].share == FindChannel(r, name).value;
      assert r[i] in r;
    }
  }

  // ---------------------------------------------------------------------
  // Organic search terms
  // ---------------------------------------------------------------------

  datatype SearchTerm = SearchTerm(term: string, share: string, change: string)

  const TermHeading: string := "热门自然非品牌搜索词"

  /** `[\w\s/-]` */
  predicate IsTermChar(c: char) {
    IsWordChar(c) || IsSpace(c) || c == '/' || c == '-'
  }

  /**
   * A search-term line: `^[\w\s/-]+$`, shorter than 50 characters, not
   * starting with a digit, mentioning neither 热门 nor 付费.
   */
  predicate IsTermLine(l: string) {
    l != [] && (forall i :: 0 <= i < |l| ==> IsTermChar(l[i])) && |l| < 50 && !IsDigit(l[0]) && !Contains(l, "热门") && !Contains(l, "付费")
  }

  /**
   * A search term read from line `j`: a term line, its share the first
   * `[\d,.]+%` on the two lines below (a term without one is skipped), its
   * change the first signed percentage two lines below.
   */
  predicate TermFrom(lines: seq<string>, j: nat, t: SearchTerm) {
    && j < |lines| && IsTermLine(lines[j]) && t.term == lines[j]
    && t.share == FindValueAfter(lines, j, Percent, 2) && t.share != "-"
    && t.change == ChangeBelow(lines, j, SignedPercent)
  }

  function TermAt(lines: seq<string>, j: nat): seq<SearchTerm> {
    if j < |lines| && IsTermLine(lines[j]) then
      var share := FindValueAfter(lines, j, Percent, 2);
      if share != "-" then [SearchTerm(lines[j], share, ChangeBelow(lines, j, SignedPercent))] else []
    else []
  }

  function TermRows(lines: seq<string>): nat -> seq<SearchTerm> {
    (j: nat) => TermAt(lines, j)
  }

  /** The term section ends at a line mentioning 付费搜索. */
  function TermStop(lines: seq<string>): nat -> bool {
    (j: nat) => j < |lines| && (lines[j] == "付费搜索" || Contains(lines[j], "付费搜索"))
  }

  function TermFromFn(lines: seq<string>): (nat, SearchTerm) -> bool {
    (j: nat, t) => TermFrom(lines, j, t)
  }

  predicate TermShaped(t: SearchTerm) {
    IsBarePercent(t.share) && (t.change == "-" || IsSignedPercentText(t.change))
  }

  /** Every row the term scan reads at a line is a term read from that line, with a share and a change of the right shapes. */
  lemma TermRowsShaped(lines: seq<string>)
    ensures forall j :: |TermRows(lines)(j)| <= 1
    ensures forall j: nat, t :: t in TermRows(lines)(j) ==> TermFromFn(lines)(j, t) && TermShaped(t)
  {
    forall j: nat ensures |TermRows(lines)(j)| <= 1 {
      assert TermRows(lines)(j) == TermAt(lines, j);
    }
    forall j: nat, t | t in TermRows(lines)(j) ensures TermFromFn(lines)(j, t) && TermShaped(t) {
      assert TermRows(lines)(j) == TermAt(lines, j);
      TermAtShaped(lines, j, t);
      assert TermFromFn(lines)(j, t) == TermFrom(lines, j, t);
    }
  }

  lemma TermAtShaped(lines: seq<string>, j: nat, t: SearchTerm)
    requires t in TermAt(lines, j)
    ensures TermFrom(lines, j, t) && TermShaped(t)
  {
    var share := FindValueAfter(lines, j, Percent, 2);
    assert share != "-" ==> IsBarePercent(share);
  }

  /**
   * The top organic non-brand search terms: at most five, read from the 29
   * lines after "热门自然非品牌搜索词" up to the paid-search section.
   */
  function OrganicTerms(lines: seq<string>): (rows: seq<SearchTerm>)
    ensures FindLine(lines, TermHeading, 0) == -1 ==> rows == []
    ensures |rows| <= 5
    ensures forall t :: t in rows ==> TermShaped(t)
    ensures var a := FindLine(lines, TermHeading, 0);
      a >= 0 ==> forall t :: t in rows ==>
        exists j: nat :: Before(TermStop(lines), a + 1, j, TableEnd(lines, a, 30)) && TermFrom(lines, j, t)
  {
    var a := FindLine(lines, TermHeading, 0);
    if a < 0 then []
    else
      var hi := TableEnd(lines, a, 30);
      TermRowsShaped(lines);
      RowsCapped(TermRows(lines), TermStop(lines), 5, a + 1, hi, []);
      RowsFromLines(TermRows(lines), TermStop(lines), AtMost(5), a + 1, hi, TermFromFn(lines));
      RowsWithin(TermRows(lines), TermStop(lines), AtMost(5), a + 1, hi, [], TermShaped);
      Rows(TermRows(lines), TermStop(lines), AtMost(5), a + 1, hi, [])
  }

  /**
   * The search-term table is the first five term rows of the section, in
   * line order, or all of them when there are fewer.
   */
  lemma OrganicTermsExact(lines: seq<string>)
    ensures var a := FindLine(lines, TermHeading, 0);
      a >= 0 ==> var all := AllRows(TermRows(lines), a + 1, SectionEnd(TermStop(lines), a + 1, TableEnd(lines, a, 30)));
        OrganicTerms(lines) == if |all| <= 5 then all else all[..5]
  {
    var a := FindLine(lines, TermHeading, 0);
    if a >= 0 {
      TermRowsSingle(lines);
      FirstRows(TermRows(lines), TermStop(lines), 5, a + 1, TableEnd(lines, a, 30));
    }
  }

  /** Each line gives at most one search-term row. */
  lemma TermRowsSingle(lines: seq<string>)
    ensures forall j :: |TermRows(lines)(j)| <= 1
  {
    forall j: nat ensures |TermRows(lines)(j)| <= 1 {
      assert TermRows(lines)(j) == TermAt(lines, j);
    }
  }

  /** The OrganicTerms scan as the extractor runs it. */
  method ReadOrganicTerms(lines: seq<string>) returns (rows: seq<SearchTerm>)
    ensures rows == OrganicTerms(lines)
  {
    rows := ReadSection(lines, TermHeading, TermRows(lines), TermStop(lines), AtMost(5), 1, 30);
  }

  // ---------------------------------------------------------------------
  // Top referring sites
  // ---------------------------------------------------------------------

  datatype ReferralEntry = ReferralEntry(domain: string, share: string, change: string)

  const ReferralHeading: string := "热门外链网站"

  /**
   * A referring site read from line `j`: a host-name line, its share the
   * first `[\d,.]+%` on the two lines below, its change the first signed
   * percentage two lines below.
   */
  predicate ReferralFrom(lines: seq<string>, j: nat, r: ReferralEntry) {
    && j < |lines| && IsHostName(lines[j])
    && r == ReferralEntry(lines[j], FindValueAfter(lines, j, Percent, 2), ChangeBelow(lines, j, SignedPercent))
  }

  function ReferralAt(lines: seq<string>, j: nat): seq<ReferralEntry> {
    if j < |lines| && IsHostName(lines[j]) then
      [ReferralEntry(lines[j], FindValueAfter(lines, j, Percent, 2), ChangeBelow(lines, j, SignedPercent))]
    else []
  }

  function ReferralRows(lines: seq<string>): nat -> seq<ReferralEntry> {
    (j: nat) => ReferralAt(lines, j)
  }

  /** The referring-site section ends at a line mentioning 热门外链行业. */
  function ReferralStop(lines: seq<string>): nat -> bool {
    (j: nat) => j < |lines| && Contains(lines[j], "热门外链行业")
  }

  function ReferralFromFn(lines: seq<string>): (nat, ReferralEntry) -> bool {
    (j: nat, r) => ReferralFrom(lines, j, r)
  }

  predicate ReferralShaped(r: ReferralEntry) {
    IsHostName(r.domain) && (r.share == "-" || IsBarePercent(r.share)) && (r.change == "-" || IsSignedPercentText(r.change))
  }

  /** Every line gives at most one referring site, read from that line and of the right shape. */
  lemma ReferralRowsShaped(lines: seq<string>)
    ensures forall j :: |ReferralRows(lines)(j)| <= 1
    ensures forall j: nat, r :: r in ReferralRows(lines)(j) ==> ReferralFromFn(lines)(j, r) && ReferralShaped(r)
  {
    forall j: nat ensures |ReferralRows(lines)(j)| <= 1 {
      assert ReferralRows(lines)(j) == ReferralAt(lines, j);
    }
    forall j: nat, r | r in ReferralRows(lines)(j) ensures ReferralFromFn(lines)(j, r) && ReferralShaped(r) {
      assert ReferralRows(lines)(j) == ReferralAt(lines, j);
      ReferralAtShaped(lines, j, r);
      assert ReferralFromFn(lines)(j, r) == ReferralFrom(lines, j, r);
    }
  }

  lemma ReferralAtShaped(lines: seq<string>, j: nat, r: ReferralEntry)
    requires r in ReferralAt(lines, j)
    ensures ReferralFrom(lines, j, r) && ReferralShaped(r)
  {
    var share := FindValueAfter(lines, j, Percent, 2);
    assert share != "-" ==> IsBarePercent(share);
  }

  /**
   * The top referring sites: at most five, read from the 29 lines after
   * "热门外链网站" up to the referring-industry section.
   */
  function TopReferrals(lines: seq<string>): (rows: seq<ReferralEntry>)
    ensures FindLine(lines, ReferralHeading, 0) == -1 ==> rows == []
    ensures |rows| <= 5
    ensures forall r :: r in rows ==> ReferralShaped(r)
    ensures var a := FindLine(lines, ReferralHeading, 0);
      a >= 0 ==> forall r :: r in rows ==>
        exists j: nat :: Before(ReferralStop(lines), a + 1, j, TableEnd(lines, a, 30)) && ReferralFrom(lines, j, r)
  {
    var a := FindLine(lines, ReferralHeading, 0);
    if a < 0 then []
    else
      var hi := TableEnd(lines, a, 30);
      ReferralRowsShaped(lines);
      RowsCapped(ReferralRows(lines), ReferralStop(lines), 5, a + 1, hi, []);
      RowsFromLines(ReferralRows(lines), ReferralStop(lines), AtMost(5), a + 1, hi, ReferralFromFn(lines));
      RowsWithin(ReferralRows(lines), ReferralStop(lines), AtMost(5), a + 1, hi, [], ReferralShaped);
      Rows(ReferralRows(lines), ReferralStop(lines), AtMost(5), a + 1, hi, [])
  }

  /**
   * The referring-site table is the first five host-name rows of the
   * section, in line order, or all of them when there are fewer.
   */
  lemma TopReferralsExact(lines: seq<string>)
    ensures var a := FindLine(lines, ReferralHeading, 0);
      a >= 0 ==> var all := AllRows(ReferralRows(lines), a + 1, SectionEnd(ReferralStop(lines), a + 1, TableEnd(lines, a, 30)));
        TopReferrals(lines) == if |all| <= 5 then all else all[..5]
  {
    var a := FindLine(lines, ReferralHeading, 0);
    if a >= 0 {
      ReferralRowsSingle(lines);
      FirstRows(ReferralRows(lines), ReferralStop(lines), 5, a + 1, TableEnd(lines, a, 30));
    }
  }

  /** Each line gives at most one referring-site row. */
  lemma ReferralRowsSingle(lines: seq<string>)
    ensures forall j :: |ReferralRows(lines)(j)| <= 1
  {
    forall j: nat ensures |ReferralRows(lines)(j)| <= 1 {
      assert ReferralRows(lines)(j) == ReferralAt(lines, j);
    }
  }

  /** The TopReferrals scan as the extractor runs it. */
  method ReadTopReferrals(lines: seq<string>) returns (rows: seq<ReferralEntry>)
    ensures rows == TopReferrals(lines)
  {
    rows := ReadSection(lines, ReferralHeading, ReferralRows(lines), ReferralStop(lines), AtMost(5), 1, 30);
  }

  // ---------------------------------------------------------------------
  // Top referring industries
  // ---------------------------------------------------------------------

  datatype RefIndustry = RefIndustry(category: string, share: string)

  const RefIndustryHeading: string := "热门外链行业"

  /**
   * A referring industry read from line `j`: the line carries a `[\d.]+%`,
   * the share; the category is the non-empty line above, which carries none.
   */
  predicate RefIndustryFrom(lines: seq<string>, j: nat, r: RefIndustry) {
    && 1 <= j < |lines| && Find(DecimalPercent, lines[j]).Some?
    && lines[j - 1] != "" && !Matches(DecimalPercent, lines[j - 1])
    && r == RefIndustry(lines[j - 1], Find(DecimalPercent, lines[j]).value)
  }

  function RefIndustryAt(lines: seq<string>, j: nat): seq<RefIndustry> {
    if 1 <= j < |lines| && Find(DecimalPercent, lines[j]).Some? && lines[j - 1] != "" && !Matches(DecimalPercent, lines[j - 1]) then
      [RefIndustry(lines[j - 1], Find(DecimalPercent, lines[j]).value)]
    else []
  }

  function RefIndustryRows(lines: seq<string>): nat -> seq<RefIndustry> {
    (j: nat) => RefIndustryAt(lines, j)
  }

  /** The referring-industry section ends at a line mentioning 出站 (outgoing traffic). */
  function RefIndustryStop(lines: seq<string>): nat -> bool {
    (j: nat) => j < |lines| && (lines[j] == "出站流量" || Contains(lines[j], "出站"))
  }

  function RefIndustryFromFn(lines: seq<string>): (nat, RefIndustry) -> bool {
    (j: nat, r) => RefIndustryFrom(lines, j, r)
  }

  predicate RefIndustryShaped(r: RefIndustry) {
    r.category != "" && IsDecimalPercent(r.share)
  }

  /**
   * The top referring industries: at most five, read from the 29 lines
   * after "热门外链行业" up to the outgoing-traffic section.
   */
  function RefIndustries(lines: seq<string>): (rows: seq<RefIndustry>)
    ensures FindLine(lines, RefIndustryHeading, 0) == -1 ==> rows == []
    ensures |rows| <= 5
    ensures forall r :: r in rows ==> RefIndustryShaped(r)
    ensures var a := FindLine(lines, RefIndustryHeading, 0);
      a >= 0 ==> forall r :: r in rows ==>
        exists j: nat :: Before(RefIndustryStop(lines), a + 1, j, TableEnd(lines, a, 30)) && RefIndustryFrom(lines, j, r)
  {
    var a := FindLine(lines, RefIndustryHeading, 0);
    if a < 0 then []
    else
      var hi := TableEnd(lines, a, 30);
      RowsCapped(RefIndustryRows(lines), RefIndustryStop(lines), 5, a + 1, hi, []);
      RowsFromLines(RefIndustryRows(lines), RefIndustryStop(lines), AtMost(5), a + 1, hi, RefIndustryFromFn(lines));
      RowsWithin(RefIndustryRows(lines), RefIndustryStop(lines), AtMost(5), a + 1, hi, [], RefIndustryShaped);
      Rows(RefIndustryRows(lines), RefIndustryStop(lines), AtMost(5), a + 1, hi, [])
  }

  /**
   * The referring-industry table is the first five industry rows of the
   * section, in line order, or all of them when there are fewer.
   */
  lemma RefIndustriesExact(lines: seq<string>)
    ensures var a := FindLine(lines, RefIndustryHeading, 0);
      a >= 0 ==> var all := AllRows(RefIndustryRows(lines), a + 1, SectionEnd(RefIndustryStop(lines), a + 1, TableEnd(lines, a, 30)));
        RefIndustries(lines) == if |all| <= 5 then all else all[..5]
  {
    var a := FindLine(lines, RefIndustryHeading, 0);
    if a >= 0 {
      RefIndustryRowsSingle(lines);
      FirstRows(RefIndustryRows(lines), RefIndustryStop(lines), 5, a + 1, TableEnd(lines, a, 30));
    }
  }

  /** Each line gives at most one referring-industry row. */
  lemma RefIndustryRowsSingle(lines: seq<string>)
    ensures forall j :: |RefIndustryRows(lines)(j)| <= 1
  {
    forall j: nat ensures |RefIndustryRows(lines)(j)| <= 1 {
      assert RefIndustryRows(lines)(j) == RefIndustryAt(lines, j);
    }
  }

  /** The RefIndustries scan as the extractor runs it. */
  method ReadRefIndustries(lines: seq<string>) returns (rows: seq<RefIndustry>)
    ensures rows == RefIndustries(lines)
  {
    rows := ReadSection(lines, RefIndustryHeading, RefIndustryRows(lines), RefIndustryStop(lines), AtMost(5), 1, 30);
  }

  // ---------------------------------------------------------------------
  // Social platforms
  // ---------------------------------------------------------------------

  datatype SocialEntry = SocialEntry(platform: string, share: string)

  const SocialHeading: string := "社交流量"

  /** The platforms looked for, in order; a line naming "X (Twitter)" also names "Twitter". */
  const SocialNames: seq<string> := ["Youtube", "X (Twitter)", "Twitter", "Linkedin", "Reddit", "Facebook", "WhatsApp", "Instagram"]

  /**
   * A platform read from line `j`: the line names the platform; the share is
   * the one read for the line, and a platform without a share is skipped.
   */
  predicate SocialFrom(lines: seq<string>, j: nat, s: SocialEntry) {
    && j < |lines| && s.platform in SocialNames && Contains(lines[j], s.platform)
    && s.share == ShareOnOrAfter(lines, j) && s.share != "-"
  }

  /** Whether a line names a platform. */
  function NamedOn(l: string): string -> bool {
    (nm: string) => Contains(l, nm)
  }

  /** The rows line `j` gives for the platforms `names`, in their order (the inner loop over platforms). */
  function SocialOn(lines: seq<string>, j: nat, names: seq<string>): (r: seq<SocialEntry>)
    requires j < |lines|
    ensures |r| <= |names|
    ensures forall s :: s in r ==>
      s.platform in names && Contains(lines[j], s.platform) && s.share == ShareOnOrAfter(lines, j) && s.share != "-"
    ensures ShareOnOrAfter(lines, j) == "-" ==> r == []
    ensures var found := Filter(names, NamedOn(lines[j]));
      ShareOnOrAfter(lines, j) != "-" ==>
        |r| == |found| && forall k :: 0 <= k < |r| ==> r[k] == SocialEntry(found[k], ShareOnOrAfter(lines, j))
    decreases |names|
  {
    if names == [] then []
    else
      var sn := names[0];
      var share := ShareOnOrAfter(lines, j);
      (if Contains(lines[j], sn) && share != "-" then [SocialEntry(sn, share)] else []) + SocialOn(lines, j, names[1..])
  }

  function SocialAt(lines: seq<string>, j: nat): seq<SocialEntry> {
    if j < |lines| then SocialOn(lines, j, SocialNames) else []
  }

  function SocialRows(lines: seq<string>): nat -> seq<SocialEntry> {
    (j: nat) => SocialAt(lines, j)
  }

  /** The social section ends at a line mentioning 显示广告. */
  function SocialStop(lines: seq<string>): nat -> bool {
    (j: nat) => j < |lines| && (lines[j] == "显示广告" || Contains(lines[j], "显示广告"))
  }

  function SocialFromFn(lines: seq<string>): (nat, SocialEntry) -> bool {
    (j: nat, s) => SocialFrom(lines, j, s)
  }

  /**
   * The social platforms: read from the "社交流量" line itself and the 19
   * lines after it, up to the display-ad section; no row cap, so at most
   * eight rows per line.
   */
  function SocialData(lines: seq<string>): (rows: seq<SocialEntry>)
    ensures FindLine(lines, SocialHeading, 0) == -1 ==> rows == []
    ensures |rows| <= 8 * 20
    ensures var a := FindLine(lines, SocialHeading, 0);
      a >= 0 ==> forall s :: s in rows ==>
        exists j: nat :: Before(SocialStop(lines), a, j, TableEnd(lines, a, 20)) && SocialFrom(lines, j, s)
  {
    var a := FindLine(lines, SocialHeading, 0);
    if a < 0 then []
    else
      var hi := TableEnd(lines, a, 20);
      RowsBound(SocialRows(lines), SocialStop(lines), Unlimited, 8, a, hi, []);
      RowsFromLines(SocialRows(lines), SocialStop(lines), Unlimited, a, hi, SocialFromFn(lines));
      Rows(SocialRows(lines), SocialStop(lines), Unlimited, a, hi, [])
  }

  /** The social table is every platform row of every line of the section, in line order. */
  lemma SocialDataExact(lines: seq<string>)
    ensures var a := FindLine(lines, SocialHeading, 0);
      a >= 0 ==> SocialData(lines) == AllRows(SocialRows(lines), a, SectionEnd(SocialStop(lines), a, TableEnd(lines, a, 20)))
  {
    var a := FindLine(lines, SocialHeading, 0);
    if a >= 0 {
      RowsUncapped(SocialRows(lines), SocialStop(lines), a, TableEnd(lines, a, 20), []);
    }
  }

  /** The SocialData scan as the extractor runs it. */
  method ReadSocialData(lines: seq<string>) returns (rows: seq<SocialEntry>)
    ensures rows == SocialData(lines)
  {
    rows := [];
    var a := LocateLine(lines, SocialHeading, 0);
    if a >= 0 {
      rows := ScanTable(SocialRows(lines), SocialStop(lines), Unlimited, a, TableEnd(lines, a, 20));
    }
  }

  // ---------------------------------------------------------------------
  // Display-ad publishers
  // ---------------------------------------------------------------------

  datatype DisplayAd = DisplayAd(publisher: string, share: string, change: string)

  const DisplayHeading: string := "热门媒体"

  /**
   * A publisher read from line `j`: a host-name line, its share the first
   * `[\d,.]+%` on the two lines below, its change the first of a signed
   * percentage, `>N%` or "-" two lines below.
   */
  predicate DisplayFrom(lines: seq<string>, j: nat, d: DisplayAd) {
    && j < |lines| && IsHostName(lines[j])
    && d == DisplayAd(lines[j], FindValueAfter(lines, j, Percent, 2), ChangeBelow(lines, j, AdChange))
  }

  function DisplayAt(lines: seq<string>, j: nat): seq<DisplayAd> {
    if j < |lines| && IsHostName(lines[j]) then
      [DisplayAd(lines[j], FindValueAfter(lines, j, Percent, 2), ChangeBelow(lines, j, AdChange))]
    else []
  }

  function DisplayRows(lines: seq<string>): nat -> seq<DisplayAd> {
    (j: nat) => DisplayAt(lines, j)
  }

  /** The display-ad scan has no stop line. */
  function NoStopLine(): nat -> bool {
    (j: nat) => false
  }

  function DisplayFromFn(lines: seq<string>): (nat, DisplayAd) -> bool {
    (j: nat, d) => DisplayFrom(lines, j, d)
  }

  /** The top display-ad publishers: at most five, read from the 29 lines after "热门媒体". */
  function DisplayAds(lines: seq<string>): (rows: seq<DisplayAd>)
    ensures FindLine(lines, DisplayHeading, 0) == -1 ==> rows == []
    ensures |rows| <= 5
    ensures var a := FindLine(lines, DisplayHeading, 0);
      a >= 0 ==> forall d :: d in rows ==> exists j: nat :: a < j < TableEnd(lines, a, 30) && DisplayFrom(lines, j, d)
  {
    var a := FindLine(lines, DisplayHeading, 0);
    if a < 0 then []
    else
      var hi := TableEnd(lines, a, 30);
      RowsCapped(DisplayRows(lines), NoStopLine(), 5, a + 1, hi, []);
      RowsFromLines(DisplayRows(lines), NoStopLine(), AtMost(5), a + 1, hi, DisplayFromFn(lines));
      Rows(DisplayRows(lines), NoStopLine(), AtMost(5), a + 1, hi, [])
  }

  /**
   * The publisher table is the first five host-name rows of the 29 lines
   * after the heading, in line order, or all of them when there are fewer.
   */
  lemma DisplayAdsExact(lines: seq<string>)
    ensures var a := FindLine(lines, DisplayHeading, 0);
      a >= 0 ==> var all := AllRows(DisplayRows(lines), a + 1, TableEnd(lines, a, 30));
        DisplayAds(lines) == if |all| <= 5 then all else all[..5]
  {
    var a := FindLine(lines, DisplayHeading, 0);
    if a >= 0 {
      var hi := TableEnd(lines, a, 30);
      DisplayRowsSingle(lines);
      FirstRows(DisplayRows(lines), NoStopLine(), 5, a + 1, hi);
      NoStopEnd(a + 1, hi);
    }
  }

  /** Each line gives at most one publisher row. */
  lemma DisplayRowsSingle(lines: seq<string>)
    ensures forall j :: |DisplayRows(lines)(j)| <= 1
  {
  }

  /** Without a stop line the scan runs to the end of the window. */
  lemma NoStopEnd(i: nat, hi: nat)
    ensures SectionEnd(NoStopLine(), i, hi) == if i < hi then hi else i
  {
  }

  /** The DisplayAds scan as the extractor runs it. */
  method ReadDisplayAds(lines: seq<string>) returns (rows: seq<DisplayAd>)
    ensures rows == DisplayAds(lines)
  {
    rows := ReadSection(lines, DisplayHeading, DisplayRows(lines), NoStopLine(), AtMost(5), 1, 30);
  }
}
