/**
 * The overview report (the second half of parse_overview.ts): which
 * Markdown sections are written, in which order, and with which values.
 * Each section is modelled by the data it prints; the exact characters of
 * headings and table rules are not part of the model.
 */
module Markdown {
  import opened Wrappers
  import opened Text
  import opened Lookup
  import opened OverviewFields
  import opened OverviewTables
  import opened Overview

  /**
   * One block of the report.  `channelShare` is the share of the matching
   * traffic channel, printed as a bullet when the channel was found;
   * `brand` and `nonBrand` are printed as bullets only when present.
   * The search-term sub-table of `OrganicSearch` is printed only when
   * `terms` is non-empty.
   */
  datatype Section =
    | Intro(domain: string, timeRange: string, description: Option<string>)
    | Traffic(visits: string, change: string, desktop: string, mobile: string)
    | Ranks(global: string, country: RankEntry, industry: RankEntry)
    | EngagementBlock(timeRange: string, metrics: Engagement)
    | CompetitorTable(competitors: seq<Competitor>)
    | GeoTable(geo: seq<GeoEntry>)
    | ChannelTable(channels: seq<Channel>)
    | OrganicSearch(share: string, brand: Option<string>, nonBrand: Option<string>, terms: seq<SearchTerm>)
    | ReferralTable(referralShare: Option<string>, referrals: seq<ReferralEntry>)
    | RefIndustryTable(industries: seq<RefIndustry>)
    | SocialTable(socialShare: Option<string>, social: seq<SocialEntry>)
    | DisplayTable(displayShare: Option<string>, ads: seq<DisplayAd>)

  /** The place of each kind of section in the report. */
  function Position(s: Section): nat {
    match s
    case Intro(_, _, _) => 0
    case Traffic(_, _, _, _) => 1
    case Ranks(_, _, _) => 2
    case EngagementBlock(_, _) => 3
    case CompetitorTable(_) => 4
    case GeoTable(_) => 5
    case ChannelTable(_) => 6
    case OrganicSearch(_, _, _, _) => 7
    case ReferralTable(_, _) => 8
    case RefIndustryTable(_) => 9
    case SocialTable(_, _) => 10
    case DisplayTable(_, _) => 11
  }

  /** A "-" scalar is not printed. */
  function Present(v: string): Option<string> {
    if v == "-" then None else Some(v)
  }

  /**
   * Place `k` of the report (0 to 11): the section of position `k` when it
   * is written, and nothing otherwise.
   */
  function Slot(domain: string, o: Overview, k: nat): Option<Section> {
    if k == 0 then Some(Intro(domain, o.timeRange, Present(o.description)))
    else if k == 1 then Some(Traffic(o.totalVisits, o.totalVisitsChange, o.desktop, o.mobile))
    else if k == 2 then Some(Ranks(o.globalRank, o.countryRank, o.industryRank))
    else if k == 3 then Some(EngagementBlock(o.timeRange, o.engagement))
    else if k == 4 then (if |o.competitors| > 0 then Some(CompetitorTable(o.competitors)) else None)
    else if k == 5 then (if |o.geo| > 0 then Some(GeoTable(o.geo)) else None)
    else if k == 6 then (if |o.channels| > 0 then Some(ChannelTable(o.channels)) else None)
    else if k == 7 then Some(OrganicSearch(o.organicShare, Present(o.brandShare), Present(o.nonBrandShare), o.organicTerms))
    else if k == 8 then (if |o.referrals| > 0 then Some(ReferralTable(FindChannel(o.channels, "外链"), o.referrals)) else None)
    else if k == 9 then (if |o.refIndustries| > 0 then Some(RefIndustryTable(o.refIndustries)) else None)
    else if k == 10 then (if |o.social| > 0 then Some(SocialTable(FindChannel(o.channels, "社交"), o.social)) else None)
    else if k == 11 then (if |o.displayAds| > 0 then Some(DisplayTable(FindChannel(o.channels, "显示广告"), o.displayAds)) else None)
    else None
  }

  /** The number of places. */
  const Places: nat := 12

  /** The section a place holds, as a sequence of zero or one sections. */
  function Piece(x: Option<Section>): seq<Section> {
    if x.Some? then [x.value] else []
  }

  /** The places of the report of `domain`, as a function of the place number. */
  function PlaceOf(domain: string, o: Overview): nat -> Option<Section> {
    (k: nat) => Slot(domain, o, k)
  }

  /** The sections of places `lo .. hi-1` that hold one, in order. */
  function Sections(place: nat -> Option<Section>, lo: nat, hi: nat): seq<Section>
    decreases hi
  {
    if hi <= lo then [] else Sections(place, lo, hi - 1) + Piece(place(hi - 1))
  }

  /** The sections written for the overview `o` of `domain`, in order. */
  function Report(domain: string, o: Overview): seq<Section> {
    Sections(PlaceOf(domain, o), 0, Places)
  }

  /** Place `k` holds a section of position `k`, or nothing; there is nothing past the last place. */
  lemma SlotPosition(domain: string, o: Overview, k: nat)
    ensures Slot(domain, o, k).Some? ==> k < Places && Position(Slot(domain, o, k).value) == k
  {
  }

  /** Every place of a report holds a section of its own position, or nothing. */
  ghost predicate InPlace(place: nat -> Option<Section>) {
    forall k: nat :: place(k).Some? ==> Position(place(k).value) == k
  }

  lemma PlacesInPlace(domain: string, o: Overview)
    ensures InPlace(PlaceOf(domain, o))
  {
    forall k: nat ensures PlaceOf(domain, o)(k).Some? ==> Position(PlaceOf(domain, o)(k).value) == k {
      SlotPosition(domain, o, k);
    }
  }

  /** The places `lo .. mid-1` followed by the places `mid .. hi-1` are the places `lo .. hi-1`. */
  lemma {:induction false} SectionsSplit(place: nat -> Option<Section>, lo: nat, mid: nat, hi: nat)
    requires lo <= mid <= hi
    ensures Sections(place, lo, hi) == Sections(place, lo, mid) + Sections(place, mid, hi)
    decreases hi
  {
    if hi > mid {
      SectionsSplit(place, lo, mid, hi - 1);
    }
  }

  /** Positions strictly increase along `w`. */
  predicate Ascending(w: seq<Section>) {
    forall i, j :: 0 <= i < j < |w| ==> Position(w[i]) < Position(w[j])
  }

  /** A section placed after sections of lower positions keeps them ascending. */
  lemma AscendingSnoc(prefix: seq<Section>, x: Section)
    requires Ascending(prefix)
    requires forall s :: s in prefix ==> Position(s) < Position(x)
    ensures Ascending(prefix + [x])
  {
    var w := prefix + [x];
    forall i, j | 0 <= i < j < |w| ensures Position(w[i]) < Position(w[j]) {
      assert w[i] == prefix[i] && w[i] in prefix;
      if j < |prefix| {
        assert w[j] == prefix[j];
      }
    }
  }

  /** The sections of places `lo .. hi-1` have positions in `[lo, hi)`. */
  lemma {:induction false} SectionsWithin(place: nat -> Option<Section>, lo: nat, hi: nat)
    requires InPlace(place)
    ensures forall s :: s in Sections(place, lo, hi) ==> lo <= Position(s) < hi
    decreases hi
  {
    if hi > lo {
      SectionsWithin(place, lo, hi - 1);
      assert Sections(place, lo, hi) == Sections(place, lo, hi - 1) + Piece(place(hi - 1));
    }
  }

  /** The sections of places `lo .. hi-1` come in increasing position. */
  lemma {:induction false} SectionsOrdered(place: nat -> Option<Section>, lo: nat, hi: nat)
    requires InPlace(place)
    ensures Ascending(Sections(place, lo, hi))
    decreases hi
  {
    if hi > lo {
      var prefix := Sections(place, lo, hi - 1);
      SectionsOrdered(place, lo, hi - 1);
      SectionsWithin(place, lo, hi - 1);
      if place(hi - 1).Some? {
        AscendingSnoc(prefix, place(hi - 1).value);
        assert Sections(place, lo, hi) == prefix + [place(hi - 1).value];
      } else {
        assert Sections(place, lo, hi) == prefix;
      }
    }
  }

  /** A section is among those of places `lo .. hi-1` exactly when the place of its position lies there and holds it. */
  lemma {:induction false} SectionsMembers(place: nat -> Option<Section>, lo: nat, hi: nat)
    requires InPlace(place)
    ensures forall s :: s in Sections(place, lo, hi) <==> lo <= Position(s) < hi && place(Position(s)) == Some(s)
    decreases hi
  {
    if hi > lo {
      SectionsMembers(place, lo, hi - 1);
      forall s | Position(s) == hi - 1 && place(hi - 1) == Some(s) ensures s in Sections(place, lo, hi) {
        assert Piece(place(hi - 1)) == [s];
      }
    }
  }

  /** The opening blocks: the title and description, the traffic table, the rank table and the engagement table. */
  method WriteHeader(domain: string, o: Overview) returns (md: seq<Section>)
    ensures md == Sections(PlaceOf(domain, o), 0, 4)
  {
    md := [Intro(domain, o.timeRange, if o.description != "-" then Some(o.description) else None)];
    assert md == Sections(PlaceOf(domain, o), 0, 1);
    md := md + [Traffic(o.totalVisits, o.totalVisitsChange, o.desktop, o.mobile)];
    assert md == Sections(PlaceOf(domain, o), 0, 2);
    md := md + [Ranks(o.globalRank, o.countryRank, o.industryRank)];
    assert md == Sections(PlaceOf(domain, o), 0, 3);
    md := md + [EngagementBlock(o.timeRange, o.engagement)];
  }

  /** The competitor, geography and channel tables, each only when it has rows. */
  method WriteTrafficTables(domain: string, o: Overview) returns (md: seq<Section>)
    ensures md == Sections(PlaceOf(domain, o), 4, 7)
  {
    md := [];
    if |o.competitors| > 0 {
      md := md + [CompetitorTable(o.competitors)];
    }
    assert md == Sections(PlaceOf(domain, o), 4, 5);
    if |o.geo| > 0 {
      md := md + [GeoTable(o.geo)];
    }
    assert md == Sections(PlaceOf(domain, o), 4, 6);
    if |o.channels| > 0 {
      md := md + [ChannelTable(o.channels)];
    }
  }

  /** The organic-search block: its share, the brand and non-brand bullets when present, and the search terms. */
  method WriteOrganic(domain: string, o: Overview) returns (md: seq<Section>)
    ensures md == Sections(PlaceOf(domain, o), 7, 8)
  {
    var brand := if o.brandShare != "-" then Some(o.brandShare) else None;
    var nonBrand := if o.nonBrandShare != "-" then Some(o.nonBrandShare) else None;
    md := [OrganicSearch(o.organicShare, brand, nonBrand, o.organicTerms)];
  }

  /** The referral table with the referral channel's share, then the referring-industry table, each only when it has rows. */
  method WriteReferrals(domain: string, o: Overview) returns (md: seq<Section>)
    ensures md == Sections(PlaceOf(domain, o), 8, 10)
  {
    md := [];
    if |o.referrals| > 0 {
      md := md + [ReferralTable(FindChannel(o.channels, "外链"), o.referrals)];
    }
    assert md == Sections(PlaceOf(domain, o), 8, 9);
    if |o.refIndustries| > 0 {
      md := md + [RefIndustryTable(o.refIndustries)];
    }
  }

  /** The social and display-ad tables with their channels' shares, each only when it has rows. */
  method WriteSocialAndDisplay(domain: string, o: Overview) returns (md: seq<Section>)
    ensures md == Sections(PlaceOf(domain, o), 10, 12)
  {
    md := [];
    if |o.social| > 0 {
      md := md + [SocialTable(FindChannel(o.channels, "社交"), o.social)];
    }
    assert md == Sections(PlaceOf(domain, o), 10, 11);
    if |o.displayAds| > 0 {
      md := md + [DisplayTable(FindChannel(o.channels, "显示广告"), o.displayAds)];
    }
  }

  /** The report writer: the blocks in the order the report lists them. */
  method WriteReport(domain: string, o: Overview) returns (md: seq<Section>)
    ensures md == Report(domain, o)
  {
    md := WriteHeader(domain, o);
    var traffic := WriteTrafficTables(domain, o);
    var organic := WriteOrganic(domain, o);
    var referrals := WriteReferrals(domain, o);
    var rest := WriteSocialAndDisplay(domain, o);
    md := md + traffic + organic + referrals + rest;
    SectionsSplit(PlaceOf(domain, o), 0, 10, 12);
    SectionsSplit(PlaceOf(domain, o), 0, 8, 10);
    SectionsSplit(PlaceOf(domain, o), 0, 7, 8);
    SectionsSplit(PlaceOf(domain, o), 0, 4, 7);
  }

  /** The whole command: parse the page text of `domain`, then write its report. */
  method OverviewReport(domain: string, text: string) returns (md: seq<Section>)
    ensures md == Report(domain, OverviewOf(domain, NormalizeLines(text)))
  {
    var o := ParseOverview(domain, text);
    md := WriteReport(domain, o);
  }

  /** Sections come in their fixed order, so no kind of section is written twice. */
  lemma ReportOrdered(domain: string, o: Overview)
    ensures forall i, j :: 0 <= i < j < |Report(domain, o)| ==> Position(Report(domain, o)[i]) < Position(Report(domain, o)[j])
  {
    PlacesInPlace(domain, o);
    SectionsOrdered(PlaceOf(domain, o), 0, Places);
  }

  /**
   * The introduction, traffic, rank and engagement blocks open every
   * report, with "-" standing for a missing value; the description line
   * is written only when one was found.
   */
  lemma ReportOpening(domain: string, o: Overview)
    ensures |Report(domain, o)| >= 4
    ensures Report(domain, o)[..4] ==
      [ Intro(domain, o.timeRange, if o.description == "-" then None else Some(o.description)),
        Traffic(o.totalVisits, o.totalVisitsChange, o.desktop, o.mobile),
        Ranks(o.globalRank, o.countryRank, o.industryRank),
        EngagementBlock(o.timeRange, o.engagement) ]
  {
    var place := PlaceOf(domain, o);
    SectionsSplit(place, 0, 4, Places);
    OpeningSections(domain, o);
    var head := Sections(place, 0, 4);
    assert Report(domain, o) == head + Sections(place, 4, Places);
    assert (head + Sections(place, 4, Places))[..4] == head;
  }

  /** The first four places always hold their blocks. */
  lemma OpeningSections(domain: string, o: Overview)
    ensures Sections(PlaceOf(domain, o), 0, 4) ==
      [ Intro(domain, o.timeRange, Present(o.description)),
        Traffic(o.totalVisits, o.totalVisitsChange, o.desktop, o.mobile),
        Ranks(o.globalRank, o.countryRank, o.industryRank),
        EngagementBlock(o.timeRange, o.engagement) ]
  {
    var place := PlaceOf(domain, o);
    assert Sections(place, 0, 1) == [Intro(domain, o.timeRange, Present(o.description))];
    assert Sections(place, 0, 2) == Sections(place, 0, 1) + [Traffic(o.totalVisits, o.totalVisitsChange, o.desktop, o.mobile)];
    assert Sections(place, 0, 3) == Sections(place, 0, 2) + [Ranks(o.globalRank, o.countryRank, o.industryRank)];
    assert Sections(place, 0, 4) == Sections(place, 0, 3) + [EngagementBlock(o.timeRange, o.engagement)];
  }

  /** The organic-search block is always written, with the brand and non-brand bullets only when present. */
  lemma ReportHasOrganic(domain: string, o: Overview)
    ensures OrganicSearch(o.organicShare, Present(o.brandShare), Present(o.nonBrandShare), o.organicTerms) in Report(domain, o)
  {
    var place := PlaceOf(domain, o);
    SectionsSplit(place, 0, 7, Places);
    SectionsSplit(place, 7, 8, Places);
    assert Sections(place, 7, 8) == [OrganicSearch(o.organicShare, Present(o.brandShare), Present(o.nonBrandShare), o.organicTerms)];
  }

  /** A section is in the report exactly when the place of its position holds it. */
  lemma ReportPlace(domain: string, o: Overview, k: nat, s: Section)
    requires Position(s) == k
    ensures s in Report(domain, o) <==> Slot(domain, o, k) == Some(s)
  {
    PlacesInPlace(domain, o);
    SectionsMembers(PlaceOf(domain, o), 0, Places);
    SlotPosition(domain, o, k);
  }

  /** The competitor table is written exactly when there are competitors, and then lists them all. */
  lemma ReportCompetitors(domain: string, o: Overview)
    ensures CompetitorTable(o.competitors) in Report(domain, o) <==> |o.competitors| > 0
    ensures forall s :: s in Report(domain, o) && s.CompetitorTable? ==> s == CompetitorTable(o.competitors)
  {
    ReportPlace(domain, o, 4, CompetitorTable(o.competitors));
    forall s | s in Report(domain, o) && s.CompetitorTable? ensures s == CompetitorTable(o.competitors) {
      ReportPlace(domain, o, 4, s);
    }
  }

  /** The geography table is written exactly when there are countries, and then lists them all. */
  lemma ReportGeo(domain: string, o: Overview)
    ensures GeoTable(o.geo) in Report(domain, o) <==> |o.geo| > 0
    ensures forall s :: s in Report(domain, o) && s.GeoTable? ==> s == GeoTable(o.geo)
  {
    ReportPlace(domain, o, 5, GeoTable(o.geo));
    forall s | s in Report(domain, o) && s.GeoTable? ensures s == GeoTable(o.geo) {
      ReportPlace(domain, o, 5, s);
    }
  }

  /** The channel table is written exactly when some channel was found, and then lists them all. */
  lemma ReportChannels(domain: string, o: Overview)
    ensures ChannelTable(o.channels) in Report(domain, o) <==> |o.channels| > 0
    ensures forall s :: s in Report(domain, o) && s.ChannelTable? ==> s == ChannelTable(o.channels)
  {
    ReportPlace(domain, o, 6, ChannelTable(o.channels));
    forall s | s in Report(domain, o) && s.ChannelTable? ensures s == ChannelTable(o.channels) {
      ReportPlace(domain, o, 6, s);
    }
  }

  /**
   * The referral table is written exactly when there are referring sites;
   * it lists them all, under the share of the "外链" channel when that
   * channel was found.
   */
  lemma ReportReferrals(domain: string, o: Overview)
    ensures ReferralTable(FindChannel(o.channels, "外链"), o.referrals) in Report(domain, o) <==> |o.referrals| > 0
    ensures forall s :: s in Report(domain, o) && s.ReferralTable? ==> s == ReferralTable(FindChannel(o.channels, "外链"), o.referrals)
  {
    ReportPlace(domain, o, 8, ReferralTable(FindChannel(o.channels, "外链"), o.referrals));
    forall s | s in Report(domain, o) && s.ReferralTable? ensures s == ReferralTable(FindChannel(o.channels, "外链"), o.referrals) {
      ReportPlace(domain, o, 8, s);
    }
  }

  /** The referring-industry table is written exactly when there are industries, whether or not the referral table is. */
  lemma ReportRefIndustries(domain: string, o: Overview)
    ensures RefIndustryTable(o.refIndustries) in Report(domain, o) <==> |o.refIndustries| > 0
    ensures forall s :: s in Report(domain, o) && s.RefIndustryTable? ==> s == RefIndustryTable(o.refIndustries)
  {
    ReportPlace(domain, o, 9, RefIndustryTable(o.refIndustries));
    forall s | s in Report(domain, o) && s.RefIndustryTable? ensures s == RefIndustryTable(o.refIndustries) {
      ReportPlace(domain, o, 9, s);
    }
  }

  /** The social table is written exactly when some platform was found, under the "社交" channel's share when found. */
  lemma ReportSocial(domain: string, o: Overview)
    ensures SocialTable(FindChannel(o.channels, "社交"), o.social) in Report(domain, o) <==> |o.social| > 0
    ensures forall s :: s in Report(domain, o) && s.SocialTable? ==> s == SocialTable(FindChannel(o.channels, "社交"), o.social)
  {
    ReportPlace(domain, o, 10, SocialTable(FindChannel(o.channels, "社交"), o.social));
    forall s | s in Report(domain, o) && s.SocialTable? ensures s == SocialTable(FindChannel(o.channels, "社交"), o.social) {
      ReportPlace(domain, o, 10, s);
    }
  }

  /** The display-ad table is written exactly when some publisher was found, under the "显示广告" channel's share when found. */
  lemma ReportDisplay(domain: string, o: Overview)
    ensures DisplayTable(FindChannel(o.channels, "显示广告"), o.displayAds) in Report(domain, o) <==> |o.displayAds| > 0
    ensures forall s :: s in Report(domain, o) && s.DisplayTable? ==> s == DisplayTable(FindChannel(o.channels, "显示广告"), o.displayAds)
  {
    ReportPlace(domain, o, 11, DisplayTable(FindChannel(o.channels, "显示广告"), o.displayAds));
    forall s | s in Report(domain, o) && s.DisplayTable? ensures s == DisplayTable(FindChannel(o.channels, "显示广告"), o.displayAds) {
      ReportPlace(domain, o, 11, s);
    }
  }
}
