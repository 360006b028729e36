/**
 * The site-overview extractor (parse_overview.ts) as a whole: every field
 * and table it reads from the copied page text, gathered into one record.
 */
module Overview {
  import opened Text
  import opened Wrappers
  import opened Patterns
  import opened Lookup
  import opened Scan
  import opened OverviewFields
  import opened OverviewTables

  /** Everything the overview page yields; "-" marks a value that was not found. */
  datatype Overview = Overview(
    description: string,
    totalVisits: string, totalVisitsChange: string, timeRange: string,
    desktop: string, mobile: string,
    globalRank: string, countryRank: RankEntry, industryRank: RankEntry,
    engagement: Engagement,
    competitors: seq<Competitor>, geo: seq<GeoEntry>, channels: seq<Channel>,
    organicShare: string, brandShare: string, nonBrandShare: string, organicTerms: seq<SearchTerm>,
    referrals: seq<ReferralEntry>, refIndustries: seq<RefIndustry>,
    social: seq<SocialEntry>, displayAds: seq<DisplayAd>)

  /**
   * The organic share of traffic: read from the "有机搜索" channel entry,
   * and only when the page has an organic-search ("自然搜索") section.
   */
  function OrganicShare(lines: seq<string>, channels: seq<Channel>): string {
    if OrganicAnchor(lines) < 0 then "-" else FindChannel(channels, "有机搜索").GetOr("-")
  }

  /**
   * The organic share, stated without the channel table: the share read for
   * the first line mentioning 有机搜索, when there is one and the page has an
   * organic-search section.
   */
  lemma OrganicShareFromLines(lines: seq<string>)
    ensures OrganicAnchor(lines) < 0 ==> OrganicShare(lines, Channels(lines)) == "-"
    ensures OrganicAnchor(lines) >= 0 ==>
      OrganicShare(lines, Channels(lines)) ==
        var k := FindLine(lines, "有机搜索", 0); if k < 0 then "-" else ShareOnOrAfter(lines, k)
  {
    ChannelLookup(lines, "有机搜索");
  }

  /** The overview of `domain` read from the normalised lines of its page. */
  function OverviewOf(domain: string, lines: seq<string>): Overview {
    var channels := Channels(lines);
    Overview(
      SiteDescription(lines, domain),
      TotalVisits(lines), TotalVisitsChange(lines), TimeRange(lines),
      DesktopShare(lines), MobileShare(lines),
      GlobalRank(lines), CountryRank(lines), IndustryRank(lines),
      EngagementOf(lines),
      Competitors(lines), GeoData(lines), channels,
      OrganicShare(lines, channels), BrandShare(lines), NonBrandShare(lines), OrganicTerms(lines),
      TopReferrals(lines), RefIndustries(lines),
      SocialData(lines), DisplayAds(lines))
  }

  /**
   * Every field of an overview is "-" or has the shape the page prints for
   * it, and every bounded table keeps within its bound.
   */
  lemma OverviewShape(domain: string, lines: seq<string>)
    ensures var o := OverviewOf(domain, lines);
      && (o.description == "-" || (IsDescription(o.description) && o.description in lines))
      && (o.totalVisits == "-" || IsVolume(o.totalVisits))
      && (o.totalVisitsChange == "-" || IsSignedPercentText(o.totalVisitsChange))
      && (o.desktop == "-" || IsDecimalPercent(o.desktop))
      && (o.mobile == "-" || IsDecimalPercent(o.mobile))
      && (o.globalRank == "-" || IsRank(o.globalRank))
      && (o.countryRank.rank == "-" || IsRank(o.countryRank.rank))
      && (o.industryRank.rank == "-" || IsRank(o.industryRank.rank))
      && |o.competitors| <= 29 && |o.geo| <= 5 && |o.channels| <= 7 && |o.organicTerms| <= 5
      && |o.referrals| <= 5 && |o.refIndustries| <= 5 && |o.displayAds| <= 5
  {
  }

  /** The extractor: normalise the text, then read each field and table. */
  method ParseOverview(domain: string, text: string) returns (o: Overview)
    ensures o == OverviewOf(domain, NormalizeLines(text))
  {
    var lines := NormalizeLines(text);
    var description := FindDescription(lines, domain);
    var visits, change, range := ReadTotalVisits(lines);
    var desktop, mobile := DesktopShare(lines), MobileShare(lines);
    var global, country, industry := GlobalRank(lines), CountryRank(lines), IndustryRank(lines);
    var engagement := EngagementOf(lines);
    var competitors := ReadCompetitors(lines);
    var geo := ReadGeoData(lines);
    var channels := ReadChannels(lines);
    var terms := ReadOrganicTerms(lines);
    var referrals := ReadTopReferrals(lines);
    var industries := ReadRefIndustries(lines);
    var social := ReadSocialData(lines);
    var display := ReadDisplayAds(lines);
    var brand, nonBrand := ReadBrandShares(lines);
    var organic := OrganicShare(lines, channels);
    o := Overview(
      description, visits, change, range, desktop, mobile, global, country, industry, engagement,
      competitors, geo, channels, organic, brand, nonBrand, terms, referrals, industries, social, display);
  }
}
