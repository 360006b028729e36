# SimilarWeb page extractors, modelled in Dafny

This project models the two text extractors of the `similarweb_analysis`
plugin. Both read the text of a SimilarWeb page that was captured
beforehand. They split it into trimmed, non-empty lines and rebuild the
page's data from those lines.

- **Overview extractor** (`parse_overview.ts`). It reads the *overview*
  page of a site. It collects these fields:
  - the site description;
  - total visits, their change over the last month, and the time range;
  - the desktop and mobile-web shares;
  - the global, country and industry ranks;
  - the six engagement metrics;
  - the brand and non-brand shares of organic search.

  It also collects eight tables: competitors, top countries, traffic
  channels, organic search terms, top referring sites, referring
  industries, social platforms and display-ad publishers. Each field is
  `-` when the page does not carry it. It then writes a Markdown report
  whose sections appear in a fixed order; a table section appears only
  when its table is non-empty.
- **Referrals extractor** (`parse_referrals.ts`). It reads the
  *incoming referrals* page, where the table was captured column by
  column. It finds the `域` header line and the `1 2 3 …` row-number
  line. It then rebuilds the columns block after block:
  - domains, with their `(n)` counters stripped;
  - industries and global ranks;
  - traffic volume/percentage pairs;
  - changes, normalised to a signed percentage.

  Finally it writes one CSV row per domain. It gives up when there is no
  header line or no domain.

The model is organised as follows:

- **Pure logic** is written as functions with contracts. This covers
  line normalisation, the regular expressions the extractors use, the
  field reads and the report layout.
- **Loops** are written as methods with loop invariants. Each is proved
  equal to its specification function. This covers the line searches,
  the bounded table scans, the channel loop, the column scans of the
  referrals extractor, and building the CSV.
- **Lemmas** state what each result means:
  - each field is the last or first line of a window with a given shape;
  - a table row is read from a line of the page that satisfies the row
    test;
  - each scan stops where the source says;
  - the extractor fails exactly on the two error conditions;
  - the CSV reads back as its header and one row per domain;
  - a page laid out from a table reads back to that table.

Module by module:

- `Text`: trimming, splitting and joining, and line normalisation.
- `Patterns`: the regular expressions used, as matchers.
- `Lookup`: `findLine`, `findExactLine`, `findValueAfter` and the
  last/first-line-where scans.
- `Scan`: the bounded table scan shared by the overview tables.
- `OverviewFields` and `OverviewTables`: the overview data.
- `Overview`: the whole overview record.
- `OverviewExamples`: a concrete total-visits block read end to end.
- `Markdown`: the report.
- `Referrals`: the column scans.
- `ReferralsCsv`: the CSV and the whole referrals extractor.
- `ReferralsLayout`: the round trip and the behaviours kept as written.
- `ReferralsExamples`: a concrete two-row page proved (`PageCsv`) to read
  back through the whole referrals extractor, and two one-row pages: one
  read back, one whose volume is read as a domain.

Several behaviours of the code are kept exactly as written:

- The rank column starts `|industries|` lines after the domain column
  ends.
- The change column starts two lines per volume after the traffic column
  starts, whether or not each volume had its percentage line. So a volume
  without a percentage shifts the change column (`VolumeWithoutPercent`).
- The percentage column can be one shorter than the volume column, when
  the last volume is the last line.
- A cell holding a comma spreads over more than one CSV field
  (`CommaSpreads`).
- On a one-row page whose volume has the shape of a domain (`5.2M`),
  the domain scan reads the volume as a second domain, because the next
  three lines hold only two non-domain lines (`VolumeReadAsDomain`).

## Model

| member | source | states |
|---|---|---|
| Text.Trim | plugins/similarweb_analysis/scripts/parse_overview.ts:22 | the trimmed line has no leading or trailing white space; it is the slice of the line that starts after the leading white space, and only white space follows it |
| Text.TrimEmpty | plugins/similarweb_analysis/scripts/parse_overview.ts:22 | a line trims to nothing exactly when it is all white space |
| Text.TrimChars | plugins/similarweb_analysis/scripts/parse_overview.ts:22 | trimming keeps only characters of the line |
| Text.Split | plugins/similarweb_analysis/scripts/parse_overview.ts:22 | splitting at line feeds gives at least one piece and no piece holds a line feed |
| Text.JoinSplit | plugins/similarweb_analysis/scripts/parse_overview.ts:22 | joining the pieces of a split with the separator gives back the text |
| Text.SplitJoin | plugins/similarweb_analysis/scripts/parse_referrals.ts:30 | splitting a join of separator-free pieces gives back exactly those pieces |
| Text.Kept | plugins/similarweb_analysis/scripts/parse_overview.ts:22 | the map-then-filter keeps at most as many lines as there were pieces |
| Text.KeptAppend | plugins/similarweb_analysis/scripts/parse_overview.ts:22 | map-then-filter distributes over concatenation of the pieces |
| Text.KeptFrom | plugins/similarweb_analysis/scripts/parse_overview.ts:22 | every kept line is non-empty and is the mapped image of some piece |
| Text.CleanLines | plugins/similarweb_analysis/scripts/parse_overview.ts:22 | the cleaned lines are non-empty and trimmed, and there are no more of them than pieces |
| Text.NormalizeLines | plugins/similarweb_analysis/scripts/parse_referrals.ts:30 | the lines of a text are non-empty, trimmed and free of line feeds |
| Text.NormalizeLinesAppend | plugins/similarweb_analysis/scripts/parse_referrals.ts:30 | the lines of two texts joined by a line feed are the lines of the first followed by those of the second |
| Text.NormalizeLinesJoin | plugins/similarweb_analysis/scripts/parse_referrals.ts:30 | lines that are already clean, joined by line feeds, normalise back to themselves |
| Text.CleanTrimmed | plugins/similarweb_analysis/scripts/parse_overview.ts:22 | cleaning lines that are already non-empty and trimmed changes nothing |
| Text.IndexOf | plugins/similarweb_analysis/scripts/parse_overview.ts:27-32 | the first position at or after `from` where the keyword occurs, or -1 exactly when it occurs nowhere there |
| Text.RemoveSpaces | plugins/similarweb_analysis/scripts/parse_referrals.ts:177 | removing white space leaves no white space, is no longer, and leaves a space-free text unchanged |
| Text.RemoveSpacesAppend | plugins/similarweb_analysis/scripts/parse_referrals.ts:177 | removing white space distributes over concatenation |
| Text.RemoveSpacesAllSpace | plugins/similarweb_analysis/scripts/parse_referrals.ts:177 | a run of white space disappears entirely |
| Lookup.FindLine | plugins/similarweb_analysis/scripts/parse_overview.ts:27-32 | the first line at or after `from` containing the keyword, or -1 exactly when no line there contains it |
| Lookup.LocateLine | plugins/similarweb_analysis/scripts/parse_overview.ts:27-32 | the search loop returns the index FindLine specifies |
| Lookup.FindExactLine | plugins/similarweb_analysis/scripts/parse_overview.ts:35-40 | the first line at or after `from` equal to the keyword, or -1 exactly when none is |
| Lookup.LocateExactLine | plugins/similarweb_analysis/scripts/parse_overview.ts:35-40 | the exact-search loop returns the index FindExactLine specifies |
| Lookup.FirstMatchLine | plugins/similarweb_analysis/scripts/parse_overview.ts:45-48 | the first line in the window that the pattern matches, or -1 when the pattern matches none |
| Lookup.WindowEnd | plugins/similarweb_analysis/scripts/parse_overview.ts:45 | the window after the anchor covers at most `range` lines and ends inside the text |
| Lookup.FindValueAfter | plugins/similarweb_analysis/scripts/parse_overview.ts:43-50 | `-` for a negative anchor or when no line of the window matches; otherwise the first match on the first matching line of the window, of the pattern's shape |
| Lookup.FindValueAfterIsFirst | plugins/similarweb_analysis/scripts/parse_overview.ts:43-50 | with an anchor, the value is `-` when no line of the window matches, otherwise the match on the first line that does; `-` exactly when none matches, for a pattern `-` does not match |
| Lookup.ValueAfter | plugins/similarweb_analysis/scripts/parse_overview.ts:43-50 | the window loop returns the value FindValueAfter specifies |
| Lookup.FindValueAfterReadsWindow | plugins/similarweb_analysis/scripts/parse_overview.ts:43-50 | the value depends only on the lines of the window |
| Lookup.FoundAfter | plugins/similarweb_analysis/scripts/parse_overview.ts:43-50 | a value other than `-` is the leftmost match on one of the `range` lines after the anchor |
| Lookup.FirstMatchLineFrame | plugins/similarweb_analysis/scripts/parse_overview.ts:45-48 | the first matching line depends only on the lines of the window |
| Lookup.LastLineWhereIsLast | plugins/similarweb_analysis/scripts/parse_overview.ts:83-91 | a loop that overwrites on every hit ends with the last hit of the window, or with none exactly when no line hits |
| Lookup.LastLineIsLast | plugins/similarweb_analysis/scripts/parse_overview.ts:83-86 | when `-` itself fails the test, the line kept is `-` exactly when no line of the window passes, and otherwise the whole of the last line that does |
| Lookup.LastFoundIsLast | plugins/similarweb_analysis/scripts/parse_overview.ts:256-265 | the value kept is `-` exactly when no line of the window qualifies, and otherwise comes from the last line that does |
| Lookup.LastLineStep | plugins/similarweb_analysis/scripts/parse_overview.ts:83-91 | one more line makes it the last hit if it hits and leaves the last hit otherwise |
| Lookup.LastOfEach | plugins/similarweb_analysis/scripts/parse_overview.ts:83-91 | one pass over the window finds the last hit of each of three tests |
| Lookup.LastFoundOfTwo | plugins/similarweb_analysis/scripts/parse_overview.ts:256-265 | one pass over the window keeps the last value found for each of two tests |
| Lookup.LastFoundStep | plugins/similarweb_analysis/scripts/parse_overview.ts:256-265 | one more line replaces the value kept exactly when it passes the test and carries a match |
| Lookup.FirstLineWhere | plugins/similarweb_analysis/scripts/parse_referrals.ts:36-42 | the first line of a range passing a test, or -1 exactly when none does |
| Lookup.Filter | plugins/similarweb_analysis/scripts/parse_overview.ts:237-239 | the names kept are exactly the names of the list that pass the test, and no more of them |
| Lookup.FilterSnoc | plugins/similarweb_analysis/scripts/parse_overview.ts:237-239 | one more name at the end of the list is kept, at the end, exactly when it passes the test |
| Scan.ScanTable | plugins/similarweb_analysis/scripts/parse_overview.ts:211-227 | the row loop (collect the rows of a line, stop at the cap, stop after a stop line) computes Rows |
| Scan.RowsCapped | plugins/similarweb_analysis/scripts/parse_overview.ts:225 | a scan capped at `n` rows yields at most `n` rows when each line gives at most one |
| Scan.RowsWithin | plugins/similarweb_analysis/scripts/parse_overview.ts:211-227 | every row collected is one some line gave |
| Scan.RowsFromLines | plugins/similarweb_analysis/scripts/parse_overview.ts:211-227 | every row comes from a line of the window that no earlier stop line cuts off |
| Scan.RowsBound | plugins/similarweb_analysis/scripts/parse_overview.ts:191-199 | an uncapped scan yields at most `m` rows per line scanned |
| Scan.SectionEnd | plugins/similarweb_analysis/scripts/parse_overview.ts:226 | the scan ends one past the first stop line of the window, or at the end of the window when there is none |
| Scan.SectionEndBefore | plugins/similarweb_analysis/scripts/parse_overview.ts:226 | a line lies before the end of the scan exactly when no stop line comes before it in the window |
| Scan.AllRowsFrom | plugins/similarweb_analysis/scripts/parse_overview.ts:211-227 | a row is among the rows of a range of lines exactly when some line of the range gives it |
| Scan.RowsUncapped | plugins/similarweb_analysis/scripts/parse_overview.ts:191-199 | an uncapped scan gives all the rows of the lines up to and including the first stop line, in line order |
| Scan.RowsCappedPrefix | plugins/similarweb_analysis/scripts/parse_overview.ts:225 | a scan capped at `n` rows, with at most one row per line, gives the first `n` of those rows, or all of them when there are fewer |
| Patterns.RunEnd | plugins/similarweb_analysis/scripts/parse_overview.ts:53 | a greedy character-class run ends at the first character outside the class |
| Patterns.HostNameSplit | plugins/similarweb_analysis/scripts/parse_overview.ts:192 | `^[\w.-]+\.\w{2,}$` holds exactly when some dot splits the line into a host part and a word tail of two or more |
| Patterns.CounterStart | plugins/similarweb_analysis/scripts/parse_referrals.ts:69 | the position of a trailing `(digits)` counter, or -1 when the line has none |
| Patterns.StripCounter | plugins/similarweb_analysis/scripts/parse_referrals.ts:69 | a line without a trailing counter is unchanged; otherwise the counter (at least three characters) is cut off |
| Patterns.DigitsBefore | plugins/similarweb_analysis/scripts/parse_referrals.ts:69 | the run of digits that ends at a position, extended as far left as it goes |
| Patterns.AmountAt | plugins/similarweb_analysis/scripts/parse_overview.ts:53 | a match of `[\d,.]+[BMK]?` at a position is an amount |
| Patterns.PercentAt | plugins/similarweb_analysis/scripts/parse_overview.ts:56 | a match of `[\d,.]+%` at a position is a bare percentage |
| Patterns.RankAt | plugins/similarweb_analysis/scripts/parse_overview.ts:59 | a match of `#[\d,]+` at a position is a rank |
| Patterns.DecimalPercentAt | plugins/similarweb_analysis/scripts/parse_overview.ts:99 | a match of `[\d.]+%` at a position is a decimal percentage |
| Patterns.SignedPercentAt | plugins/similarweb_analysis/scripts/parse_overview.ts:292 | a match of `[+-]?[\d,.]+%` at a position is a signed percentage |
| Patterns.MonthYearAt | plugins/similarweb_analysis/scripts/parse_overview.ts:84 | a month-and-year match starts with a capital and ends with a digit, at least eight characters on |
| Patterns.DateRangeAt | plugins/similarweb_analysis/scripts/parse_overview.ts:84 | a date-range match starts with a capital, ends with a digit and spans at least 17 characters |
| Patterns.OverPercentAt | plugins/similarweb_analysis/scripts/parse_overview.ts:379 | a match of `>[\d,]+%` at a position has that shape |
| Patterns.AdChangeAt | plugins/similarweb_analysis/scripts/parse_overview.ts:379 | a display-ad change is a signed percentage, an over-percentage or `-` |
| Patterns.ThroughLastSlashAt | plugins/similarweb_analysis/scripts/parse_overview.ts:147 | `.*\/` matches up to the last slash of the line |
| Patterns.MatchAt | plugins/similarweb_analysis/scripts/parse_overview.ts:53-59 | a match of a pattern at a position ends inside the text and the matched text has the pattern's shape |
| Patterns.Search | plugins/similarweb_analysis/scripts/parse_overview.ts:99 | the leftmost position where the pattern matches, with no match at any earlier position, or none when it matches nowhere |
| Patterns.Find | plugins/similarweb_analysis/scripts/parse_overview.ts:99 | `line.match(p)`: a value found has the pattern's shape, and there is none exactly when the pattern matches at no position (which text is found: FindIsLeftmost) |
| Patterns.FindIsLeftmost | plugins/similarweb_analysis/scripts/parse_overview.ts:99 | what is found is the text of the leftmost match: no match starts before it |
| Patterns.FindOr | plugins/similarweb_analysis/scripts/parse_overview.ts:117-118 | the match, or the default when there is none |
| Patterns.SecondFind | plugins/similarweb_analysis/scripts/parse_overview.ts:213 | the second match of a global match exists only after a first, and has the pattern's shape |
| Patterns.SecondFindAfterFirst | plugins/similarweb_analysis/scripts/parse_overview.ts:213 | a second element is the text of the leftmost match at or after the end of the leftmost first match |
| Patterns.SecondFindNoneAfterFirst | plugins/similarweb_analysis/scripts/parse_overview.ts:213 | without a second element, either nothing matches or no match starts at or after the end of the first |
| Patterns.FindMatches | plugins/similarweb_analysis/scripts/parse_overview.ts:99-100 | a match is found exactly when the pattern matches, and FindOr then gives it |
| Patterns.RemoveMatch | plugins/similarweb_analysis/scripts/parse_overview.ts:132 | `replace(p, "")` leaves a line the pattern does not match unchanged and never lengthens one |
| Patterns.RemoveMatchLeftmost | plugins/similarweb_analysis/scripts/parse_overview.ts:132 | `replace(p, "")` cuts out exactly the leftmost match and keeps what is before and after it |
| Patterns.HashTailAt | plugins/similarweb_analysis/scripts/parse_overview.ts:125 | after the lazy name and white space comes `#` and the rank digits |
| Patterns.LazyNameAt | plugins/similarweb_analysis/scripts/parse_overview.ts:125 | the lazy name `(.+?)` is the shortest one followed by white space and `#` (and digits, for the rank form) |
| Patterns.SpacedNameAt | plugins/similarweb_analysis/scripts/parse_overview.ts:125 | the white space before the name is taken greedily, backing off one character at a time |
| Patterns.NameMatchAt | plugins/similarweb_analysis/scripts/parse_overview.ts:143 | a name capture after the label (or after a slash) starts past the label and white space, with the capture's shape |
| Patterns.SearchName | plugins/similarweb_analysis/scripts/parse_overview.ts:125 | a capture found is well-formed (a non-empty name, white space, then `#`), and there is none exactly when no position has one |
| Patterns.SearchNameIsLeftmost | plugins/similarweb_analysis/scripts/parse_overview.ts:125 | the capture found is the one at the first position that has one |
| Patterns.AmountMatchesWhole | plugins/similarweb_analysis/scripts/parse_overview.ts:53 | an amount matches itself in full |
| Patterns.PercentMatchesWhole | plugins/similarweb_analysis/scripts/parse_overview.ts:56 | a bare percentage matches itself in full |
| Patterns.RankMatchesWhole | plugins/similarweb_analysis/scripts/parse_overview.ts:59 | a rank matches itself in full |
| Patterns.FindAtStart | plugins/similarweb_analysis/scripts/parse_overview.ts:46 | a match at the very start of a line is the one found |
| OverviewFields.DescriptionAnchor | plugins/similarweb_analysis/scripts/parse_overview.ts:65 | the anchor is a line of the text or -1 |
| OverviewFields.SiteDescription | plugins/similarweb_analysis/scripts/parse_overview.ts:63-74 | `-` without an anchor; otherwise `-` exactly when no line from two before to four after the anchor is a long non-SimilarWeb non-heading line, and else the first such line |
| OverviewFields.FindDescription | plugins/similarweb_analysis/scripts/parse_overview.ts:64-74 | the description loop returns SiteDescription |
| OverviewFields.TotalVisits | plugins/similarweb_analysis/scripts/parse_overview.ts:77-88 | `-` or a volume, and `-` without an exact "总访问量" line |
| OverviewFields.TotalVisitsIsLastVolume | plugins/similarweb_analysis/scripts/parse_overview.ts:83-88 | total visits are `-` exactly when none of the four lines after the anchor is a volume, and otherwise the last such line |
| OverviewFields.TotalVisitsChange | plugins/similarweb_analysis/scripts/parse_overview.ts:89-90 | `-` or a signed percentage, and `-` without the anchor |
| OverviewFields.TotalVisitsChangeIsLast | plugins/similarweb_analysis/scripts/parse_overview.ts:83-91 | the change is `-` exactly when no window line carries "…% 自上个月", and otherwise comes from the last one that does |
| OverviewFields.MonthlyChangeFound | plugins/similarweb_analysis/scripts/parse_overview.ts:89-90 | a line carrying "…% 自上个月" yields a change, and it is never `-` |
| OverviewFields.TimeRange | plugins/similarweb_analysis/scripts/parse_overview.ts:84-86 | `-` without the anchor |
| OverviewFields.TimeRangeIsLast | plugins/similarweb_analysis/scripts/parse_overview.ts:83-86 | the time range is `-` exactly when no window line holds a date range, and otherwise is the last line that does |
| OverviewFields.DashIsNoDateRange | plugins/similarweb_analysis/scripts/parse_overview.ts:84 | `-` is not a date range, so the default cannot be mistaken for a found line |
| OverviewFields.ReadTotalVisits | plugins/similarweb_analysis/scripts/parse_overview.ts:76-92 | the loop gives total visits, their change and the time range as specified |
| OverviewFields.VisitsFromLast | plugins/similarweb_analysis/scripts/parse_overview.ts:83-91 | the time range and the volume are the last line of the window of each shape, and the change is the match on the last line carrying one |
| OverviewFields.ValueOnLine | plugins/similarweb_analysis/scripts/parse_overview.ts:97-101 | `-` when no line mentions the keyword; otherwise the first match on the first line that mentions it, or `-` |
| OverviewFields.DesktopShare | plugins/similarweb_analysis/scripts/parse_overview.ts:97-101 | `-` or a decimal percentage: the leftmost `[\d.]+%` on the first line mentioning "Desktop", `-` when that line has none or no line mentions it |
| OverviewFields.MobileShare | plugins/similarweb_analysis/scripts/parse_overview.ts:102-106 | `-` or a decimal percentage: the leftmost `[\d.]+%` on the first line mentioning "Mobile Web", `-` when that line has none or no line mentions it |
| OverviewFields.GlobalRank | plugins/similarweb_analysis/scripts/parse_overview.ts:115-119 | `-` or a rank `#digits`: the leftmost `#[\d,]+` on the first line mentioning "全球排名", `-` when that line has none or no line mentions it |
| OverviewFields.NameOrDash | plugins/similarweb_analysis/scripts/parse_overview.ts:132-133 | `-` when the rest of the line is all white space, otherwise the rest trimmed |
| OverviewFields.RankAfterOn | plugins/similarweb_analysis/scripts/parse_overview.ts:123-134 | when the lazy `label name #rank` capture succeeds, its name and rank; otherwise the first rank on the line, and as name the line with the label and that rank removed, trimmed, or `-` |
| OverviewFields.CountryRank | plugins/similarweb_analysis/scripts/parse_overview.ts:121-135 | `-` for both parts without the label; otherwise exactly what RankAfterOn reads on the first line holding the label |
| OverviewFields.SlashRankOn | plugins/similarweb_analysis/scripts/parse_overview.ts:139-149 | the rank is the first `#digits`; the name is the lazy capture after a slash, failing that the line with the label, the first rank and everything up to the last slash removed, trimmed, or `-` |
| OverviewFields.IndustryRank | plugins/similarweb_analysis/scripts/parse_overview.ts:137-150 | `-` for both parts without the label; otherwise exactly what SlashRankOn reads on the first line holding the label |
| OverviewFields.MetricLine | plugins/similarweb_analysis/scripts/parse_overview.ts:162-178 | a metric's line is -1 without an exact "参与度概览" line, otherwise the first line at or after it mentioning the metric's label, or -1 |
| OverviewFields.Metric | plugins/similarweb_analysis/scripts/parse_overview.ts:162-180 | `-` or a value of the metric's shape; `-` without the metric's line, otherwise what findValueAfter gives over the five lines after it |
| OverviewFields.MetricFromWindow | plugins/similarweb_analysis/scripts/parse_overview.ts:162-179 | without its line a metric is `-`; otherwise it is the leftmost match on the first of the five lines after that line that matches, and `-` when none does (exactly then, for a pattern `-` does not match) |
| OverviewFields.DashIsNoMetric | plugins/similarweb_analysis/scripts/parse_overview.ts:155-160 | `-` has none of the four metric shapes, so a metric of `-` was not found |
| OverviewFields.NonBrandMentionsBrand | plugins/similarweb_analysis/scripts/parse_overview.ts:257-261 | a non-brand line also mentions 品牌, which is why the brand test excludes it |
| OverviewFields.OrganicEnd | plugins/similarweb_analysis/scripts/parse_overview.ts:256 | the organic window ends inside the text |
| OverviewFields.BrandShare | plugins/similarweb_analysis/scripts/parse_overview.ts:257-260 | `-` or a decimal percentage, and `-` without a 自然搜索 line |
| OverviewFields.BrandShareIsLast | plugins/similarweb_analysis/scripts/parse_overview.ts:255-265 | `-` exactly when no brand line of the ten-line window carries a percentage, otherwise from the last that does |
| OverviewFields.NonBrandShare | plugins/similarweb_analysis/scripts/parse_overview.ts:261-264 | `-` or a decimal percentage, and `-` without a 自然搜索 line |
| OverviewFields.NonBrandShareIsLast | plugins/similarweb_analysis/scripts/parse_overview.ts:255-265 | `-` exactly when no non-brand line of the window carries a percentage, otherwise from the last that does |
| OverviewFields.ReadBrandShares | plugins/similarweb_analysis/scripts/parse_overview.ts:255-265 | the single window loop gives both shares as specified |
| OverviewTables.TableEnd | plugins/similarweb_analysis/scripts/parse_overview.ts:191 | the scan window ends inside the text and at most `span` lines after the anchor |
| OverviewTables.ReadSection | plugins/similarweb_analysis/scripts/parse_overview.ts:188-199 | no rows without the heading, otherwise the rows of the scan from the heading |
| OverviewTables.ChangeBelow | plugins/similarweb_analysis/scripts/parse_overview.ts:292 | `-` or a value of the change shape, and `-` when there is no line two below |
| OverviewTables.ShareOnOrAfter | plugins/similarweb_analysis/scripts/parse_overview.ts:240-245 | the percentage on the line itself when it has one, else the first within the next two lines, else `-` |
| OverviewTables.Competitors | plugins/similarweb_analysis/scripts/parse_overview.ts:182-200 | no rows without the heading; at most 29; every site is a host name with `-` or an amount; every row comes from a host-name line before the stop line |
| OverviewTables.CompetitorsExact | plugins/similarweb_analysis/scripts/parse_overview.ts:188-200 | with the heading, the competitors are exactly the rows of the host-name lines from the heading up to and including the first stop line of the window, in line order |
| OverviewTables.ReadCompetitors | plugins/similarweb_analysis/scripts/parse_overview.ts:187-200 | the competitor loop computes Competitors |
| OverviewTables.GeoChange | plugins/similarweb_analysis/scripts/parse_overview.ts:221 | `-` or `+` followed by the second percentage of the line |
| OverviewTables.GeoData | plugins/similarweb_analysis/scripts/parse_overview.ts:202-228 | no rows without the heading; at most five; each row's country is the short percentage-free line above a line with a percentage, before the stop line |
| OverviewTables.GeoDataExact | plugins/similarweb_analysis/scripts/parse_overview.ts:209-228 | with the heading, the countries are the first five rows of the lines from the heading up to and including the first stop line of the window, in line order |
| OverviewTables.ReadGeoData | plugins/similarweb_analysis/scripts/parse_overview.ts:208-228 | the geography loop computes GeoData |
| OverviewTables.ChannelsFor | plugins/similarweb_analysis/scripts/parse_overview.ts:237-248 | one entry for each name some line mentions and none for the others, with the share read at its first line; distinct names give distinct entries (the order: ChannelsForInOrder) |
| OverviewTables.ChannelsForInOrder | plugins/similarweb_analysis/scripts/parse_overview.ts:237-248 | entry `k` is the `k`-th name some line mentions, in name order, with the share read at the first line mentioning it |
| OverviewTables.Channels | plugins/similarweb_analysis/scripts/parse_overview.ts:235-248 | a channel appears exactly when some line mentions it; names are distinct and come from the seven channel names |
| OverviewTables.ChannelsInOrder | plugins/similarweb_analysis/scripts/parse_overview.ts:235-248 | the channels are the seven channel names some line mentions, in that order, each with the share read at its first line |
| OverviewTables.ReadChannels | plugins/similarweb_analysis/scripts/parse_overview.ts:235-248 | the channel loop computes Channels |
| OverviewTables.ChannelsStep | plugins/similarweb_analysis/scripts/parse_overview.ts:237-247 | one more channel name appends that channel's entry, if any |
| OverviewTables.FindChannelFirst | plugins/similarweb_analysis/scripts/parse_overview.ts:267 | `find` gives nothing exactly when no entry has the name, and otherwise the share of the first entry that has it |
| OverviewTables.ChannelLookup | plugins/similarweb_analysis/scripts/parse_overview.ts:267-268 | looking a channel up gives the share read for the first line mentioning it, and nothing when no line does |
| OverviewTables.TermRowsShaped | plugins/similarweb_analysis/scripts/parse_overview.ts:289-295 | every term row is read from its line and has a percentage share and a change of the right shape |
| OverviewTables.OrganicTerms | plugins/similarweb_analysis/scripts/parse_overview.ts:277-300 | no rows without the heading; at most five; each from a term line with a share, before the 付费搜索 line |
| OverviewTables.OrganicTermsExact | plugins/similarweb_analysis/scripts/parse_overview.ts:278-300 | with the heading, the terms are the first five rows of the term lines from the heading up to and including the first 付费搜索 line of the window, in line order |
| OverviewTables.ReadOrganicTerms | plugins/similarweb_analysis/scripts/parse_overview.ts:286-300 | the term loop computes OrganicTerms |
| OverviewTables.TopReferrals | plugins/similarweb_analysis/scripts/parse_overview.ts:302-321 | no rows without the heading; at most five; each from a domain line with a share, before the 热门外链行业 line |
| OverviewTables.ReferralRowsShaped | plugins/similarweb_analysis/scripts/parse_overview.ts:311-317 | each line gives at most one row, read from that line, with a share and change of the right shape |
| OverviewTables.TopReferralsExact | plugins/similarweb_analysis/scripts/parse_overview.ts:309-321 | with the heading, the sites are the first five rows of the domain lines from the heading up to and including the first 热门外链行业 line of the window, in line order |
| OverviewTables.ReadTopReferrals | plugins/similarweb_analysis/scripts/parse_overview.ts:308-321 | the referring-site loop computes TopReferrals |
| OverviewTables.RefIndustries | plugins/similarweb_analysis/scripts/parse_overview.ts:323-339 | no rows without the heading; at most five; each a category line with its percentage, before the 出站 line |
| OverviewTables.RefIndustriesExact | plugins/similarweb_analysis/scripts/parse_overview.ts:329-339 | with the heading, the industries are the first five rows of the lines from the heading up to and including the first 出站 line of the window, in line order |
| OverviewTables.ReadRefIndustries | plugins/similarweb_analysis/scripts/parse_overview.ts:328-339 | the referring-industry loop computes RefIndustries |
| OverviewTables.SocialOn | plugins/similarweb_analysis/scripts/parse_overview.ts:351-362 | with a share on or after the line, exactly one entry per platform the line names, in platform order, each with that share; none without a share |
| OverviewTables.SocialData | plugins/similarweb_analysis/scripts/parse_overview.ts:341-364 | no rows without the heading; at most 8 per scanned line; every row names a platform its line mentions |
| OverviewTables.SocialDataExact | plugins/similarweb_analysis/scripts/parse_overview.ts:347-364 | with the heading, the rows are all those of the lines from the heading up to and including the first 显示广告 line of the window, in line order |
| OverviewTables.ReadSocialData | plugins/similarweb_analysis/scripts/parse_overview.ts:346-364 | the nested platform loop computes SocialData |
| OverviewTables.DisplayAds | plugins/similarweb_analysis/scripts/parse_overview.ts:366-384 | no rows without the heading; at most five; each a publisher line with a share and a change |
| OverviewTables.DisplayAdsExact | plugins/similarweb_analysis/scripts/parse_overview.ts:373-384 | with the heading, the publishers are the first five rows of the domain lines of the window, in line order; there is no stop line |
| OverviewTables.ReadDisplayAds | plugins/similarweb_analysis/scripts/parse_overview.ts:372-384 | the display-ad loop computes DisplayAds |
| Overview.OrganicShareFromLines | plugins/similarweb_analysis/scripts/parse_overview.ts:254-269 | the organic share is `-` without a 自然搜索 line, and otherwise the share read at the first line mentioning 有机搜索 |
| Overview.OverviewShape | plugins/similarweb_analysis/scripts/parse_overview.ts:63-384 | every field of the overview is `-` or has the shape the page prints, and every bounded table keeps its bound |
| Overview.ParseOverview | plugins/similarweb_analysis/scripts/parse_overview.ts:21-384 | the extractor's reads give the overview of the normalised lines |
| OverviewExamples.ChangeLineMatch | plugins/similarweb_analysis/scripts/parse_overview.ts:89 | on `+3.1% 自上个月` the monthly-change pattern reports `+3.1%`, the signed percentage before the words |
| OverviewExamples.VisitsExample | plugins/similarweb_analysis/scripts/parse_overview.ts:76-92 | a page with `总访问量`, then `5.2M`, then `+3.1% 自上个月` gives total visits `5.2M` and change `+3.1%` |
| Markdown.SlotPosition | plugins/similarweb_analysis/scripts/parse_overview.ts:388-514 | each of the twelve places holds only the section kind of that position |
| Markdown.PlacesInPlace | plugins/similarweb_analysis/scripts/parse_overview.ts:388-514 | every place of a report is in position |
| Markdown.SectionsSplit | plugins/similarweb_analysis/scripts/parse_overview.ts:388-514 | the sections of a range of places are those of its two halves, in order |
| Markdown.AscendingSnoc | plugins/similarweb_analysis/scripts/parse_overview.ts:388-514 | a section of a later position appended to ascending sections keeps them ascending |
| Markdown.SectionsWithin | plugins/similarweb_analysis/scripts/parse_overview.ts:388-514 | the sections of a range of places have positions in that range |
| Markdown.SectionsOrdered | plugins/similarweb_analysis/scripts/parse_overview.ts:388-514 | the sections of places in position come in strictly increasing position |
| Markdown.SectionsMembers | plugins/similarweb_analysis/scripts/parse_overview.ts:388-514 | a section is written exactly when its place holds it |
| Markdown.WriteHeader | plugins/similarweb_analysis/scripts/parse_overview.ts:388-420 | the intro, traffic, ranks and engagement blocks are the first four places |
| Markdown.WriteTrafficTables | plugins/similarweb_analysis/scripts/parse_overview.ts:422-450 | the competitor, geography and channel tables, each only when non-empty |
| Markdown.WriteOrganic | plugins/similarweb_analysis/scripts/parse_overview.ts:452-467 | the organic-search block, always written |
| Markdown.WriteReferrals | plugins/similarweb_analysis/scripts/parse_overview.ts:469-489 | the referring-site and referring-industry tables, each only when non-empty |
| Markdown.WriteSocialAndDisplay | plugins/similarweb_analysis/scripts/parse_overview.ts:491-514 | the social and display-ad tables, each only when non-empty |
| Markdown.WriteReport | plugins/similarweb_analysis/scripts/parse_overview.ts:388-514 | the writer produces the report, place by place |
| Markdown.OverviewReport | plugins/similarweb_analysis/scripts/parse_overview.ts:21-514 | the whole extractor gives the report of the overview of the normalised text |
| Markdown.ReportOrdered | plugins/similarweb_analysis/scripts/parse_overview.ts:388-514 | the sections of a report come in strictly increasing position, so none repeats |
| Markdown.ReportOpening | plugins/similarweb_analysis/scripts/parse_overview.ts:388-420 | every report opens with intro, traffic, ranks and engagement, with the overview's values |
| Markdown.OpeningSections | plugins/similarweb_analysis/scripts/parse_overview.ts:388-420 | the first four places hold exactly those four blocks |
| Markdown.ReportHasOrganic | plugins/similarweb_analysis/scripts/parse_overview.ts:452-456 | the organic block is always written, with brand and non-brand shown only when present |
| Markdown.ReportPlace | plugins/similarweb_analysis/scripts/parse_overview.ts:388-514 | a section of a given position is in the report exactly when its place holds it |
| Markdown.ReportCompetitors | plugins/similarweb_analysis/scripts/parse_overview.ts:423-430 | the competitor table is written exactly when there are competitors, and only with them |
| Markdown.ReportGeo | plugins/similarweb_analysis/scripts/parse_overview.ts:432-440 | the geography table is written exactly when there are countries, and only with them |
| Markdown.ReportChannels | plugins/similarweb_analysis/scripts/parse_overview.ts:442-450 | the channel table is written exactly when there are channels, and only with them |
| Markdown.ReportReferrals | plugins/similarweb_analysis/scripts/parse_overview.ts:469-480 | the referring-site table is written exactly when there are referrals, with the 外链 channel share |
| Markdown.ReportRefIndustries | plugins/similarweb_analysis/scripts/parse_overview.ts:482-489 | the referring-industry table is written exactly when there are industries |
| Markdown.ReportSocial | plugins/similarweb_analysis/scripts/parse_overview.ts:491-501 | the social table is written exactly when there are platforms, with the 社交 channel share |
| Markdown.ReportDisplay | plugins/similarweb_analysis/scripts/parse_overview.ts:503-514 | the display table is written exactly when there are publishers, with the 显示广告 channel share |
| Referrals.FirstWhere | plugins/similarweb_analysis/scripts/parse_referrals.ts:35-42 | the search loop returns the first line passing the test, or -1 |
| Referrals.DomainStart | plugins/similarweb_analysis/scripts/parse_referrals.ts:50-59 | the line after the row-number line, or seven after the header when there is none within 20 lines |
| Referrals.NonDomainCount | plugins/similarweb_analysis/scripts/parse_referrals.ts:76-79 | the count of non-domain lines in the look-ahead is at most its length |
| Referrals.CountNonDomains | plugins/similarweb_analysis/scripts/parse_referrals.ts:76-79 | the look-ahead loop counts the non-domain lines |
| Referrals.DomainCellsEmpty | plugins/similarweb_analysis/scripts/parse_referrals.ts:63-85 | no domain cells exactly when no line of the range is a domain |
| Referrals.DomainCellsGap | plugins/similarweb_analysis/scripts/parse_referrals.ts:63-85 | non-domain lines add no cells |
| Referrals.DomainCellsFrom | plugins/similarweb_analysis/scripts/parse_referrals.ts:69-71 | every domain cell is a domain line of the range with its counter stripped |
| Referrals.EndsDomainsRun | plugins/similarweb_analysis/scripts/parse_referrals.ts:76-80 | three non-domain lines in a row end the column, and need three lines to exist |
| Referrals.RunEndsDomains | plugins/similarweb_analysis/scripts/parse_referrals.ts:76-80 | three non-domain lines in a row do end the column |
| Referrals.DomainScanResult | plugins/similarweb_analysis/scripts/parse_referrals.ts:63-85 | the domain scan gives the domain cells up to its end; none exactly when no line is a domain; the column ends at three non-domain lines or at the end |
| Referrals.DomainStop | plugins/similarweb_analysis/scripts/parse_referrals.ts:80-83 | a run of three non-domain lines after a domain ends the column there |
| Referrals.DomainsSpec | plugins/similarweb_analysis/scripts/parse_referrals.ts:63-85 | the domain column read from its start satisfies the domain-scan result |
| Referrals.DomainsPastEnd | plugins/similarweb_analysis/scripts/parse_referrals.ts:67 | a start past the last line gives no domains |
| Referrals.ReadDomains | plugins/similarweb_analysis/scripts/parse_referrals.ts:63-85 | the domain loop, with its nested look-ahead, computes the domain scan |
| Referrals.ColumnCells | plugins/similarweb_analysis/scripts/parse_referrals.ts:97-137 | a column scan keeps what it found, stays within its count, and every new cell comes from a kept line; none exactly when no line is kept |
| Referrals.ReadColumn | plugins/similarweb_analysis/scripts/parse_referrals.ts:101-120 | the column loop computes the column scan |
| Referrals.IndustriesSpec | plugins/similarweb_analysis/scripts/parse_referrals.ts:97-120 | at most one industry per domain, each an industry line of the text, none exactly when no line from the start is one |
| Referrals.RanksSpec | plugins/similarweb_analysis/scripts/parse_referrals.ts:124-137 | at most one rank per domain, each a rank or `-` line of the text, none exactly when no line from the start is one |
| Referrals.TrafficCells | plugins/similarweb_analysis/scripts/parse_referrals.ts:142-167 | the traffic scan keeps what it found, stays within its count, and finds no volume exactly when no line is one |
| Referrals.TrafficPairs | plugins/similarweb_analysis/scripts/parse_referrals.ts:147-162 | some choice of volume lines, each after the line the previous pair ended on, pairs every volume with its line and every percentage with the line after it, or `-` when that line is not a percentage |
| Referrals.TrafficPairsAt | plugins/similarweb_analysis/scripts/parse_referrals.ts:147-162 | the same pairing, from a step that reads a volume and consumes the percentage after it |
| Referrals.PairedStep | plugins/similarweb_analysis/scripts/parse_referrals.ts:149-161 | one more volume with its percentage keeps the pairing |
| Referrals.TrafficSpec | plugins/similarweb_analysis/scripts/parse_referrals.ts:142-167 | at most one volume per domain, paired with its percentage line, every percentage a percentage or `-`, none exactly when no line is a volume |
| Referrals.ReadTraffic | plugins/similarweb_analysis/scripts/parse_referrals.ts:142-167 | the traffic loop (skipping the percentage line it reads) computes Traffic |
| Referrals.NormalizeChangeForm | plugins/similarweb_analysis/scripts/parse_referrals.ts:175-180 | a change stays `-` exactly when it was `-`; otherwise it is a space-free signed percentage whose sign is kept, with `+` put in front of a digit; normalising twice changes nothing |
| Referrals.SignedChange | plugins/similarweb_analysis/scripts/parse_referrals.ts:177 | a normalised change with a sign is that sign followed by the percentage with the white space before it removed, and keeps the signed-percentage form |
| Referrals.UnsignedChange | plugins/similarweb_analysis/scripts/parse_referrals.ts:177-179 | a normalised change without a sign keeps the signed-percentage form and starts with `+`, `,` or `.`; a change starting with a digit just gains `+` |
| Referrals.SpacedPercent | plugins/similarweb_analysis/scripts/parse_referrals.ts:175-177 | white space then a bare percentage loses exactly its leading white space when spaces are removed |
| Referrals.BarePercentHasNoSpaces | plugins/similarweb_analysis/scripts/parse_referrals.ts:177 | a bare percentage holds no white space |
| Referrals.NormalizedIsFixed | plugins/similarweb_analysis/scripts/parse_referrals.ts:175-179 | a normalised change is itself a change line and normalises to itself |
| Referrals.ChangesSpec | plugins/similarweb_analysis/scripts/parse_referrals.ts:171-183 | at most one change per domain, each the normalisation of a change line of the text, `-` or a signed percentage; none exactly when no line is a change |
| Referrals.ColumnsFailures | plugins/similarweb_analysis/scripts/parse_referrals.ts:34-90 | the extractor fails with no header exactly when no line is the `域` header, and with no domains exactly when no line from the domain start is a domain |
| Referrals.ColumnsShape | plugins/similarweb_analysis/scripts/parse_referrals.ts:63-183 | a success has at least one domain, every other column at most one cell per domain, of the shape its scan tests, and at most one percentage short of the volumes |
| Referrals.AfterShape | plugins/similarweb_analysis/scripts/parse_referrals.ts:97-183 | the columns below the domains keep the shapes their scans test for |
| Referrals.IndustriesShape | plugins/similarweb_analysis/scripts/parse_referrals.ts:97-120 | every industry is an industry line taken from the text |
| Referrals.RanksShape | plugins/similarweb_analysis/scripts/parse_referrals.ts:124-137 | every rank is a rank cell |
| Referrals.ChangesShape | plugins/similarweb_analysis/scripts/parse_referrals.ts:171-183 | every change is `-` or a signed percentage |
| Referrals.TrafficShape | plugins/similarweb_analysis/scripts/parse_referrals.ts:142-167 | every volume is a volume, every percentage a percentage cell, and the percentages are at most one short |
| Referrals.ReadColumns | plugins/similarweb_analysis/scripts/parse_referrals.ts:34-183 | the extractor's blocks, one after the other, compute ColumnsOf |
| Referrals.ReadColumnsAfter | plugins/similarweb_analysis/scripts/parse_referrals.ts:97-183 | the blocks below the domains, each starting where the source starts it, compute ColumnsAfter |
| Referrals.AfterOfColumns | plugins/similarweb_analysis/scripts/parse_referrals.ts:126-172 | the columns read from the start indexes the source computes are ColumnsAfter |
| Referrals.ColumnsUnbroken | plugins/similarweb_analysis/scripts/parse_referrals.ts:30 | no cell read from normalised lines holds a line feed |
| Referrals.DomainCellsUnbroken | plugins/similarweb_analysis/scripts/parse_referrals.ts:69-71 | domain cells of line-feed-free lines hold no line feed |
| Referrals.AfterUnbroken | plugins/similarweb_analysis/scripts/parse_referrals.ts:97-183 | no cell below the domains holds a line feed |
| Referrals.RanksUnbroken | plugins/similarweb_analysis/scripts/parse_referrals.ts:124-137 | ranks hold no line feed |
| Referrals.TrafficUnbroken | plugins/similarweb_analysis/scripts/parse_referrals.ts:142-167 | volumes and percentages hold no line feed |
| Referrals.ChangesUnbroken | plugins/similarweb_analysis/scripts/parse_referrals.ts:171-183 | changes hold no line feed |
| Referrals.NormalizedUnbroken | plugins/similarweb_analysis/scripts/parse_referrals.ts:177-179 | normalising a change adds no line feed |
| ReferralsCsv.Cell | plugins/similarweb_analysis/scripts/parse_referrals.ts:191-196 | `x[i] \|\| "-"`: the cell when it exists and is non-empty, `-` otherwise, never empty |
| ReferralsCsv.DigitChar | plugins/similarweb_analysis/scripts/parse_referrals.ts:190 | the character of a decimal digit |
| ReferralsCsv.DecimalRoundTrip | plugins/similarweb_analysis/scripts/parse_referrals.ts:190 | the row number's decimal text is digits without a leading zero and reads back to the number |
| ReferralsCsv.DecimalInjective | plugins/similarweb_analysis/scripts/parse_referrals.ts:190 | distinct row numbers have distinct texts |
| ReferralsCsv.RowLines | plugins/similarweb_analysis/scripts/parse_referrals.ts:189-199 | one row line per row number, in order |
| ReferralsCsv.TerminatedSnoc | plugins/similarweb_analysis/scripts/parse_referrals.ts:198 | appending a row adds that row and a line feed at the end |
| ReferralsCsv.BuildCsv | plugins/similarweb_analysis/scripts/parse_referrals.ts:187-199 | the CSV loop gives the header line followed by one line per domain |
| ReferralsCsv.JoinSnoc | plugins/similarweb_analysis/scripts/parse_referrals.ts:198 | joining one more piece adds the separator and the piece |
| ReferralsCsv.CsvJoin | plugins/similarweb_analysis/scripts/parse_referrals.ts:187-199 | the header and line-feed-terminated rows are the lines joined by line feeds with an empty last line |
| ReferralsCsv.JoinTerminatedStep | plugins/similarweb_analysis/scripts/parse_referrals.ts:198 | one more terminated row keeps the joined form |
| ReferralsCsv.RowLineUnbroken | plugins/similarweb_analysis/scripts/parse_referrals.ts:198 | a row line of line-feed-free cells holds no line feed |
| ReferralsCsv.LinesAfter | plugins/similarweb_analysis/scripts/parse_referrals.ts:187-199 | split at line feeds, the CSV is its header, then its rows, then an empty last piece |
| ReferralsCsv.CsvLines | plugins/similarweb_analysis/scripts/parse_referrals.ts:187-199 | the CSV of columns read from the text splits into the header, one line per domain, and an empty last piece |
| ReferralsCsv.JoinCons | plugins/similarweb_analysis/scripts/parse_referrals.ts:198 | joining a first piece and the rest puts the separator between them |
| ReferralsCsv.JoinSeven | plugins/similarweb_analysis/scripts/parse_referrals.ts:198 | the seven fields joined by commas are the template line |
| ReferralsCsv.RowLineJoin | plugins/similarweb_analysis/scripts/parse_referrals.ts:198 | a row line is its seven fields joined by commas |
| ReferralsCsv.RowFields | plugins/similarweb_analysis/scripts/parse_referrals.ts:189-198 | a row has seven non-empty fields starting with its number, and reads back to them when no cell holds a comma |
| ReferralsCsv.ParseReferrals | plugins/similarweb_analysis/scripts/parse_referrals.ts:29-199 | the whole extractor gives the CSV of the columns, or the failure |
| ReferralsCsv.ReferralsOutcome | plugins/similarweb_analysis/scripts/parse_referrals.ts:34-199 | failure exactly on no header or no domains; otherwise well-shaped columns whose CSV reads back as the header and one row per domain |
| ReferralsLayout.Stripped | plugins/similarweb_analysis/scripts/parse_referrals.ts:69 | stripping counters keeps one cell per domain |
| ReferralsLayout.Cells | plugins/similarweb_analysis/scripts/parse_referrals.ts:177-179 | mapping a cell function keeps one cell per line |
| ReferralsLayout.Interleave | plugins/similarweb_analysis/scripts/parse_referrals.ts:141-143 | the traffic block has two lines per row |
| ReferralsLayout.DomainRun | plugins/similarweb_analysis/scripts/parse_referrals.ts:67-72 | a block of domain lines is read as its stripped cells |
| ReferralsLayout.DomainsEnd | plugins/similarweb_analysis/scripts/parse_referrals.ts:76-83 | three non-domain lines after the block end the domain column there |
| ReferralsLayout.ColumnRun | plugins/similarweb_analysis/scripts/parse_referrals.ts:101-137 | a block of kept lines is read as its cells, up to the count |
| ReferralsLayout.ColumnBlock | plugins/similarweb_analysis/scripts/parse_referrals.ts:101-137 | a full block of kept lines is read as exactly its cells |
| ReferralsLayout.TrafficRun | plugins/similarweb_analysis/scripts/parse_referrals.ts:147-162 | volume/percentage pairs are read as the two columns |
| ReferralsLayout.IndustryBlock | plugins/similarweb_analysis/scripts/parse_referrals.ts:97-120 | a block of industry lines is read as the industry column |
| ReferralsLayout.RankBlock | plugins/similarweb_analysis/scripts/parse_referrals.ts:124-137 | a block of rank lines is read as the rank column |
| ReferralsLayout.ChangeBlock | plugins/similarweb_analysis/scripts/parse_referrals.ts:171-183 | a block of change lines is read as their normalisations |
| ReferralsLayout.TrafficBlock | plugins/similarweb_analysis/scripts/parse_referrals.ts:142-167 | a block of pairs is read as its volumes and percentages |
| ReferralsLayout.VerbatimCells | plugins/similarweb_analysis/scripts/parse_referrals.ts:114 | industries and ranks are kept as written |
| ReferralsLayout.TableOnTop | plugins/similarweb_analysis/scripts/parse_referrals.ts:35-59 | a header line followed by the row-number line puts the domain column two lines down |
| ReferralsLayout.LayoutSlices | plugins/similarweb_analysis/scripts/parse_referrals.ts:141-172 | the laid-out page holds each column at the offset the source expects |
| ReferralsLayout.DomainBlock | plugins/similarweb_analysis/scripts/parse_referrals.ts:63-85 | a domain block followed by three other lines is read as its stripped cells, ending at the block's end |
| ReferralsLayout.AfterFromParts | plugins/similarweb_analysis/scripts/parse_referrals.ts:97-183 | columns read from their offsets assemble into ColumnsAfter |
| ReferralsLayout.LayoutDomains | plugins/similarweb_analysis/scripts/parse_referrals.ts:63-85 | the laid-out page yields exactly its domains, stripped |
| ReferralsLayout.ThreeAfter | plugins/similarweb_analysis/scripts/parse_referrals.ts:76-80 | the three lines after the domain block are not domains |
| ReferralsLayout.LayoutIndustries | plugins/similarweb_analysis/scripts/parse_referrals.ts:97-120 | the laid-out page yields exactly its industries |
| ReferralsLayout.LayoutRanks | plugins/similarweb_analysis/scripts/parse_referrals.ts:124-137 | the laid-out page yields exactly its ranks |
| ReferralsLayout.LayoutTraffic | plugins/similarweb_analysis/scripts/parse_referrals.ts:142-167 | the laid-out page yields exactly its volumes and percentages |
| ReferralsLayout.LayoutChanges | plugins/similarweb_analysis/scripts/parse_referrals.ts:171-183 | the laid-out page yields exactly its changes, normalised |
| ReferralsLayout.HeaderOnTop | plugins/similarweb_analysis/scripts/parse_referrals.ts:34-92 | a page with the header on top and domains below reads as the columns read below the domain block |
| ReferralsLayout.LayoutRoundTrip | plugins/similarweb_analysis/scripts/parse_referrals.ts:34-183 | a page laid out from a table reads back to that table, domains stripped and changes normalised; a one-row table qualifies when its volume does not look like a domain |
| ReferralsLayout.VolumeReadAsDomain | plugins/similarweb_analysis/scripts/parse_referrals.ts:63-85 | on a one-row page whose volume looks like a domain, the domain column takes the volume as a second domain and ends after it |
| ReferralsLayout.DomainTwice | plugins/similarweb_analysis/scripts/parse_referrals.ts:67-83 | a domain scan over eight lines with domains at the third and sixth reads both and ends after the sixth |
| ReferralsLayout.VolumeWithoutPercent | plugins/similarweb_analysis/scripts/parse_referrals.ts:153-172 | on a one-row page whose volume is followed directly by its change, the change is lost and the percentage is `-` |
| ReferralsLayout.LoneDomain | plugins/similarweb_analysis/scripts/parse_referrals.ts:63-85 | a single domain followed by three other lines is a one-domain column |
| ReferralsLayout.LoneRow | plugins/similarweb_analysis/scripts/parse_referrals.ts:97-183 | below it, the volume lacks its percentage and the change column starts past the end |
| ReferralsLayout.LoneVolume | plugins/similarweb_analysis/scripts/parse_referrals.ts:153-162 | a volume whose next line is not a percentage gets `-` |
| ReferralsLayout.SplitsAtSeparator | plugins/similarweb_analysis/scripts/parse_referrals.ts:198 | a text holding the separator splits into at least two pieces |
| ReferralsLayout.SplitJoinedCount | plugins/similarweb_analysis/scripts/parse_referrals.ts:198 | joined pieces split into at least as many pieces, and more when a piece holds the separator |
| ReferralsLayout.CommaSpreads | plugins/similarweb_analysis/scripts/parse_referrals.ts:198 | a cell holding a comma gives a row line of more than seven CSV fields |
| ReferralsExamples.HostLine | plugins/similarweb_analysis/scripts/parse_referrals.ts:63 | a host name with a dot and a word tail is a domain line and has no counter |
| ReferralsExamples.DotlessLine | plugins/similarweb_analysis/scripts/parse_referrals.ts:63 | a line without a dot is not a domain line |
| ReferralsExamples.NameLine | plugins/similarweb_analysis/scripts/parse_referrals.ts:104-113 | a plain name is an industry and not a rank |
| ReferralsExamples.SignedTextIsChange | plugins/similarweb_analysis/scripts/parse_referrals.ts:175-179 | a signed percentage is a change line that normalises to itself |
| ReferralsExamples.CountedHeader | plugins/similarweb_analysis/scripts/parse_referrals.ts:38-52 | `域 (50)` is the header and not a row-number line |
| ReferralsExamples.RowNumbers | plugins/similarweb_analysis/scripts/parse_referrals.ts:52 | `1 2 3` is a row-number line |
| ReferralsExamples.PageLaidOut | plugins/similarweb_analysis/scripts/parse_referrals.ts:34-183 | the two-row example page satisfies the layout conditions |
| ReferralsExamples.PageColumnsRead | plugins/similarweb_analysis/scripts/parse_referrals.ts:34-183 | the example page reads back to its table |
| ReferralsExamples.PageLines | plugins/similarweb_analysis/scripts/parse_referrals.ts:30 | the example page, line by line |
| ReferralsExamples.PageLinesClean | plugins/similarweb_analysis/scripts/parse_referrals.ts:30 | every line of the example page is trimmed and non-empty |
| ReferralsExamples.PageText | plugins/similarweb_analysis/scripts/parse_referrals.ts:30 | the example page's text normalises back to its lines |
| ReferralsExamples.PageRows | plugins/similarweb_analysis/scripts/parse_referrals.ts:189-198 | the example's two CSV rows, field by field |
| ReferralsExamples.TwoRowCsv | plugins/similarweb_analysis/scripts/parse_referrals.ts:187-199 | a two-domain CSV has the header, two row lines and an empty last piece |
| ReferralsExamples.PageCsv | plugins/similarweb_analysis/scripts/parse_referrals.ts:29-199 | the whole extractor turns the example page's text into the CSV of its table |
| ReferralsExamples.DottedVolumeReadAsDomain | plugins/similarweb_analysis/scripts/parse_referrals.ts:63-85 | on the page of a one-row table with volume `5.2M` (a volume, and domain-shaped), the domain column is `a.com` and `5.2M` |
| ReferralsExamples.OneRowLaidOut | plugins/similarweb_analysis/scripts/parse_referrals.ts:34-183 | the one-row example page with volume `52K` satisfies the layout conditions |
| ReferralsExamples.OneRowColumnsRead | plugins/similarweb_analysis/scripts/parse_referrals.ts:34-183 | that one-row page reads back to its table |

## Left out

- Command-line arguments, reading the page file, writing `overview.md` and `referrals_incoming.csv`, console messages and exit codes are left out. They are I/O. The extractors are modelled as functions from the page text to the report sections, or to the CSV text or a `Failure` (`NoHeader`, `NoDomains`). This covers `parse_overview.ts` lines 12-21 and 516-520, and `parse_referrals.ts` lines 20-29 and 201-205.
- The fetch and dismiss scripts of the plugin are not part of this model. They drive a browser.
- There is no general regular-expression engine. Each pattern the extractors use is written as a matcher of its own:
  - In most greedy runs of these patterns, the character that follows the run can never belong to the run's class. For those, taking the longest run gives the match the engine finds.
  - Three patterns are the exception. For each, the matcher states where the engine's backtracking ends:
    - `.*\/` (`parse_overview.ts` line 147) is matched by `ThroughLastSlashAt`. It ends at the last slash before the next line terminator, because `.` also covers `/`.
    - The host-name test `^[\w.-]+\.\w{2,}$` (`parse_overview.ts` line 192) is `IsHostName`. It splits the line at its last dot, because the run before `\.` also covers `.`. `HostNameSplit` proves that this agrees with any dot split the expression allows.
    - The domain test `^[\w][\w.-]*\.\w{2,}(\(\d+\))?$` (`parse_referrals.ts` line 63) is `IsBareDomain` and `IsDomain`. It is split at the last dot in the same way, after an optional `(N)` counter is taken off.
  - The two lazy `(.+?)` name captures of the rank lines are written with their backtracking spelled out: greedy white space, then the shortest name.
- Lengths are counted in characters (code points). JavaScript counts UTF-16 code units, so `length > 50`, `length < 30`, `< 50` and `< 100` can differ for characters outside the Basic Multilingual Plane.
- The exact Markdown characters (headings, table rules, bullets, blank lines) are left out. The report is a sequence of sections that carry the values they print, so order, presence and content are modelled but spelling is not.
- The search-term fallback (`parse_overview.ts` lines 279-285) is left out. It looks up a line and then does nothing with it.
- `Overview.OverviewShape`: the social table is bounded only by eight rows per scanned line, not by a fixed count. The source puts no cap on it.
- `OverviewFields.TimeRange`: only the `-` case is stated in its own contract. What a found range is, namely the last date-range line of the window, is stated by `OverviewFields.TimeRangeIsLast`.
- `ReferralsLayout.LayoutRoundTrip`: a one-row table whose volume has the shape of a domain is excluded. The extractor does not read such a page back; `ReferralsLayout.VolumeReadAsDomain` states what it reads instead.
