/**
 * A worked example of the referrals extractor: a page showing a complete
 * two-row table, read back column by column and written out as CSV.
 */
module ReferralsExamples {
  import opened Wrappers
  import opened Text
  import opened Patterns
  import opened Lookup
  import opened Referrals
  import opened ReferralsCsv
  import opened ReferralsLayout

  /** A host name with one dot and no counter is a domain line. */
  lemma HostLine(s: string, d: nat)
    requires 1 <= d && d + 3 <= |s| && s[d] == '.'
    requires forall j :: 0 <= j < |s| && j != d ==> IsWordChar(s[j])
    ensures IsDomainLine(s) && StripCounter(s) == s
  {
    assert !IsWordChar(')');
    assert CounterStart(s) == -1;
    assert LastIndexOfChar(s, '.', 0, |s|) == d;
    assert AllIn(HostChars, s[..d]) by {
      forall j | 0 <= j < d ensures In(HostChars, s[..d][j]) {
        assert s[..d][j] == s[j];
      }
    }
    var tail := s[d + 1..];
    assert AllIn(WordChars, tail) by {
      forall j | 0 <= j < |tail| ensures In(WordChars, tail[j]) {
        assert tail[j] == s[d + 1 + j];
      }
    }
  }

  /** A line without a dot is not a domain line. */
  lemma DotlessLine(s: string)
    requires '.' !in s
    ensures !IsDomainLine(s)
  {
    var r := StripCounter(s);
    assert '.' !in r;
    assert LastIndexOfChar(r, '.', 0, |r|) == -1;
  }

  /** A capitalised name ending in a lower-case letter, without a dot, is an industry cell. */
  lemma NameLine(s: string)
    requires 1 < |s| < 100 && '.' !in s
    requires 'A' <= s[0] <= 'Z' && 'a' <= s[|s| - 1] <= 'z'
    ensures IsIndustry(s) && !IsRankCell(s)
  {
    assert CounterStart(s) == -1;
    assert LastIndexOfChar(s, '.', 0, |s|) == -1;
    assert LeadingSpaces(s) == 0;
    assert !In(NumChars, s[0]);
  }

  /** A signed percentage without spaces is a change cell, kept as it is. */
  lemma SignedTextIsChange(s: string)
    requires s != [] && IsSign(s[0]) && IsBarePercent(s[1..])
    ensures IsChangeCell(s) && NormalizeChange(s) == s
  {
    assert LeadingSpaces(s[1..]) == 0;
    assert forall k :: 0 <= k < |s| ==> !IsSpace(s[k]) by {
      forall k | 0 <= k < |s| ensures !IsSpace(s[k]) {
        if k > 0 {
          assert s[k] == s[1..][k - 1];
          assert k - 1 == |s| - 2 || In(NumChars, s[1..][..|s| - 2][k - 1]);
        }
      }
    }
  }

  /** The header of a table listing 50 referring domains. */
  lemma CountedHeader()
    ensures IsHeaderLine("域 (50)") && !IsSequenceLine("域 (50)")
  {
    var rest := " (50)";
    assert IsSpace(rest[0]) && !IsSpace(rest[1]);
    assert LeadingSpaces(rest[1..]) == 0;
    assert LeadingSpaces(rest) == 1;
    assert rest[1..] == "(50)";
    assert AllIn(RankChars, "50");
  }

  /** The row-number line. */
  lemma RowNumbers()
    ensures IsSequenceLine("1 2 3")
  {
    var q := "1 2 3";
    assert IsSpace(q[1]) && !IsSpace(q[2]);
    assert RunEnd(Spaces, q, 2) == 2;
    assert RunEnd(Spaces, q, 1) == 2;
    assert IsSpace(q[3]) && !IsSpace(q[4]);
    assert RunEnd(Spaces, q, 4) == 4;
    assert RunEnd(Spaces, q, 3) == 4;
  }

  /** Two lines passing `p` make a column passing `p`. */
  lemma EveryOfOne(p: string -> bool, a: string)
    requires p(a)
    ensures Every(p, [a])
  {
  }

  lemma EveryOfTwo(p: string -> bool, a: string, b: string)
    requires p(a) && p(b)
    ensures Every(p, [a, b])
  {
  }

  // ---------------------------------------------------------------------
  // A complete two-row table
  // ---------------------------------------------------------------------

  /** A table of two referring domains. */
  const PageTable: Columns :=
    Columns(["a.com", "b.net"], ["Shopping", "News"], ["#12", "-"], ["1.2M", "500K"], ["3.4%", "1.1%"], ["+2.1%", "-0.3%"])

  /** The trimmed lines of the page showing `PageTable`. */
  const Page: seq<string> := Layout("域 (50)", "1 2 3", PageTable)

  lemma PageDomainLines()
    ensures Every(IsDomainLine, PageTable.domains) && Stripped(PageTable.domains) == PageTable.domains
  {
    HostLine("a.com", 1);
    HostLine("b.net", 1);
    EveryOfTwo(IsDomainLine, "a.com", "b.net");
  }

  lemma PageIndustryLines()
    ensures Every(IsIndustry, PageTable.industries) && Every(NotDomainLine, PageTable.industries)
  {
    NameLine("Shopping");
    NameLine("News");
    DotlessLine("Shopping");
    DotlessLine("News");
    EveryOfTwo(IsIndustry, "Shopping", "News");
    EveryOfTwo(NotDomainLine, "Shopping", "News");
  }

  lemma PageRankLines()
    ensures Every(IsRankCell, PageTable.ranks) && Every(NotDomainLine, PageTable.ranks)
  {
    assert IsRankCell("#12") by { assert AllIn(RankChars, "12"); }
    DotlessLine("#12");
    DotlessLine("-");
    EveryOfTwo(IsRankCell, "#12", "-");
    EveryOfTwo(NotDomainLine, "#12", "-");
  }

  lemma PageTrafficLines()
    ensures Every(IsVolume, PageTable.trafficAbsolute) && Every(IsBarePercent, PageTable.trafficPercent)
  {
    assert IsVolume("1.2M") by { assert AllIn(NumChars, "1.2"); }
    assert IsVolume("500K") by { assert AllIn(NumChars, "500"); }
    assert IsBarePercent("3.4%") by { assert AllIn(NumChars, "3.4"); }
    assert IsBarePercent("1.1%") by { assert AllIn(NumChars, "1.1"); }
    EveryOfTwo(IsVolume, "1.2M", "500K");
    EveryOfTwo(IsBarePercent, "3.4%", "1.1%");
  }

  lemma Rise()
    ensures IsChangeCell("+2.1%") && NormalizeChange("+2.1%") == "+2.1%"
  {
    assert IsBarePercent("2.1%") by { assert AllIn(NumChars, "2.1"); }
    assert "+2.1%"[1..] == "2.1%";
    SignedTextIsChange("+2.1%");
  }

  lemma Fall()
    ensures IsChangeCell("-0.3%") && NormalizeChange("-0.3%") == "-0.3%"
  {
    assert IsBarePercent("0.3%") by { assert AllIn(NumChars, "0.3"); }
    assert "-0.3%"[1..] == "0.3%";
    SignedTextIsChange("-0.3%");
  }

  lemma PageChangeLines()
    ensures Every(IsChangeCell, PageTable.changes) && Cells(NormalizeChange, PageTable.changes) == PageTable.changes
  {
    Rise();
    Fall();
    EveryOfTwo(IsChangeCell, "+2.1%", "-0.3%");
    assert Cells(NormalizeChange, ["-0.3%"]) == ["-0.3%"];
  }

  /** The table is laid out unambiguously. */
  lemma PageLaidOut()
    ensures LaidOut("域 (50)", "1 2 3", PageTable)
  {
    CountedHeader();
    RowNumbers();
    PageDomainLines();
    PageIndustryLines();
    PageRankLines();
    PageTrafficLines();
    PageChangeLines();
  }

  /** The columns read from `Page` are the table it shows. */
  lemma PageColumnsRead()
    ensures ColumnsOf(Page) == Success(PageTable)
  {
    PageLaidOut();
    LayoutRoundTrip("域 (50)", "1 2 3", PageTable);
    PageDomainLines();
    PageChangeLines();
  }

  /** The lines of `Page`, written out. */
  lemma PageLines()
    ensures Page == ["域 (50)", "1 2 3", "a.com", "b.net", "Shopping", "News", "#12", "-",
                     "1.2M", "3.4%", "500K", "1.1%", "+2.1%", "-0.3%"]
  {
    assert Interleave(["1.2M", "500K"], ["3.4%", "1.1%"]) == ["1.2M", "3.4%", "500K", "1.1%"] by {
      assert Interleave(["500K"], ["1.1%"]) == ["500K", "1.1%"];
    }
  }

  /** A line as it comes out of the normaliser: not empty, trimmed, unbroken. */
  predicate IsCleanLine(l: string) {
    l != [] && IsTrimmed(l) && '\n' !in l
  }

  /** Two columns passing `p` join into one passing `p`. */
  lemma EveryJoined(p: string -> bool, a: seq<string>, b: seq<string>)
    requires Every(p, a) && Every(p, b)
    ensures Every(p, a + b)
  {
    forall k | 0 <= k < |a + b| ensures p((a + b)[k]) {
      if k >= |a| {
        assert (a + b)[k] == b[k - |a|];
      }
    }
  }

  lemma TopClean()
    ensures Every(IsCleanLine, ["域 (50)", "1 2 3", "a.com", "b.net"])
  {
    assert IsCleanLine("域 (50)") && IsCleanLine("1 2 3") && IsCleanLine("a.com") && IsCleanLine("b.net");
  }

  lemma MiddleClean()
    ensures Every(IsCleanLine, ["Shopping", "News", "#12", "-"])
  {
    assert IsCleanLine("Shopping") && IsCleanLine("News") && IsCleanLine("#12") && IsCleanLine("-");
  }

  lemma BottomClean()
    ensures Every(IsCleanLine, ["1.2M", "3.4%", "500K", "1.1%", "+2.1%", "-0.3%"])
  {
    assert IsCleanLine("1.2M") && IsCleanLine("3.4%") && IsCleanLine("500K") && IsCleanLine("1.1%");
    assert IsCleanLine("+2.1%") && IsCleanLine("-0.3%");
  }

  /** Every line of `Page` is clean. */
  lemma PageLinesClean()
    ensures Every(IsCleanLine, Page)
  {
    var top := ["域 (50)", "1 2 3", "a.com", "b.net"];
    var middle := ["Shopping", "News", "#12", "-"];
    var bottom := ["1.2M", "3.4%", "500K", "1.1%", "+2.1%", "-0.3%"];
    PageLines();
    assert Page == top + middle + bottom;
    TopClean();
    MiddleClean();
    BottomClean();
    EveryJoined(IsCleanLine, top, middle);
    EveryJoined(IsCleanLine, top + middle, bottom);
  }

  /** The page's text splits back into its lines. */
  lemma PageText()
    ensures NormalizeLines(Join(Page, '\n')) == Page
  {
    PageLinesClean();
    assert forall k :: 0 <= k < |Page| ==> IsCleanLine(Page[k]);
    NormalizeLinesJoin(Page);
  }

  /** The first two row numbers. */
  lemma FirstNumbers()
    ensures DecimalText(1) == "1" && DecimalText(2) == "2"
  {
    assert DigitChar(1) == '1' && DigitChar(2) == '2';
  }

  /** The CSV fields of `Page`'s two rows. */
  lemma PageRows()
    ensures Row(PageTable, 0) == ["1", "a.com", "Shopping", "#12", "1.2M", "3.4%", "+2.1%"]
    ensures Row(PageTable, 1) == ["2", "b.net", "News", "-", "500K", "1.1%", "-0.3%"]
  {
    FirstNumbers();
  }

  /** No cell of `PageTable` holds a line feed. */
  lemma PageUnbroken()
    ensures Unbroken(PageTable)
  {
    EveryOfTwo(NoLineFeed, "a.com", "b.net");
    EveryOfTwo(NoLineFeed, "Shopping", "News");
    EveryOfTwo(NoLineFeed, "#12", "-");
    EveryOfTwo(NoLineFeed, "1.2M", "500K");
    EveryOfTwo(NoLineFeed, "3.4%", "1.1%");
    EveryOfTwo(NoLineFeed, "+2.1%", "-0.3%");
  }

  /** The CSV of a two-row table is its header and the two row lines. */
  lemma TwoRowCsv(c: Columns)
    requires |c.domains| == 2 && Unbroken(c)
    ensures Split(CsvText(c), '\n') == [Header, RowLine(c, 0), RowLine(c, 1), ""]
  {
    CsvLines(c);
    assert RowLines(c, 2) == [RowLine(c, 0), RowLine(c, 1)];
  }

  /** The CSV of `PageTable` is its header and one line per domain. */
  lemma PageCsvLines()
    ensures Split(CsvText(PageTable), '\n') == [Header, RowLine(PageTable, 0), RowLine(PageTable, 1), ""]
  {
    PageUnbroken();
    TwoRowCsv(PageTable);
  }

  /** The text of `Page` gives the CSV of the table it shows. */
  lemma PageCsv()
    ensures ReferralsResult(Join(Page, '\n')) == Success(CsvText(PageTable))
  {
    PageText();
    PageColumnsRead();
  }
  // ---------------------------------------------------------------------
  // One-row pages
  // ---------------------------------------------------------------------

  /** A one-row table whose volume `5.2M` has the shape of a domain. */
  const DottedVolumeTable: Columns := Columns(["a.com"], ["Shopping"], ["#12"], ["5.2M"], ["34%"], ["+2%"])

  /** On that page the domain column also takes the volume, so its rows are not read back. */
  lemma DottedVolumeReadAsDomain()
    ensures IsVolume("5.2M") && IsDomainLine("5.2M")
    ensures Domains(Layout("域 (50)", "1 2 3", DottedVolumeTable), 2).0 == ["a.com", "5.2M"]
  {
    DottedVolumeCells();
    VolumeReadAsDomain("域 (50)", "1 2 3", DottedVolumeTable);
  }

  lemma DottedVolumeCells()
    ensures IsVolume("5.2M") && IsDomainLine("5.2M") && StripCounter("5.2M") == "5.2M"
    ensures IsDomainLine("a.com") && StripCounter("a.com") == "a.com"
    ensures NotDomainLine("Shopping") && NotDomainLine("#12") && NotDomainLine("34%") && NotDomainLine("+2%")
  {
    DottedVolume();
    OneRowDomain();
    OneRowIndustry();
    OneRowRank();
    OneRowShares();
  }

  lemma OneRowShares()
    ensures NotDomainLine("34%") && NotDomainLine("+2%")
  {
    DotlessLine("34%");
    DotlessLine("+2%");
  }

  lemma DottedVolume()
    ensures IsVolume("5.2M") && IsDomainLine("5.2M") && StripCounter("5.2M") == "5.2M"
  {
    assert AllIn(NumChars, "5.2");
    HostLine("5.2M", 1);
  }
  /** A one-row table whose volume has no dot. */
  const OneRowTable: Columns := Columns(["a.com"], ["Shopping"], ["#12"], ["52K"], ["34%"], ["+2%"])

  lemma OneRowNames()
    ensures Every(IsDomainLine, OneRowTable.domains) && Stripped(OneRowTable.domains) == OneRowTable.domains
    ensures Every(IsIndustry, OneRowTable.industries) && Every(NotDomainLine, OneRowTable.industries)
    ensures Every(IsRankCell, OneRowTable.ranks) && Every(NotDomainLine, OneRowTable.ranks)
  {
    OneRowDomain();
    EveryOfOne(IsDomainLine, "a.com");
    OneRowIndustry();
    EveryOfOne(IsIndustry, "Shopping");
    EveryOfOne(NotDomainLine, "Shopping");
    OneRowRank();
    EveryOfOne(IsRankCell, "#12");
    EveryOfOne(NotDomainLine, "#12");
  }

  lemma OneRowDomain()
    ensures IsDomainLine("a.com") && StripCounter("a.com") == "a.com"
  {
    HostLine("a.com", 1);
  }

  lemma OneRowRank()
    ensures IsRankCell("#12") && NotDomainLine("#12")
  {
    assert AllIn(RankChars, "12");
    DotlessLine("#12");
  }

  lemma OneRowIndustry()
    ensures IsIndustry("Shopping") && NotDomainLine("Shopping")
  {
    NameLine("Shopping");
    DotlessLine("Shopping");
  }

  lemma OneRowFigures()
    ensures Every(IsVolume, OneRowTable.trafficAbsolute) && NotDomainLine("52K")
    ensures Every(IsBarePercent, OneRowTable.trafficPercent)
    ensures Every(IsChangeCell, OneRowTable.changes) && Cells(NormalizeChange, OneRowTable.changes) == OneRowTable.changes
  {
    OneRowVolume();
    EveryOfOne(IsVolume, "52K");
    OneRowPercent();
    EveryOfOne(IsBarePercent, "34%");
    OneRowChange();
    EveryOfOne(IsChangeCell, "+2%");
    assert Cells(NormalizeChange, ["+2%"]) == [NormalizeChange("+2%")];
  }

  lemma OneRowVolume()
    ensures IsVolume("52K") && NotDomainLine("52K")
  {
    assert AllIn(NumChars, "52");
    DotlessLine("52K");
  }

  lemma OneRowPercent()
    ensures IsBarePercent("34%")
  {
    assert AllIn(NumChars, "34");
  }

  lemma OneRowChange()
    ensures IsChangeCell("+2%") && NormalizeChange("+2%") == "+2%"
  {
    assert "+2%"[1..] == "2%";
    assert IsBarePercent("2%") by { assert AllIn(NumChars, "2"); }
    SignedTextIsChange("+2%");
  }

  lemma OneRowLaidOut()
    ensures LaidOut("域 (50)", "1 2 3", OneRowTable)
  {
    CountedHeader();
    RowNumbers();
    OneRowNames();
    OneRowFigures();
  }

  /** Its page is read back as the table itself. */
  lemma OneRowColumnsRead()
    ensures ColumnsOf(Layout("域 (50)", "1 2 3", OneRowTable)) == Success(OneRowTable)
  {
    OneRowLaidOut();
    LayoutRoundTrip("域 (50)", "1 2 3", OneRowTable);
    OneRowNames();
    OneRowFigures();
  }
}
