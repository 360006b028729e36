/**
 * What the referrals extractor reads from a page laid out the way the
 * table is rendered: the header line, the row-number line, then each
 * column's cells one per line, the traffic column as volume/percentage
 * pairs.  Such a page reads back to exactly its cells (domains without
 * their counters, changes normalised).  Two behaviours of the extractor as
 * written are stated here too: a volume without its percentage makes the
 * change column start one line late, so a change is lost; and a cell
 * holding a comma spreads over more than one CSV field.
 */
module ReferralsLayout {
  import opened Wrappers
  import opened Text
  import opened Patterns
  import opened Lookup
  import opened Referrals
  import opened ReferralsCsv

  /** Each line with its counter stripped. */
  function Stripped(xs: seq<string>): (r: seq<string>)
    ensures |r| == |xs|
    decreases |xs|
  {
    if xs == [] then [] else [StripCounter(xs[0])] + Stripped(xs[1..])
  }

  /** `cell` of each line. */
  function Cells(cell: string -> string, xs: seq<string>): (r: seq<string>)
    ensures |r| == |xs|
    decreases |xs|
  {
    if xs == [] then [] else [cell(xs[0])] + Cells(cell, xs[1..])
  }

  /** Volumes and percentages alternating, a volume first. */
  function Interleave(volumes: seq<string>, percents: seq<string>): (r: seq<string>)
    requires |volumes| == |percents|
    ensures |r| == 2 * |volumes|
    decreases |volumes|
  {
    if volumes == [] then [] else [volumes[0], percents[0]] + Interleave(volumes[1..], percents[1..])
  }

  /** The lines of a page showing the table `c` under `header` and the row numbers. */
  function Layout(header: string, numbers: string, c: Columns): seq<string>
    requires |c.trafficAbsolute| == |c.trafficPercent|
  {
    [header, numbers] + c.domains + c.industries + c.ranks + Interleave(c.trafficAbsolute, c.trafficPercent) + c.changes
  }

  /** Not a domain line. */
  predicate NotDomainLine(l: string) {
    !IsDomainLine(l)
  }

  /**
   * A table the layout renders unambiguously: at least one row, every
   * column full, every line of the shape its scan tests for, and no
   * industry or rank line read as a domain.  With a single row the volume
   * is the third line after the domain, inside the window that ends the
   * domain column, so it must not look like a domain either (a volume
   * such as `5.2M` does; see VolumeReadAsDomain).
   */
  predicate LaidOut(header: string, numbers: string, c: Columns) {
    && |c.domains| >= 1
    && |c.industries| == |c.domains|
    && |c.ranks| == |c.domains|
    && |c.trafficAbsolute| == |c.domains|
    && |c.trafficPercent| == |c.domains|
    && |c.changes| == |c.domains|
    && (|c.domains| == 1 ==> NotDomainLine(c.trafficAbsolute[0]))
    && IsHeaderLine(header) && !IsSequenceLine(header) && IsSequenceLine(numbers)
    && Every(IsDomainLine, c.domains)
    && Every(IsIndustry, c.industries) && Every(NotDomainLine, c.industries)
    && Every(IsRankCell, c.ranks) && Every(NotDomainLine, c.ranks)
    && Every(IsVolume, c.trafficAbsolute)
    && Every(IsBarePercent, c.trafficPercent)
    && Every(IsChangeCell, c.changes)
  }

  // ---------------------------------------------------------------------
  // Runs of lines through the scans
  // ---------------------------------------------------------------------

  /** A run of domain lines is collected, stripped, and the column's end moves past it. */
  lemma {:induction false} DomainRun(isDomain: string -> bool, lines: seq<string>, i: nat, block: seq<string>, domains: seq<string>, end: nat)
    requires |block| >= 1 && i + |block| <= |lines| && lines[i..i + |block|] == block
    requires Every(isDomain, block)
    ensures DomainScan(isDomain, lines, i, domains, end) ==
      DomainScan(isDomain, lines, i + |block|, domains + Stripped(block), i + |block|)
    decreases |block|
  {
    assert lines[i] == block[0];
    var more := domains + [StripCounter(block[0])];
    assert DomainScan(isDomain, lines, i, domains, end) == DomainScan(isDomain, lines, i + 1, more, i + 1);
    if |block| > 1 {
      var rest := block[1..];
      assert lines[i + 1..i + 1 + |rest|] == rest;
      DomainRun(isDomain, lines, i + 1, rest, more, i + 1);
      assert more + Stripped(rest) == domains + Stripped(block);
    } else {
      assert Stripped(block) == [StripCounter(block[0])];
    }
  }

  /** Three non-domain lines after a domain end the column. */
  lemma DomainsEnd(isDomain: string -> bool, lines: seq<string>, i: nat, domains: seq<string>, end: nat)
    requires i + 3 <= |lines| && |domains| > 0
    requires !isDomain(lines[i]) && !isDomain(lines[i + 1]) && !isDomain(lines[i + 2])
    ensures DomainScan(isDomain, lines, i, domains, end) == (domains, i)
  {
    assert NonDomainCount(isDomain, lines, i + 3, i + 3) == 0;
    assert NonDomainCount(isDomain, lines, i + 2, i + 3) == 1;
    assert NonDomainCount(isDomain, lines, i + 1, i + 3) == 2;
  }

  /** A run of kept lines that fills the column gives their cells. */
  lemma {:induction false} ColumnRun(keep: string -> bool, cell: string -> string, stop: string -> bool, lines: seq<string>, i: nat, count: nat, found: seq<string>, block: seq<string>)
    requires |block| >= 1 && i + |block| <= |lines| && lines[i..i + |block|] == block
    requires Every(keep, block) && |found| + |block| == count
    ensures ColumnScan(keep, cell, stop, lines, i, count, found) == found + Cells(cell, block)
    decreases |block|
  {
    assert lines[i] == block[0];
    var more := found + [cell(block[0])];
    if |block| > 1 {
      var rest := block[1..];
      assert lines[i + 1..i + 1 + |rest|] == rest;
      ColumnRun(keep, cell, stop, lines, i + 1, count, more, rest);
      assert more + Cells(cell, rest) == found + Cells(cell, block);
    } else {
      assert Cells(cell, block) == [cell(block[0])];
    }
  }

  /** A block of kept lines read from its first line on gives the block's cells. */
  lemma ColumnBlock(keep: string -> bool, cell: string -> string, stop: string -> bool, lines: seq<string>, i: nat, block: seq<string>)
    requires |block| >= 1 && i + |block| <= |lines| && lines[i..i + |block|] == block
    requires Every(keep, block)
    ensures ColumnScan(keep, cell, stop, lines, i, |block|, []) == Cells(cell, block)
  {
    ColumnRun(keep, cell, stop, lines, i, |block|, [], block);
    assert [] + Cells(cell, block) == Cells(cell, block);
  }

  /** A run of volume/percentage pairs that fills the column gives the volumes and the percentages. */
  lemma {:induction false} TrafficRun(t: Shapes, lines: seq<string>, i: nat, count: nat, absolute: seq<string>, percent: seq<string>, volumes: seq<string>, percents: seq<string>)
    requires |volumes| == |percents| >= 1
    requires i + 2 * |volumes| <= |lines| && lines[i..i + 2 * |volumes|] == Interleave(volumes, percents)
    requires Every(t.volume, volumes) && Every(t.percent, percents)
    requires |absolute| + |volumes| == count
    ensures TrafficScan(t, lines, i, count, absolute, percent) == (absolute + volumes, percent + percents)
    decreases |volumes|
  {
    var block := Interleave(volumes, percents);
    assert lines[i] == block[0] == volumes[0];
    assert lines[i + 1] == block[1] == percents[0];
    assert t.volume(volumes[0]) && t.percent(percents[0]);
    assert PercentAfter(t, lines, i) == percents[0];
    assert AfterVolume(t, lines, i) == i + 2;
    var absolute' := absolute + [volumes[0]];
    var percent' := percent + [percents[0]];
    if |volumes| > 1 {
      assert TrafficScan(t, lines, i, count, absolute, percent) == TrafficScan(t, lines, i + 2, count, absolute', percent');
      var vs := volumes[1..];
      var ps := percents[1..];
      assert block[2..] == Interleave(vs, ps);
      assert lines[i + 2..i + 2 + 2 * |vs|] == block[2..];
      TrafficRun(t, lines, i + 2, count, absolute', percent', vs, ps);
      assert absolute' + vs == absolute + volumes;
      assert percent' + ps == percent + percents;
    } else {
      assert volumes == [volumes[0]] && percents == [percents[0]];
    }
  }

  /** The industry column read from a block of industry lines. */
  lemma IndustryBlock(lines: seq<string>, i: nat, block: seq<string>)
    requires |block| >= 1 && i + |block| <= |lines| && lines[i..i + |block|] == block
    requires Every(IsIndustry, block)
    ensures Industries(lines, i, |block|) == block
  {
    ColumnBlock(IsIndustry, Verbatim, IsRankCell, lines, i, block);
    VerbatimCells(block);
  }

  /** The rank column read from a block of rank cells. */
  lemma RankBlock(lines: seq<string>, i: nat, block: seq<string>)
    requires |block| >= 1 && i + |block| <= |lines| && lines[i..i + |block|] == block
    requires Every(IsRankCell, block)
    ensures Ranks(lines, i, |block|) == block
  {
    ColumnBlock(IsRankCell, Verbatim, StartsWithVolume, lines, i, block);
    VerbatimCells(block);
  }

  /** The change column read from a block of change cells, normalised. */
  lemma ChangeBlock(lines: seq<string>, i: nat, block: seq<string>)
    requires |block| >= 1 && i + |block| <= |lines| && lines[i..i + |block|] == block
    requires Every(IsChangeCell, block)
    ensures Changes(lines, i, |block|) == Cells(NormalizeChange, block)
  {
    ColumnBlock(IsChangeCell, NormalizeChange, NoStop, lines, i, block);
  }

  /** The traffic column read from a block of volume/percentage pairs. */
  lemma TrafficBlock(lines: seq<string>, i: nat, volumes: seq<string>, percents: seq<string>)
    requires |volumes| == |percents| >= 1
    requires i + 2 * |volumes| <= |lines| && lines[i..i + 2 * |volumes|] == Interleave(volumes, percents)
    requires Every(IsVolume, volumes) && Every(IsBarePercent, percents)
    ensures Traffic(lines, i, |volumes|) == (volumes, percents)
  {
    assert Every(TrafficLines.volume, volumes) by {
      forall k | 0 <= k < |volumes| ensures TrafficLines.volume(volumes[k]) {
        assert IsVolume(volumes[k]);
      }
    }
    assert Every(TrafficLines.percent, percents) by {
      forall k | 0 <= k < |percents| ensures TrafficLines.percent(percents[k]) {
        assert IsBarePercent(percents[k]);
      }
    }
    TrafficRun(TrafficLines, lines, i, |volumes|, [], [], volumes, percents);
    assert [] + volumes == volumes && [] + percents == percents;
  }

  /** Leaving out a line's counter does nothing to a line without one, and so on down a column. */
  lemma VerbatimCells(xs: seq<string>)
    ensures Cells(Verbatim, xs) == xs
  {
    if xs != [] {
      VerbatimCells(xs[1..]);
    }
  }

  // ---------------------------------------------------------------------
  // The round trip
  // ---------------------------------------------------------------------

  /** The header on the first line and the row numbers on the second: the domains start on the third. */
  lemma TableOnTop(lines: seq<string>)
    requires |lines| >= 2 && IsHeaderLine(lines[0]) && !IsSequenceLine(lines[0]) && IsSequenceLine(lines[1])
    ensures HeaderIndex(lines) == 0 && DomainStart(lines, 0) == 2
  {
    assert FirstLineWhere(lines, 0, |lines|, IsHeaderLine) == 0;
    assert FirstLineWhere(lines, 0, Min(20, |lines|), IsSequenceLine) == 1;
  }

  /** The middle of three joined sequences. */
  lemma Middle(pre: seq<string>, mid: seq<string>, post: seq<string>)
    ensures (pre + mid + post)[|pre|..|pre| + |mid|] == mid
  {
    assert forall k :: 0 <= k < |mid| ==> (pre + mid + post)[|pre| + k] == mid[k];
  }

  /** Where the first three of six joined pieces lie. */
  lemma FrontPieces(p0: seq<string>, p1: seq<string>, p2: seq<string>, p3: seq<string>, p4: seq<string>, p5: seq<string>)
    ensures (p0 + p1 + p2 + p3 + p4 + p5)[..|p0|] == p0
    ensures (p0 + p1 + p2 + p3 + p4 + p5)[|p0|..|p0| + |p1|] == p1
    ensures (p0 + p1 + p2 + p3 + p4 + p5)[|p0| + |p1|..|p0| + |p1| + |p2|] == p2
  {
    var all := p0 + p1 + p2 + p3 + p4 + p5;
    assert all == p0 + (p1 + p2 + p3 + p4 + p5);
    Middle(p0, p1, p2 + p3 + p4 + p5);
    assert all == p0 + p1 + (p2 + p3 + p4 + p5);
    Middle(p0 + p1, p2, p3 + p4 + p5);
  }

  /** Where the last three of six joined pieces lie. */
  lemma BackPieces(p0: seq<string>, p1: seq<string>, p2: seq<string>, p3: seq<string>, p4: seq<string>, p5: seq<string>)
    ensures (p0 + p1 + p2 + p3 + p4 + p5)[|p0| + |p1| + |p2|..|p0| + |p1| + |p2| + |p3|] == p3
    ensures (p0 + p1 + p2 + p3 + p4 + p5)[|p0| + |p1| + |p2| + |p3|..|p0| + |p1| + |p2| + |p3| + |p4|] == p4
    ensures (p0 + p1 + p2 + p3 + p4 + p5)[|p0| + |p1| + |p2| + |p3| + |p4|..] == p5
  {
    var all := p0 + p1 + p2 + p3 + p4 + p5;
    assert all == p0 + p1 + p2 + (p3 + p4 + p5);
    Middle(p0 + p1 + p2, p3, p4 + p5);
    assert all == p0 + p1 + p2 + p3 + (p4 + p5);
    Middle(p0 + p1 + p2 + p3, p4, p5);
  }

  /** Where each column of a laid-out page lies. */
  lemma LayoutSlices(header: string, numbers: string, c: Columns, n: nat)
    requires |c.domains| == n && |c.industries| == n && |c.ranks| == n
    requires |c.trafficAbsolute| == n && |c.trafficPercent| == n && |c.changes| == n
    ensures |Layout(header, numbers, c)| == 2 + 6 * n
    ensures Layout(header, numbers, c)[0] == header && Layout(header, numbers, c)[1] == numbers
    ensures Layout(header, numbers, c)[2..2 + n] == c.domains
    ensures Layout(header, numbers, c)[2 + n..2 + 2 * n] == c.industries
    ensures Layout(header, numbers, c)[2 + 2 * n..2 + 3 * n] == c.ranks
    ensures Layout(header, numbers, c)[2 + 3 * n..2 + 5 * n] == Interleave(c.trafficAbsolute, c.trafficPercent)
    ensures Layout(header, numbers, c)[2 + 5 * n..2 + 6 * n] == c.changes
  {
    var t := Interleave(c.trafficAbsolute, c.trafficPercent);
    FrontPieces([header, numbers], c.domains, c.industries, c.ranks, t, c.changes);
    BackPieces([header, numbers], c.domains, c.industries, c.ranks, t, c.changes);
  }

  /** A block of domain lines followed by three other lines: the domain column is that block. */
  lemma DomainBlock(isDomain: string -> bool, lines: seq<string>, n: nat, block: seq<string>)
    requires |block| == n >= 1 && 2 + n + 3 <= |lines| && lines[2..2 + n] == block
    requires Every(isDomain, block)
    requires !isDomain(lines[2 + n]) && !isDomain(lines[3 + n]) && !isDomain(lines[4 + n])
    ensures DomainScan(isDomain, lines, 2, [], 2) == (Stripped(block), 2 + n)
  {
    DomainRun(isDomain, lines, 2, block, [], 2);
    assert [] + Stripped(block) == Stripped(block);
    DomainsEnd(isDomain, lines, 2 + n, Stripped(block), 2 + n);
  }

  /** The columns below a domain block of `n` lines read as the given cells. */
  predicate ReadBelow(lines: seq<string>, n: nat, industries: seq<string>, ranks: seq<string>, absolute: seq<string>, percent: seq<string>, changes: seq<string>) {
    && |industries| == n && |ranks| == n && |absolute| == n
    && Industries(lines, 2 + n, n) == industries
    && Ranks(lines, 2 + 2 * n, n) == ranks
    && Traffic(lines, 2 + 3 * n, n) == (absolute, percent)
    && Changes(lines, 2 + 5 * n, n) == changes
  }

  /** The columns below the domains, assembled from what each column's scan reads. */
  lemma AfterFromParts(lines: seq<string>, n: nat, domains: seq<string>, industries: seq<string>, ranks: seq<string>, absolute: seq<string>, percent: seq<string>, changes: seq<string>)
    requires |domains| == n
    requires ReadBelow(lines, n, industries, ranks, absolute, percent, changes)
    ensures ColumnsAfter(lines, domains, 2 + n) == Columns(domains, industries, ranks, absolute, percent, changes)
  {
    assert ChangeStart(2 + 3 * n, absolute) == 2 + 5 * n;
  }

  /** The domain column of a laid-out page: its domain lines, stripped, ending where the industries start. */
  lemma LayoutDomains(header: string, numbers: string, c: Columns)
    requires LaidOut(header, numbers, c)
    ensures Domains(Layout(header, numbers, c), 2) == (Stripped(c.domains), 2 + |c.domains|)
  {
    var n := |c.domains|;
    var lines := Layout(header, numbers, c);
    LayoutSlices(header, numbers, c, n);
    if n >= 2 {
      ThreeAfter(NotDomainLine, lines, n, c.industries, c.ranks);
    } else {
      assert lines[3] == c.industries[0] && lines[4] == c.ranks[0];
      assert lines[5] == Interleave(c.trafficAbsolute, c.trafficPercent)[0] == c.trafficAbsolute[0];
    }
    DomainBlock(IsDomainLine, lines, n, c.domains);
  }

  /** The three lines after the domain block come from the next two full columns. */
  lemma ThreeAfter(p: string -> bool, lines: seq<string>, n: nat, a: seq<string>, b: seq<string>)
    requires n >= 2 && |a| == n && |b| == n && 2 + 3 * n <= |lines|
    requires lines[2 + n..2 + 2 * n] == a && lines[2 + 2 * n..2 + 3 * n] == b
    requires Every(p, a) && Every(p, b)
    ensures p(lines[2 + n]) && p(lines[3 + n]) && p(lines[4 + n])
  {
    assert lines[2 + n] == a[0] && lines[3 + n] == a[1];
    if n >= 3 {
      assert lines[4 + n] == a[2];
    } else {
      assert lines[4 + n] == b[0];
    }
  }

  /** The industry column of a laid-out page. */
  lemma LayoutIndustries(header: string, numbers: string, c: Columns, n: nat)
    requires LaidOut(header, numbers, c) && n == |c.domains|
    ensures Industries(Layout(header, numbers, c), 2 + n, n) == c.industries
  {
    LayoutSlices(header, numbers, c, n);
    assert 2 + n + |c.industries| == 2 + 2 * n;
    IndustryBlock(Layout(header, numbers, c), 2 + n, c.industries);
  }

  /** The rank column of a laid-out page. */
  lemma LayoutRanks(header: string, numbers: string, c: Columns, n: nat)
    requires LaidOut(header, numbers, c) && n == |c.domains|
    ensures Ranks(Layout(header, numbers, c), 2 + 2 * n, n) == c.ranks
  {
    LayoutSlices(header, numbers, c, n);
    ThirdBlockRanks(Layout(header, numbers, c), n, c.ranks);
  }

  /** The third block of `n` lines after the two header lines, all rank cells, is the rank column. */
  lemma ThirdBlockRanks(lines: seq<string>, n: nat, ranks: seq<string>)
    requires n >= 1 && |ranks| == n && 2 + 3 * n <= |lines| && lines[2 + 2 * n..2 + 3 * n] == ranks
    requires Every(IsRankCell, ranks)
    ensures Ranks(lines, 2 + 2 * n, n) == ranks
  {
    assert 2 + 2 * n + |ranks| == 2 + 3 * n;
    RankBlock(lines, 2 + 2 * n, ranks);
  }

  /** The traffic columns of a laid-out page. */
  lemma LayoutTraffic(header: string, numbers: string, c: Columns, n: nat)
    requires LaidOut(header, numbers, c) && n == |c.domains|
    ensures Traffic(Layout(header, numbers, c), 2 + 3 * n, n) == (c.trafficAbsolute, c.trafficPercent)
  {
    LayoutSlices(header, numbers, c, n);
    assert 2 + 3 * n + 2 * |c.trafficAbsolute| == 2 + 5 * n;
    TrafficBlock(Layout(header, numbers, c), 2 + 3 * n, c.trafficAbsolute, c.trafficPercent);
  }

  /** The change column of a laid-out page, normalised. */
  lemma LayoutChanges(header: string, numbers: string, c: Columns, n: nat)
    requires LaidOut(header, numbers, c) && n == |c.domains|
    ensures Changes(Layout(header, numbers, c), 2 + 5 * n, n) == Cells(NormalizeChange, c.changes)
  {
    LayoutSlices(header, numbers, c, n);
    assert 2 + 5 * n + |c.changes| == 2 + 6 * n;
    ChangeBlock(Layout(header, numbers, c), 2 + 5 * n, c.changes);
  }

  /** A page with its header on top and the row numbers under it reads on from the domain column. */
  lemma HeaderOnTop(lines: seq<string>, domains: seq<string>, domainEnd: nat, cols: Columns)
    requires HeaderIndex(lines) == 0 && DomainStart(lines, 0) == 2
    requires Domains(lines, 2) == (domains, domainEnd) && |domains| >= 1
    requires ColumnsAfter(lines, domains, domainEnd) == cols
    ensures ColumnsOf(lines) == Success(cols)
  {
  }

  /**
   * A page laid out from a table reads back to that table: the domains
   * with their counters stripped, the industries, ranks, volumes and
   * percentages as they are, the changes normalised.
   */
  lemma LayoutRoundTrip(header: string, numbers: string, c: Columns)
    requires LaidOut(header, numbers, c)
    ensures ColumnsOf(Layout(header, numbers, c)) ==
      Success(Columns(Stripped(c.domains), c.industries, c.ranks, c.trafficAbsolute, c.trafficPercent,
                      Cells(NormalizeChange, c.changes)))
  {
    var lines := Layout(header, numbers, c);
    var n := |c.domains|;
    LayoutSlices(header, numbers, c, n);
    TableOnTop(lines);
    LayoutDomains(header, numbers, c);
    LayoutIndustries(header, numbers, c, n);
    LayoutRanks(header, numbers, c, n);
    LayoutTraffic(header, numbers, c, n);
    LayoutChanges(header, numbers, c, n);
    var cols := Columns(Stripped(c.domains), c.industries, c.ranks, c.trafficAbsolute, c.trafficPercent,
                        Cells(NormalizeChange, c.changes));
    AfterFromParts(lines, n, cols.domains, cols.industries, cols.ranks, cols.trafficAbsolute, cols.trafficPercent, cols.changes);
    HeaderOnTop(lines, cols.domains, 2 + n, cols);
  }

  // ---------------------------------------------------------------------
  // Behaviours as written
  // ---------------------------------------------------------------------

  /**
   * A volume without its percentage: the change column is assumed to start
   * two lines per volume after the traffic column, so on a one-row page
   * whose volume is followed directly by its change, the change is lost
   * and the row gets `-` for both the percentage and the change.
   */
  lemma VolumeWithoutPercent(lines: seq<string>)
    requires |lines| == 7
    requires IsHeaderLine(lines[0]) && !IsSequenceLine(lines[0]) && IsSequenceLine(lines[1])
    requires IsDomainLine(lines[2])
    requires IsIndustry(lines[3]) && NotDomainLine(lines[3])
    requires IsRank(lines[4]) && NotDomainLine(lines[4])
    requires IsVolume(lines[5]) && NotDomainLine(lines[5])
    requires IsSignedPercent(lines[6]) && !IsBarePercent(lines[6])
    ensures IsChangeCell(lines[6])
    ensures ColumnsOf(lines) ==
      Success(Columns([StripCounter(lines[2])], [lines[3]], [lines[4]], [lines[5]], ["-"], []))
  {
    TableOnTop(lines);
    LoneDomain(IsDomainLine, lines);
    LoneRow(lines, [StripCounter(lines[2])]);
  }

  /**
   * On a one-row page whose volume also has the shape of a domain (such as
   * `5.2M`), no three non-domain lines follow the domain before the volume,
   * so the domain column runs on and takes the volume as a second domain.
   */
  lemma VolumeReadAsDomain(header: string, numbers: string, c: Columns)
    requires |c.domains| == 1 && |c.industries| == 1 && |c.ranks| == 1
    requires |c.trafficAbsolute| == 1 && |c.trafficPercent| == 1 && |c.changes| == 1
    requires IsDomainLine(c.domains[0]) && NotDomainLine(c.industries[0]) && NotDomainLine(c.ranks[0])
    requires IsDomainLine(c.trafficAbsolute[0]) && NotDomainLine(c.trafficPercent[0]) && NotDomainLine(c.changes[0])
    ensures Domains(Layout(header, numbers, c), 2) == ([StripCounter(c.domains[0]), StripCounter(c.trafficAbsolute[0])], 6)
  {
    var lines := Layout(header, numbers, c);
    LayoutSlices(header, numbers, c, 1);
    var t := Interleave(c.trafficAbsolute, c.trafficPercent);
    assert t[0] == c.trafficAbsolute[0] && t[1] == c.trafficPercent[0];
    assert lines[2] == lines[2..3][0] && lines[3] == lines[3..4][0] && lines[4] == lines[4..5][0];
    assert lines[5] == lines[5..7][0] && lines[6] == lines[5..7][1] && lines[7] == lines[7..8][0];
    DomainTwice(IsDomainLine, lines);
  }

  /** Eight lines with domains at 2 and 5 only: the domain scan from 2 takes both. */
  lemma DomainTwice(isDomain: string -> bool, lines: seq<string>)
    requires |lines| == 8 && isDomain(lines[2]) && isDomain(lines[5])
    requires !isDomain(lines[3]) && !isDomain(lines[4]) && !isDomain(lines[6]) && !isDomain(lines[7])
    ensures DomainScan(isDomain, lines, 2, [], 2) == ([StripCounter(lines[2]), StripCounter(lines[5])], 6)
  {
    var d, v := StripCounter(lines[2]), StripCounter(lines[5]);
    assert NonDomainCount(isDomain, lines, 8, 8) == 0;
    assert NonDomainCount(isDomain, lines, 7, 8) == 1;
    assert NonDomainCount(isDomain, lines, 6, 8) == 2;
    assert NonDomainCount(isDomain, lines, 7, 7) == 0;
    assert NonDomainCount(isDomain, lines, 6, 7) == 1;
    assert NonDomainCount(isDomain, lines, 5, 7) == 1;
    assert NonDomainCount(isDomain, lines, 4, 7) == 2;
    assert NonDomainCount(isDomain, lines, 6, 6) == 0;
    assert NonDomainCount(isDomain, lines, 5, 6) == 0;
    assert NonDomainCount(isDomain, lines, 4, 6) == 1;
    assert NonDomainCount(isDomain, lines, 3, 6) == 2;
    assert DomainScan(isDomain, lines, 8, [d, v], 6) == ([d, v], 6);
    assert DomainScan(isDomain, lines, 7, [d, v], 6) == ([d, v], 6);
    assert DomainScan(isDomain, lines, 6, [d, v], 6) == ([d, v], 6);
    assert [d] + [v] == [d, v];
    assert DomainScan(isDomain, lines, 5, [d], 3) == ([d, v], 6);
    assert DomainScan(isDomain, lines, 4, [d], 3) == ([d, v], 6);
    assert DomainScan(isDomain, lines, 3, [d], 3) == ([d, v], 6);
    assert [] + [d] == [d];
  }

  /** A single domain line followed by three other lines. */
  lemma LoneDomain(isDomain: string -> bool, lines: seq<string>)
    requires |lines| >= 6 && isDomain(lines[2])
    requires !isDomain(lines[3]) && !isDomain(lines[4]) && !isDomain(lines[5])
    ensures DomainScan(isDomain, lines, 2, [], 2) == ([StripCounter(lines[2])], 3)
  {
    assert lines[2..3] == [lines[2]];
    DomainBlock(isDomain, lines, 1, [lines[2]]);
    assert Stripped([lines[2]]) == [StripCounter(lines[2])];
  }

  /** The row below a one-domain column whose volume lacks its percentage. */
  lemma LoneRow(lines: seq<string>, domains: seq<string>)
    requires |lines| == 7 && |domains| == 1
    requires IsIndustry(lines[3]) && IsRank(lines[4]) && IsVolume(lines[5]) && !IsBarePercent(lines[6])
    ensures ColumnsAfter(lines, domains, 3) == Columns(domains, [lines[3]], [lines[4]], [lines[5]], ["-"], [])
  {
    ColumnRun(IsIndustry, Verbatim, IsRankCell, lines, 3, 1, [], [lines[3]]);
    VerbatimCells([lines[3]]);
    ColumnRun(IsRankCell, Verbatim, StartsWithVolume, lines, 4, 1, [], [lines[4]]);
    VerbatimCells([lines[4]]);
    LoneVolume(TrafficLines, lines, 5);
    assert Changes(lines, 7, 1) == [];
    AfterFromParts(lines, 1, domains, [lines[3]], [lines[4]], [lines[5]], ["-"], []);
  }

  /** A volume whose next line is not a percentage gets `-`; a one-row column is then full. */
  lemma LoneVolume(t: Shapes, lines: seq<string>, i: nat)
    requires i + 1 < |lines| && t.volume(lines[i]) && !t.percent(lines[i + 1])
    ensures TrafficScan(t, lines, i, 1, [], []) == ([lines[i]], ["-"])
  {
    assert PercentAfter(t, lines, i) == "-";
    assert [] + [lines[i]] == [lines[i]];
    assert [] + ["-"] == ["-"];
  }

  /** A piece holding the separator splits in two or more. */
  lemma SplitsAtSeparator(s: string, sep: char)
    requires sep in s
    ensures |Split(s, sep)| >= 2
  {
    var k := IndexOfChar(s, sep, 0);
    assert k >= 0;
  }

  /**
   * Joined pieces split into at least one field per piece, and into more
   * fields than pieces when some piece holds the separator.
   */
  lemma {:induction false} SplitJoinedCount(pieces: seq<string>, sep: char)
    requires |pieces| >= 1
    ensures |Split(Join(pieces, sep), sep)| >= |pieces|
    ensures (exists k :: 0 <= k < |pieces| && sep in pieces[k]) ==> |Split(Join(pieces, sep), sep)| > |pieces|
    decreases |pieces|
  {
    if |pieces| == 1 {
      if sep in pieces[0] {
        SplitsAtSeparator(pieces[0], sep);
      }
    } else {
      var rest := pieces[1..];
      SplitJoinedCount(rest, sep);
      SplitAppend(pieces[0], Join(rest, sep), sep);
      if sep in pieces[0] {
        SplitsAtSeparator(pieces[0], sep);
      }
      if k :| 0 <= k < |pieces| && sep in pieces[k] {
        if k > 0 {
          assert sep in rest[k - 1];
        }
      }
    }
  }

  /**
   * The CSV does not quote its cells: a row with a comma in one of its
   * cells (a rank such as `#1,234`, a volume such as `1,234K`) reads back
   * as more than seven fields.
   */
  lemma CommaSpreads(c: Columns, i: nat, k: nat)
    requires 1 <= k < 7 && ',' in Row(c, i)[k]
    ensures |Split(RowLine(c, i), ',')| > 7
  {
    RowLineJoin(c, i);
    SplitJoinedCount(Row(c, i), ',');
  }
}
