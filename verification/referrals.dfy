/**
 * The referrals extractor: the incoming-referrals page is captured as
 * separate column blocks (row numbers, domains, industries, ranks, traffic
 * volume/percentage pairs, changes), and the columns are rebuilt by
 * scanning the normalised lines block after block.
 *
 * Each block has a specification function that follows the scan line by
 * line (with the values collected so far as an accumulator) and a method
 * with the extractor's own loop, proved to compute that function.  The
 * lemmas state what each column holds and where each scan stops.
 */
module Referrals {
  import opened Wrappers
  import opened Text
  import opened Patterns
  import opened Lookup

  /** Why the extractor gives up (it reports the error and exits with status 1). */
  datatype Failure = NoHeader | NoDomains

  /** The rebuilt columns, each in page order. */
  datatype Columns = Columns(
    domains: seq<string>,
    industries: seq<string>,
    ranks: seq<string>,
    trafficAbsolute: seq<string>,
    trafficPercent: seq<string>,
    changes: seq<string>)

  // ---------------------------------------------------------------------
  // Locating the table
  // ---------------------------------------------------------------------

  /** The first line of `[lo, hi)` satisfying `f`, by a scan that stops at the first hit. */
  method FirstWhere(lines: seq<string>, lo: nat, hi: nat, f: string -> bool) returns (k: int)
    requires hi <= |lines|
    ensures k == FirstLineWhere(lines, lo, hi, f)
  {
    k := -1;
    var i := lo;
    while i < hi
      invariant FirstLineWhere(lines, i, hi, f) == FirstLineWhere(lines, lo, hi, f)
      invariant k == -1
      decreases hi - i
    {
      if f(lines[i]) {
        k := i;
        break;
      }
      i := i + 1;
    }
  }

  /** The line holding the `域` header, or -1. */
  function HeaderIndex(lines: seq<string>): int {
    FirstLineWhere(lines, 0, |lines|, IsHeaderLine)
  }

  /** The row-number line `1 2 3 ...`, looked for among the 20 lines from the header on, or -1. */
  function SequenceIndex(lines: seq<string>, header: nat): int {
    FirstLineWhere(lines, header, Min(header + 20, |lines|), IsSequenceLine)
  }

  /** The domain column starts after the row-number line, or 7 lines below the header without one. */
  function DomainStart(lines: seq<string>, header: nat): (start: nat)
    ensures start > header
    ensures SequenceIndex(lines, header) == -1 ==> start == header + 7
    ensures SequenceIndex(lines, header) != -1 ==> start <= |lines| && IsSequenceLine(lines[start - 1])
  {
    var s := SequenceIndex(lines, header);
    if s >= 0 then s + 1 else header + 7
  }

  // ---------------------------------------------------------------------
  // Domains
  // ---------------------------------------------------------------------

  /** After its `(N)` counter is stripped, the line is a domain. */
  predicate IsDomainLine(l: string) {
    IsDomain(StripCounter(l))
  }

  /*
   * The domain scan and its lemmas take the line test `isDomain` as a
   * parameter; the extractor's column is the instance `IsDomainLine`
   * (see Domains).  Nothing below depends on what the test is.
   */

  /** How many of the lines `[lo, hi)` fail `isDomain`. */
  function NonDomainCount(isDomain: string -> bool, lines: seq<string>, lo: nat, hi: nat): (c: nat)
    requires hi <= |lines|
    ensures lo <= hi ==> c <= hi - lo
    decreases hi - lo
  {
    if lo >= hi then 0
    else (if isDomain(lines[lo]) then 0 else 1) + NonDomainCount(isDomain, lines, lo + 1, hi)
  }

  /**
   * The three lines from `i` on are all non-domain lines.  Near the end of
   * the text the window is clipped and can never hold three.
   */
  predicate EndsDomains(isDomain: string -> bool, lines: seq<string>, i: nat)
    requires i < |lines|
  {
    NonDomainCount(isDomain, lines, i, Min(i + 3, |lines|)) >= 3
  }

  /**
   * The domain scan from line `i`: `domains` were collected so far and
   * `end` is the line after the last one.  A domain line is collected with
   * its counter stripped; a non-domain line after the first domain ends the
   * column when it starts three non-domain lines, and is skipped otherwise.
   */
  function DomainScan(isDomain: string -> bool, lines: seq<string>, i: nat, domains: seq<string>, end: nat): (seq<string>, nat)
    decreases |lines| - i
  {
    if i >= |lines| then (domains, end)
    else if isDomain(lines[i]) then DomainScan(isDomain, lines, i + 1, domains + [StripCounter(lines[i])], i + 1)
    else if |domains| > 0 && EndsDomains(isDomain, lines, i) then (domains, i)
    else DomainScan(isDomain, lines, i + 1, domains, end)
  }

  /** The domain column from `start`, and the index where it ends. */
  function Domains(lines: seq<string>, start: nat): (seq<string>, nat) {
    DomainScan(IsDomainLine, lines, start, [], start)
  }

  /** The stripped domain lines among `[lo, hi)`, in order. */
  function DomainCells(isDomain: string -> bool, lines: seq<string>, lo: nat, hi: nat): seq<string>
    requires hi <= |lines|
    decreases hi
  {
    if hi <= lo then []
    else DomainCells(isDomain, lines, lo, hi - 1) + (if isDomain(lines[hi - 1]) then [StripCounter(lines[hi - 1])] else [])
  }

  lemma {:induction false} DomainCellsEmpty(isDomain: string -> bool, lines: seq<string>, lo: nat, hi: nat)
    requires hi <= |lines|
    ensures DomainCells(isDomain, lines, lo, hi) == [] <==> forall j :: lo <= j < hi ==> !isDomain(lines[j])
    decreases hi
  {
    if hi > lo {
      DomainCellsEmpty(isDomain, lines, lo, hi - 1);
    }
  }

  /** Lines without domains add nothing to DomainCells. */
  lemma {:induction false} DomainCellsGap(isDomain: string -> bool, lines: seq<string>, lo: nat, mid: nat, hi: nat)
    requires lo <= mid <= hi <= |lines|
    requires forall j :: mid <= j < hi ==> !isDomain(lines[j])
    ensures DomainCells(isDomain, lines, lo, hi) == DomainCells(isDomain, lines, lo, mid)
    decreases hi
  {
    if hi > mid {
      DomainCellsGap(isDomain, lines, lo, mid, hi - 1);
    }
  }

  /** `v` is a line of `[lo, hi)` passing `isDomain`, with its counter stripped. */
  ghost predicate StrippedOf(isDomain: string -> bool, lines: seq<string>, lo: nat, hi: nat, v: string)
    requires hi <= |lines|
  {
    exists j :: lo <= j < hi && isDomain(lines[j]) && v == StripCounter(lines[j])
  }

  /** Every domain cell is a domain line of `[lo, hi)` with its counter stripped. */
  lemma {:induction false} DomainCellsFrom(isDomain: string -> bool, lines: seq<string>, lo: nat, hi: nat)
    requires hi <= |lines|
    ensures forall k :: 0 <= k < |DomainCells(isDomain, lines, lo, hi)| ==>
      StrippedOf(isDomain, lines, lo, hi, DomainCells(isDomain, lines, lo, hi)[k])
    decreases hi
  {
    if hi > lo {
      var before := DomainCells(isDomain, lines, lo, hi - 1);
      var all := DomainCells(isDomain, lines, lo, hi);
      DomainCellsFrom(isDomain, lines, lo, hi - 1);
      forall k | 0 <= k < |all| ensures StrippedOf(isDomain, lines, lo, hi, all[k]) {
        if k < |before| {
          assert all[k] == before[k];
          var j :| lo <= j < hi - 1 && isDomain(lines[j]) && before[k] == StripCounter(lines[j]);
        } else {
          assert isDomain(lines[hi - 1]) && all[k] == StripCounter(lines[hi - 1]);
        }
      }
    }
  }

  /** A stop line starts three non-domain lines that fit in the text. */
  lemma EndsDomainsRun(isDomain: string -> bool, lines: seq<string>, i: nat)
    requires i < |lines| && EndsDomains(isDomain, lines, i)
    ensures i + 3 <= |lines|
    ensures !isDomain(lines[i]) && !isDomain(lines[i + 1]) && !isDomain(lines[i + 2])
  {
    var hi := Min(i + 3, |lines|);
    assert NonDomainCount(isDomain, lines, i, hi) == (if isDomain(lines[i]) then 0 else 1) + NonDomainCount(isDomain, lines, i + 1, hi);
    assert NonDomainCount(isDomain, lines, i + 1, hi) == (if isDomain(lines[i + 1]) then 0 else 1) + NonDomainCount(isDomain, lines, i + 2, hi);
    assert NonDomainCount(isDomain, lines, i + 2, hi) == (if isDomain(lines[i + 2]) then 0 else 1) + NonDomainCount(isDomain, lines, i + 3, hi);
  }

  /** Three non-domain lines that fit in the text make a stop line. */
  lemma RunEndsDomains(isDomain: string -> bool, lines: seq<string>, i: nat)
    requires i + 3 <= |lines|
    requires !isDomain(lines[i]) && !isDomain(lines[i + 1]) && !isDomain(lines[i + 2])
    ensures EndsDomains(isDomain, lines, i)
  {
    assert NonDomainCount(isDomain, lines, i + 2, i + 3) == 1;
    assert NonDomainCount(isDomain, lines, i + 1, i + 3) == 2;
  }

  /** The state the domain scan keeps while it has not stopped. */
  ghost predicate DomainState(isDomain: string -> bool, lines: seq<string>, start: nat, i: nat, domains: seq<string>, end: nat) {
    && start <= i <= |lines|
    && domains == DomainCells(isDomain, lines, start, i)
    && (domains == [] ==> end == start)
    && (domains != [] ==> start < end <= i && isDomain(lines[end - 1]))
    && (forall j :: end <= j < i ==> !isDomain(lines[j]))
    && (forall j :: start <= j < i && EndsDomains(isDomain, lines, j) ==> DomainCells(isDomain, lines, start, j) == [])
  }

  /** What the domain column is, given where it ends. */
  ghost predicate DomainResult(isDomain: string -> bool, lines: seq<string>, start: nat, domains: seq<string>, end: nat)
    requires start <= |lines|
  {
    && end <= |lines|
    && domains == DomainCells(isDomain, lines, start, end)
    && (domains == [] <==> forall j :: start <= j < |lines| ==> !isDomain(lines[j]))
    && (domains != [] ==> start < end && isDomain(lines[end - 1]))
    && (domains != [] ==>
          (end < |lines| && EndsDomains(isDomain, lines, end)) || forall j :: end <= j < |lines| ==> !isDomain(lines[j]))
    && (forall j :: start <= j < end && EndsDomains(isDomain, lines, j) ==> DomainCells(isDomain, lines, start, j) == [])
  }

  lemma {:induction false} DomainScanResult(isDomain: string -> bool, lines: seq<string>, start: nat, i: nat, domains: seq<string>, end: nat)
    requires DomainState(isDomain, lines, start, i, domains, end)
    ensures DomainResult(isDomain, lines, start, DomainScan(isDomain, lines, i, domains, end).0, DomainScan(isDomain, lines, i, domains, end).1)
    decreases |lines| - i
  {
    if i == |lines| {
      DomainCellsGap(isDomain, lines, start, end, i);
      DomainCellsEmpty(isDomain, lines, start, i);
    } else if isDomain(lines[i]) {
      if EndsDomains(isDomain, lines, i) {
        EndsDomainsRun(isDomain, lines, i);
      }
      DomainScanResult(isDomain, lines, start, i + 1, domains + [StripCounter(lines[i])], i + 1);
    } else if |domains| > 0 && EndsDomains(isDomain, lines, i) {
      DomainStop(isDomain, lines, start, i, domains, end);
    } else {
      DomainCellsEmpty(isDomain, lines, start, i);
      DomainScanResult(isDomain, lines, start, i + 1, domains, end);
    }
  }

  /** A run of three non-domain lines after a domain ends the column right after that domain. */
  lemma DomainStop(isDomain: string -> bool, lines: seq<string>, start: nat, i: nat, domains: seq<string>, end: nat)
    requires DomainState(isDomain, lines, start, i, domains, end)
    requires i < |lines| && |domains| > 0 && EndsDomains(isDomain, lines, i)
    ensures DomainResult(isDomain, lines, start, domains, i)
  {
    EndsDomainsRun(isDomain, lines, i);
    if end < i {
      RunEndsDomains(isDomain, lines, i - 1);
      assert false;
    }
    DomainCellsEmpty(isDomain, lines, start, i);
  }

  /**
   * The domain column: the stripped domain lines from `start` up to `end`,
   * in order; it is empty exactly when no line from `start` on is a domain;
   * it ends right after a domain line, either where three non-domain lines
   * start or (when no such run follows) after the last domain of the text;
   * and no earlier run of three non-domain lines after the first domain
   * stopped it, so one or two stray lines inside the column are skipped.
   */
  lemma DomainsSpec(lines: seq<string>, start: nat)
    requires start <= |lines|
    ensures DomainResult(IsDomainLine, lines, start, Domains(lines, start).0, Domains(lines, start).1)
  {
    DomainScanResult(IsDomainLine, lines, start, start, [], start);
  }

  /** Past the end of the text the domain column is empty. */
  lemma DomainsPastEnd(lines: seq<string>, start: nat)
    requires start > |lines|
    ensures Domains(lines, start) == ([], start)
  {
  }

  /** The extractor's inner loop: how many lines of `[lo, hi)` are not domain lines. */
  method CountNonDomains(isDomain: string -> bool, lines: seq<string>, lo: nat, hi: nat) returns (n: nat)
    requires lo <= hi <= |lines|
    ensures n == NonDomainCount(isDomain, lines, lo, hi)
  {
    n := 0;
    var j := lo;
    while j < hi
      invariant lo <= j <= hi
      invariant n + NonDomainCount(isDomain, lines, j, hi) == NonDomainCount(isDomain, lines, lo, hi)
      decreases hi - j
    {
      if !isDomain(lines[j]) {
        n := n + 1;
      }
      j := j + 1;
    }
  }

  /**
   * The extractor's domain loop, with `isDomain` the test of a line with its
   * counter stripped (`IsDomainLine` in the extractor).
   */
  method ReadDomains(isDomain: string -> bool, lines: seq<string>, start: nat) returns (domains: seq<string>, end: nat)
    ensures (domains, end) == DomainScan(isDomain, lines, start, [], start)
  {
    domains := [];
    end := start;
    var i := start;
    while i < |lines|
      invariant DomainScan(isDomain, lines, i, domains, end) == DomainScan(isDomain, lines, start, [], start)
      decreases |lines| - i
    {
      if isDomain(lines[i]) {
        domains := domains + [StripCounter(lines[i])];
        end := i + 1;
      } else if |domains| > 0 {
        var nonDomain := CountNonDomains(isDomain, lines, i, Min(i + 3, |lines|));
        if nonDomain >= 3 {
          end := i;
          break;
        }
      }
      i := i + 1;
    }
  }

  // ---------------------------------------------------------------------
  // Industries, ranks and changes
  // ---------------------------------------------------------------------

  /*
   * The industry, rank and change blocks are read by the same kind of
   * loop: a line passing `keep` adds `cell` of it to the column until the
   * column holds `count` cells; once the column is not empty, a line
   * passing `stop` ends it; any other line is skipped.
   */

  /** The column scan from line `i`, with `found` collected so far. */
  function ColumnScan(keep: string -> bool, cell: string -> string, stop: string -> bool, lines: seq<string>, i: nat, count: nat, found: seq<string>): seq<string>
    decreases |lines| - i
  {
    if i >= |lines| then found
    else if keep(lines[i]) then
      var more := found + [cell(lines[i])];
      if |more| >= count then more else ColumnScan(keep, cell, stop, lines, i + 1, count, more)
    else if |found| > 0 && stop(lines[i]) then found
    else ColumnScan(keep, cell, stop, lines, i + 1, count, found)
  }

  /**
   * What a column scan keeps: what was found stays first; the column holds
   * at most `count` cells; every new cell is `cell` of a kept line from `i`
   * on; and a scan that starts empty stays empty exactly when no line from
   * `i` on is kept.
   */
  lemma {:induction false} ColumnCells(keep: string -> bool, cell: string -> string, stop: string -> bool, lines: seq<string>, i: nat, count: nat, found: seq<string>)
    requires |found| < count
    ensures found <= ColumnScan(keep, cell, stop, lines, i, count, found)
    ensures |ColumnScan(keep, cell, stop, lines, i, count, found)| <= count
    ensures forall k :: |found| <= k < |ColumnScan(keep, cell, stop, lines, i, count, found)| ==>
      CellOf(keep, cell, lines, i, ColumnScan(keep, cell, stop, lines, i, count, found)[k])
    ensures found == [] ==>
      (ColumnScan(keep, cell, stop, lines, i, count, found) == [] <==> forall j :: i <= j < |lines| ==> !keep(lines[j]))
    decreases |lines| - i
  {
    if i < |lines| {
      var r := ColumnScan(keep, cell, stop, lines, i, count, found);
      if keep(lines[i]) {
        var more := found + [cell(lines[i])];
        if |more| < count {
          ColumnCells(keep, cell, stop, lines, i + 1, count, more);
        }
        assert r[|found|] == cell(lines[i]);
        forall k | |found| <= k < |r| ensures CellOf(keep, cell, lines, i, r[k]) {
          if k > |found| {
            assert CellOf(keep, cell, lines, i + 1, r[k]);
            var j :| i + 1 <= j < |lines| && keep(lines[j]) && r[k] == cell(lines[j]);
          }
        }
      } else if |found| > 0 && stop(lines[i]) {
      } else {
        ColumnCells(keep, cell, stop, lines, i + 1, count, found);
        assert r == ColumnScan(keep, cell, stop, lines, i + 1, count, found);
        forall k | |found| <= k < |r| ensures CellOf(keep, cell, lines, i, r[k]) {
          assert CellOf(keep, cell, lines, i + 1, r[k]);
          var j :| i + 1 <= j < |lines| && keep(lines[j]) && r[k] == cell(lines[j]);
        }
      }
    }
  }

  /** `v` is `cell` of a kept line from `i` on. */
  ghost predicate CellOf(keep: string -> bool, cell: string -> string, lines: seq<string>, i: nat, v: string) {
    exists j :: i <= j < |lines| && keep(lines[j]) && v == cell(lines[j])
  }

  /** The extractor's column loop. */
  method ReadColumn(keep: string -> bool, cell: string -> string, stop: string -> bool, lines: seq<string>, start: nat, count: nat) returns (column: seq<string>)
    ensures column == ColumnScan(keep, cell, stop, lines, start, count, [])
  {
    column := [];
    var i := start;
    while i < |lines|
      invariant ColumnScan(keep, cell, stop, lines, i, count, column) == ColumnScan(keep, cell, stop, lines, start, count, [])
      decreases |lines| - i
    {
      if keep(lines[i]) {
        column := column + [cell(lines[i])];
        if |column| >= count {
          break;
        }
      } else if |column| > 0 && stop(lines[i]) {
        break;
      }
      i := i + 1;
    }
  }

  /** A line taken as it is. */
  function Verbatim(l: string): string { l }

  /** The change loop has no stop line. */
  predicate NoStop(l: string) { false }

  /**
   * An industry name: none of the other cell shapes (domain, rank, dash,
   * number or volume, percentage, signed percentage), and 2 to 99 characters.
   */
  predicate IsIndustry(l: string) {
    && !IsDomain(l)
    && !IsRank(l)
    && l != "-"
    && !IsAmount(l)
    && !IsBarePercent(l)
    && !IsSignedPercent(l)
    && 1 < |l| < 100
  }

  /** A rank cell: `#digits` or a lone dash. */
  predicate IsRankCell(l: string) {
    IsRank(l) || l == "-"
  }

  /** The industry column: industry names, ended by a rank cell. */
  function Industries(lines: seq<string>, start: nat, count: nat): seq<string> {
    ColumnScan(IsIndustry, Verbatim, IsRankCell, lines, start, count, [])
  }

  /** The rank column: rank cells, ended by a line starting with a volume. */
  function Ranks(lines: seq<string>, start: nat, count: nat): seq<string> {
    ColumnScan(IsRankCell, Verbatim, StartsWithVolume, lines, start, count, [])
  }

  /**
   * The industry column holds at most `count` lines from `start` on, each
   * an industry name (so 2 to 99 characters long, and none of the other
   * cell shapes); it is empty exactly when no line from `start` on is one.
   */
  lemma IndustriesSpec(lines: seq<string>, start: nat, count: nat)
    requires count >= 1
    ensures |Industries(lines, start, count)| <= count
    ensures forall k :: 0 <= k < |Industries(lines, start, count)| ==>
      IsIndustry(Industries(lines, start, count)[k]) && 1 < |Industries(lines, start, count)[k]| < 100
      && exists j :: start <= j < |lines| && lines[j] == Industries(lines, start, count)[k]
    ensures Industries(lines, start, count) == [] <==> forall j :: start <= j < |lines| ==> !IsIndustry(lines[j])
  {
    var r := Industries(lines, start, count);
    ColumnCells(IsIndustry, Verbatim, IsRankCell, lines, start, count, []);
    forall k | 0 <= k < |r| ensures IsIndustry(r[k]) && exists j :: start <= j < |lines| && lines[j] == r[k] {
      var j :| start <= j < |lines| && IsIndustry(lines[j]) && r[k] == Verbatim(lines[j]);
    }
  }

  /**
   * The rank column holds at most `count` lines from `start` on, each
   * `#digits` or `-`; it is empty exactly when no line from `start` on is one.
   */
  lemma RanksSpec(lines: seq<string>, start: nat, count: nat)
    requires count >= 1
    ensures |Ranks(lines, start, count)| <= count
    ensures forall k :: 0 <= k < |Ranks(lines, start, count)| ==>
      IsRankCell(Ranks(lines, start, count)[k]) && exists j :: start <= j < |lines| && lines[j] == Ranks(lines, start, count)[k]
    ensures Ranks(lines, start, count) == [] <==> forall j :: start <= j < |lines| ==> !IsRankCell(lines[j])
  {
    var r := Ranks(lines, start, count);
    ColumnCells(IsRankCell, Verbatim, StartsWithVolume, lines, start, count, []);
    forall k | 0 <= k < |r| ensures IsRankCell(r[k]) && exists j :: start <= j < |lines| && lines[j] == r[k] {
      var j :| start <= j < |lines| && IsRankCell(lines[j]) && r[k] == Verbatim(lines[j]);
    }
  }

  // ---------------------------------------------------------------------
  // Traffic share
  // ---------------------------------------------------------------------

  /*
   * The traffic scan and its lemmas take the three line tests as a
   * parameter; the extractor's columns are the instance TrafficLines (see
   * Traffic).  Nothing below depends on what the tests are.
   */

  /** The line tests of the traffic scan: a volume, the percentage after it, and a change that ends the block. */
  datatype Shapes = Shapes(volume: string -> bool, percent: string -> bool, change: string -> bool)

  /** `^[\d,.]+[BMK]$`, `^[\d,.]+%$` and `^[+-]?\s*[\d,.]+%$`. */
  const TrafficLines := Shapes(IsVolume, IsBarePercent, IsSignedPercent)

  /** The traffic percentage paired with a volume on line `i`: the next line when it is a bare percentage. */
  function PercentAfter(t: Shapes, lines: seq<string>, i: nat): string
    requires i + 1 < |lines|
  {
    if t.percent(lines[i + 1]) then lines[i + 1] else "-"
  }

  /** Where the traffic scan goes on after a volume on line `i`: past the percentage it consumed. */
  function AfterVolume(t: Shapes, lines: seq<string>, i: nat): nat
    requires i < |lines|
  {
    if i + 1 < |lines| && t.percent(lines[i + 1]) then i + 2 else i + 1
  }

  /**
   * The traffic scan: a volume line is collected, together with the
   * percentage paired with it when a line follows it (a volume on the
   * last line gets none), until there are `count` volumes; once one is
   * collected, a signed percentage ends the column.
   */
  function TrafficScan(t: Shapes, lines: seq<string>, i: nat, count: nat, absolute: seq<string>, percent: seq<string>): (seq<string>, seq<string>)
    decreases |lines| - i
  {
    if i >= |lines| then (absolute, percent)
    else if t.volume(lines[i]) then
      var absolute' := absolute + [lines[i]];
      var percent' := if i + 1 < |lines| then percent + [PercentAfter(t, lines, i)] else percent;
      if |absolute'| >= count then (absolute', percent')
      else TrafficScan(t, lines, AfterVolume(t, lines, i), count, absolute', percent')
    else if |absolute| > 0 && t.change(lines[i]) then (absolute, percent)
    else TrafficScan(t, lines, i + 1, count, absolute, percent)
  }

  /** A traffic percentage cell: a bare percentage or `-`. */
  predicate IsPercentCell(l: string) {
    IsBarePercent(l) || l == "-"
  }

  /**
   * The traffic columns as read from the volume lines `ps`: the k-th volume
   * is line `ps[k]`; the k-th percentage is the line after it when that is
   * a bare percentage and `-` otherwise; only a volume on the last line has
   * no percentage; and each volume comes after the line the previous pair
   * ended on.
   */
  ghost predicate Paired(t: Shapes, lines: seq<string>, absolute: seq<string>, percent: seq<string>, ps: seq<nat>) {
    && |ps| == |absolute|
    && (forall k :: 0 <= k < |ps| ==> ps[k] < |lines| && t.volume(lines[ps[k]]) && absolute[k] == lines[ps[k]])
    && (|percent| == |absolute| || (|percent| + 1 == |absolute| && ps[|ps| - 1] == |lines| - 1))
    && (forall k :: 0 <= k < |percent| ==> ps[k] + 1 < |lines| && percent[k] == PercentAfter(t, lines, ps[k]))
    && (forall k :: 0 < k < |ps| ==> AfterVolume(t, lines, ps[k - 1]) <= ps[k])
  }

  /**
   * The traffic scan holds at most `count` volumes, and a scan that starts
   * empty stays empty exactly when no line from `i` on is a volume.
   */
  lemma {:induction false} TrafficCells(t: Shapes, lines: seq<string>, i: nat, count: nat, absolute: seq<string>, percent: seq<string>)
    requires |absolute| < count
    ensures absolute <= TrafficScan(t, lines, i, count, absolute, percent).0
    ensures |TrafficScan(t, lines, i, count, absolute, percent).0| <= count
    ensures absolute == [] ==> (TrafficScan(t, lines, i, count, absolute, percent).0 == [] <==> forall j :: i <= j < |lines| ==> !t.volume(lines[j]))
    decreases |lines| - i
  {
    if i < |lines| {
      if t.volume(lines[i]) {
        var absolute' := absolute + [lines[i]];
        var percent' := if i + 1 < |lines| then percent + [PercentAfter(t, lines, i)] else percent;
        if |absolute'| < count {
          TrafficCells(t, lines, AfterVolume(t, lines, i), count, absolute', percent');
        }
      } else if |absolute| > 0 && t.change(lines[i]) {
      } else {
        TrafficCells(t, lines, i + 1, count, absolute, percent);
      }
    }
  }

  /**
   * The columns the traffic scan from line `i` ends with are paired with
   * the volume lines `qs`, which extend `ps` by lines at or after `i`.
   */
  ghost predicate ScannedFrom(t: Shapes, lines: seq<string>, i: nat, count: nat, absolute: seq<string>, percent: seq<string>, ps: seq<nat>, qs: seq<nat>) {
    && Paired(t, lines, TrafficScan(t, lines, i, count, absolute, percent).0, TrafficScan(t, lines, i, count, absolute, percent).1, qs)
    && ps <= qs
    && forall k :: |ps| <= k < |qs| ==> i <= qs[k]
  }

  /** The pairing is kept by every step of the traffic scan. */
  lemma {:induction false} TrafficPairs(t: Shapes, lines: seq<string>, i: nat, count: nat, absolute: seq<string>, percent: seq<string>, ps: seq<nat>)
    requires Paired(t, lines, absolute, percent, ps) && |percent| == |absolute|
    requires ps != [] ==> AfterVolume(t, lines, ps[|ps| - 1]) <= i
    ensures exists qs :: ScannedFrom(t, lines, i, count, absolute, percent, ps, qs)
    decreases |lines| - i, 1
  {
    if i < |lines| && t.volume(lines[i]) {
      TrafficPairsAt(t, lines, i, count, absolute, percent, ps);
    } else if i < |lines| && !(|absolute| > 0 && t.change(lines[i])) {
      TrafficPairs(t, lines, i + 1, count, absolute, percent, ps);
      var qs :| ScannedFrom(t, lines, i + 1, count, absolute, percent, ps, qs);
      assert ScannedFrom(t, lines, i, count, absolute, percent, ps, qs);
    } else {
      assert ScannedFrom(t, lines, i, count, absolute, percent, ps, ps);
    }
  }

  /** TrafficPairs, at a volume line. */
  lemma {:induction false} TrafficPairsAt(t: Shapes, lines: seq<string>, i: nat, count: nat, absolute: seq<string>, percent: seq<string>, ps: seq<nat>)
    requires Paired(t, lines, absolute, percent, ps) && |percent| == |absolute|
    requires ps != [] ==> AfterVolume(t, lines, ps[|ps| - 1]) <= i
    requires i < |lines| && t.volume(lines[i])
    ensures exists qs :: ScannedFrom(t, lines, i, count, absolute, percent, ps, qs)
    decreases |lines| - i, 0
  {
    var absolute' := absolute + [lines[i]];
    var percent' := if i + 1 < |lines| then percent + [PercentAfter(t, lines, i)] else percent;
    var ps' := ps + [i];
    PairedStep(t, lines, i, absolute, percent, ps);
    if |absolute'| >= count || i + 1 >= |lines| {
      assert TrafficScan(t, lines, i, count, absolute, percent) == (absolute', percent');
      assert ScannedFrom(t, lines, i, count, absolute, percent, ps, ps');
    } else {
      var j := AfterVolume(t, lines, i);
      assert TrafficScan(t, lines, i, count, absolute, percent) == TrafficScan(t, lines, j, count, absolute', percent');
      TrafficPairs(t, lines, j, count, absolute', percent', ps');
      var qs :| ScannedFrom(t, lines, j, count, absolute', percent', ps', qs);
      assert ps <= ps' <= qs;
      assert forall k :: |ps| <= k < |qs| ==> i <= qs[k] by {
        forall k | |ps| <= k < |qs| ensures i <= qs[k] {
          if k == |ps| {
            assert qs[k] == ps'[k];
          }
        }
      }
      assert ScannedFrom(t, lines, i, count, absolute, percent, ps, qs);
    }
  }

  /** Reading a volume on line `i` and the percentage after it keeps the pairing. */
  lemma PairedStep(t: Shapes, lines: seq<string>, i: nat, absolute: seq<string>, percent: seq<string>, ps: seq<nat>)
    requires Paired(t, lines, absolute, percent, ps) && |percent| == |absolute|
    requires ps != [] ==> AfterVolume(t, lines, ps[|ps| - 1]) <= i
    requires i < |lines| && t.volume(lines[i])
    ensures Paired(t, lines, absolute + [lines[i]], if i + 1 < |lines| then percent + [PercentAfter(t, lines, i)] else percent, ps + [i])
  {
    var a := absolute + [lines[i]];
    var p := if i + 1 < |lines| then percent + [PercentAfter(t, lines, i)] else percent;
    var q := ps + [i];
    forall k | 0 <= k < |q| ensures q[k] < |lines| && t.volume(lines[q[k]]) && a[k] == lines[q[k]] {
      if k < |ps| {
        assert q[k] == ps[k] && a[k] == absolute[k];
      }
    }
    forall k | 0 <= k < |p| ensures q[k] + 1 < |lines| && p[k] == PercentAfter(t, lines, q[k]) {
      if k < |percent| {
        assert q[k] == ps[k] && p[k] == percent[k];
      }
    }
    forall k | 0 < k < |q| ensures AfterVolume(t, lines, q[k - 1]) <= q[k] {
      if k < |ps| {
        assert q[k - 1] == ps[k - 1] && q[k] == ps[k];
      }
    }
  }

  /** The traffic columns from `start`: volumes and the percentages paired with them. */
  function Traffic(lines: seq<string>, start: nat, count: nat): (seq<string>, seq<string>) {
    TrafficScan(TrafficLines, lines, start, count, [], [])
  }

  /**
   * The traffic columns hold at most `count` volumes, read from volume lines
   * at or after `start` in order, each paired with the next line when it is
   * a bare percentage and with `-` otherwise (a volume on the last line
   * leaves the percentages one short); no volume is found exactly when no
   * line from `start` on is one.
   */
  lemma TrafficSpec(lines: seq<string>, start: nat, count: nat)
    requires count >= 1
    ensures |Traffic(lines, start, count).0| <= count
    ensures exists ps :: (Paired(TrafficLines, lines, Traffic(lines, start, count).0, Traffic(lines, start, count).1, ps)
      && forall k :: 0 <= k < |ps| ==> start <= ps[k])
    ensures forall k :: 0 <= k < |Traffic(lines, start, count).1| ==> IsPercentCell(Traffic(lines, start, count).1[k])
    ensures Traffic(lines, start, count).0 == [] <==> forall j :: start <= j < |lines| ==> !IsVolume(lines[j])
  {
    TrafficCells(TrafficLines, lines, start, count, [], []);
    TrafficPairs(TrafficLines, lines, start, count, [], [], []);
    var ps :| ScannedFrom(TrafficLines, lines, start, count, [], [], [], ps);
    var pct := Traffic(lines, start, count).1;
    forall k | 0 <= k < |pct| ensures IsPercentCell(pct[k]) {
      assert pct[k] == PercentAfter(TrafficLines, lines, ps[k]);
    }
  }

  /** The extractor's traffic loop, which steps over the percentage line it consumed. */
  method ReadTraffic(lines: seq<string>, start: nat, count: nat) returns (absolute: seq<string>, percent: seq<string>)
    ensures (absolute, percent) == Traffic(lines, start, count)
  {
    absolute := [];
    percent := [];
    var i := start;
    while i < |lines|
      invariant TrafficScan(TrafficLines, lines, i, count, absolute, percent) == TrafficScan(TrafficLines, lines, start, count, [], [])
      decreases |lines| - i
    {
      if IsVolume(lines[i]) {
        absolute := absolute + [lines[i]];
        if i + 1 < |lines| {
          if IsBarePercent(lines[i + 1]) {
            percent := percent + [lines[i + 1]];
            i := i + 1;
          } else {
            percent := percent + ["-"];
          }
        }
        if |absolute| >= count {
          break;
        }
      } else if |absolute| > 0 && IsSignedPercent(lines[i]) {
        break;
      }
      i := i + 1;
    }
  }

  // ---------------------------------------------------------------------
  // Changes
  // ---------------------------------------------------------------------

  /** A change cell: `^([+-]?\s*[\d,.]+%|-)$`. */
  predicate IsChangeCell(l: string) {
    IsSignedPercent(l) || l == "-"
  }

  /** A change with its white space removed and a `+` put before a leading digit. */
  function NormalizeChange(v: string): string {
    var w := RemoveSpaces(v);
    if |w| > 0 && IsDigit(w[0]) && w != "-" then "+" + w else w
  }

  /**
   * What normalising does to a change cell: `-` stays `-`; any other cell
   * becomes a percentage with no white space and an optional sign, the
   * cell's own sign kept and `+` put before a number starting with a digit
   * (so `5.2%` becomes `+5.2%` and `- 1.1%` becomes `-1.1%`).  The result is
   * again a change cell, and normalising it again changes nothing.
   */
  lemma NormalizeChangeForm(l: string)
    requires IsChangeCell(l)
    ensures NormalizeChange(l) == "-" <==> l == "-"
    ensures l != "-" ==> IsSignedPercentText(NormalizeChange(l))
    ensures l != "-" && IsSign(l[0]) ==> NormalizeChange(l)[0] == l[0]
    ensures l != "-" && IsDigit(l[0]) ==> NormalizeChange(l) == "+" + l
    ensures l != "-" && !IsSign(l[0]) ==> NormalizeChange(l)[0] == '+' || NormalizeChange(l)[0] == ',' || NormalizeChange(l)[0] == '.'
    ensures IsChangeCell(NormalizeChange(l))
    ensures NormalizeChange(NormalizeChange(l)) == NormalizeChange(l)
  {
    if l != "-" {
      if IsSign(l[0]) {
        SignedChange(l);
        NormalizedIsFixed(NormalizeChange(l));
      } else {
        UnsignedChange(l);
        NormalizedIsFixed(NormalizeChange(l));
      }
    }
  }

  /** A signed change keeps its sign and loses the white space after it. */
  lemma SignedChange(l: string)
    requires IsSignedPercent(l) && IsSign(l[0])
    ensures NormalizeChange(l) == [l[0]] + l[1..][LeadingSpaces(l[1..])..]
    ensures IsSignedPercentText(NormalizeChange(l)) && !IsDigit(NormalizeChange(l)[0]) && NormalizeChange(l)[0] == l[0]
  {
    var bare := l[1..][LeadingSpaces(l[1..])..];
    SpacedPercent(l[1..]);
    KeptFirst(l);
    var v := [l[0]] + bare;
    SignThenBare(l[0], bare, v);
    assert v == NormalizeChange(l);
  }

  /** Removing white space keeps a first character that is not white space. */
  lemma KeptFirst(l: string)
    requires l != [] && IsSign(l[0])
    ensures RemoveSpaces(l) == [l[0]] + RemoveSpaces(l[1..])
  {
    assert !IsSpace(l[0]);
  }

  /** A sign followed by a bare percentage is a signed percentage starting with that sign. */
  lemma SignThenBare(c: char, bare: string, v: string)
    requires IsSign(c) && IsBarePercent(bare) && v == [c] + bare
    ensures IsSignedPercentText(v) && !IsDigit(v[0]) && v[0] == c
  {
    assert v[1..] == bare;
  }

  /** An unsigned change loses its leading white space and gains `+` before a digit. */
  lemma UnsignedChange(l: string)
    requires IsSignedPercent(l) && !IsSign(l[0])
    ensures IsSignedPercentText(NormalizeChange(l)) && !IsDigit(NormalizeChange(l)[0])
    ensures NormalizeChange(l)[0] == '+' || NormalizeChange(l)[0] == ',' || NormalizeChange(l)[0] == '.'
    ensures IsDigit(l[0]) ==> NormalizeChange(l) == "+" + l
  {
    var bare := l[LeadingSpaces(l)..];
    SpacedPercent(l);
    if IsDigit(l[0]) {
      assert !IsSpace(l[0]);
      assert bare == l;
    }
    var v;
    if IsDigit(bare[0]) {
      v := "+" + bare;
      assert v[1..] == bare;
    } else {
      v := bare;
      assert bare[0] != '%' && In(NumChars, bare[..|bare| - 1][0]);
    }
    assert v == NormalizeChange(l);
  }

  /**
   * A percentage after optional white space loses exactly that white space;
   * when the text starts with a digit there is none.
   */
  lemma SpacedPercent(body: string)
    requires IsBarePercent(body[LeadingSpaces(body)..])
    ensures RemoveSpaces(body) == body[LeadingSpaces(body)..]
  {
    var n := LeadingSpaces(body);
    var bare := body[n..];
    BarePercentHasNoSpaces(bare);
    assert body == body[..n] + bare;
    RemoveSpacesAppend(body[..n], bare);
    RemoveSpacesAllSpace(body[..n]);
  }

  /** A bare percentage holds no white space. */
  lemma BarePercentHasNoSpaces(bare: string)
    requires IsBarePercent(bare)
    ensures forall k :: 0 <= k < |bare| ==> !IsSpace(bare[k])
  {
    forall k | 0 <= k < |bare| ensures !IsSpace(bare[k]) {
      if k < |bare| - 1 {
        assert bare[..|bare| - 1][k] == bare[k];
      }
    }
  }

  /** A percentage free of white space that does not start with a digit is left as it is. */
  lemma NormalizedIsFixed(v: string)
    requires IsSignedPercentText(v) && !IsDigit(v[0])
    ensures IsChangeCell(v)
    ensures NormalizeChange(v) == v
  {
    var body := if IsSign(v[0]) then v[1..] else v;
    assert IsBarePercent(body);
    assert LeadingSpaces(body) == 0 by {
      if body[0] != '%' {
        assert body[..|body| - 1][0] == body[0];
      }
    }
    assert forall k :: 0 <= k < |v| ==> !IsSpace(v[k]) by {
      forall k | 0 <= k < |v| ensures !IsSpace(v[k]) {
        var d := if IsSign(v[0]) then 1 else 0;
        if d <= k < |v| - 1 {
          assert body[..|body| - 1][k - d] == v[k];
        }
      }
    }
  }

  /** The change column: change cells, normalised; it has no stop line. */
  function Changes(lines: seq<string>, start: nat, count: nat): seq<string> {
    ColumnScan(IsChangeCell, NormalizeChange, NoStop, lines, start, count, [])
  }

  /**
   * The change column holds at most `count` normalised change cells of the
   * lines from `start` on, each `-` or a signed percentage without white
   * space; it is empty exactly when no line from `start` on is a change cell.
   */
  lemma ChangesSpec(lines: seq<string>, start: nat, count: nat)
    requires count >= 1
    ensures |Changes(lines, start, count)| <= count
    ensures forall k :: 0 <= k < |Changes(lines, start, count)| ==>
      exists j :: start <= j < |lines| && IsChangeCell(lines[j]) && Changes(lines, start, count)[k] == NormalizeChange(lines[j])
    ensures forall k :: 0 <= k < |Changes(lines, start, count)| ==>
      Changes(lines, start, count)[k] == "-" || IsSignedPercentText(Changes(lines, start, count)[k])
    ensures Changes(lines, start, count) == [] <==> forall j :: start <= j < |lines| ==> !IsChangeCell(lines[j])
  {
    var r := Changes(lines, start, count);
    ColumnCells(IsChangeCell, NormalizeChange, NoStop, lines, start, count, []);
    forall k | 0 <= k < |r|
      ensures exists j :: start <= j < |lines| && IsChangeCell(lines[j]) && r[k] == NormalizeChange(lines[j])
      ensures r[k] == "-" || IsSignedPercentText(r[k])
    {
      var j :| start <= j < |lines| && IsChangeCell(lines[j]) && r[k] == NormalizeChange(lines[j]);
      NormalizeChangeForm(lines[j]);
    }
  }

  // ---------------------------------------------------------------------
  // The whole table
  // ---------------------------------------------------------------------

  /**
   * The columns of the referrals table, or why there are none.  Each block
   * after the domains starts where the previous one started plus the number
   * of cells it found (the traffic block counting two lines per volume),
   * not where its scan actually stopped.
   */
  function ColumnsOf(lines: seq<string>): Result<Columns, Failure> {
    var header := HeaderIndex(lines);
    if header < 0 then Failure(NoHeader)
    else
      var domainStart := DomainStart(lines, header);
      var (domains, domainEnd) := Domains(lines, domainStart);
      if |domains| == 0 then Failure(NoDomains)
      else Success(ColumnsAfter(lines, domains, domainEnd))
  }

  /**
   * The columns read below the domain column: each one starts where the
   * previous one's cells end, counting two lines per volume for the traffic
   * column.
   */
  function ColumnsAfter(lines: seq<string>, domains: seq<string>, domainEnd: nat): Columns {
    var count := |domains|;
    var industries := Industries(lines, domainEnd, count);
    var rankStart := domainEnd + |industries|;
    var ranks := Ranks(lines, rankStart, count);
    var trafficStart := rankStart + |ranks|;
    var traffic := Traffic(lines, trafficStart, count);
    var changes := Changes(lines, ChangeStart(trafficStart, traffic.0), count);
    Columns(domains, industries, ranks, traffic.0, traffic.1, changes)
  }

  /**
   * Where the change column is looked for: two lines per volume after the
   * start of the traffic column, whether or not each volume had its
   * percentage line.
   */
  function ChangeStart(trafficStart: nat, absolute: seq<string>): nat {
    trafficStart + 2 * |absolute|
  }

  /** Every cell of `xs` passes `p`. */
  predicate Every(p: string -> bool, xs: seq<string>) {
    forall k :: 0 <= k < |xs| ==> p(xs[k])
  }

  /** What a change cell becomes: `-`, or a signed percentage without spaces. */
  predicate IsChangeText(v: string) {
    v == "-" || IsSignedPercentText(v)
  }

  /** The columns keep the shapes the scans test for. */
  predicate WellShaped(c: Columns) {
    && |c.domains| >= 1
    && |c.industries| <= |c.domains|
    && |c.ranks| <= |c.domains|
    && |c.trafficAbsolute| <= |c.domains|
    && (|c.trafficPercent| == |c.trafficAbsolute| || |c.trafficPercent| + 1 == |c.trafficAbsolute|)
    && |c.changes| <= |c.domains|
    && Every(IsDomain, c.domains)
    && Every(IsIndustry, c.industries)
    && Every(IsRankCell, c.ranks)
    && Every(IsVolume, c.trafficAbsolute)
    && Every(IsPercentCell, c.trafficPercent)
    && Every(IsChangeText, c.changes)
  }

  /**
   * The extractor fails exactly when no line is the `域` header, or when no
   * line from where the domain column starts is a domain.
   */
  lemma ColumnsFailures(lines: seq<string>)
    ensures ColumnsOf(lines) == Failure(NoHeader) <==> forall j :: 0 <= j < |lines| ==> !IsHeaderLine(lines[j])
    ensures ColumnsOf(lines) == Failure(NoDomains) <==>
      HeaderIndex(lines) >= 0 && forall j :: DomainStart(lines, HeaderIndex(lines)) <= j < |lines| ==> !IsDomainLine(lines[j])
  {
    var header := HeaderIndex(lines);
    if header >= 0 {
      var start := DomainStart(lines, header);
      if start <= |lines| {
        DomainsSpec(lines, start);
      }
    }
  }

  /**
   * A successful extraction has one row per domain (at least one); every
   * other column holds at most that many cells, of the shape its scan
   * tests for (industries are lines of the text); and the percentages are
   * at most one short of the volumes.
   */
  lemma ColumnsShape(lines: seq<string>)
    requires ColumnsOf(lines).Success?
    ensures WellShaped(ColumnsOf(lines).value)
    ensures forall k :: 0 <= k < |ColumnsOf(lines).value.industries| ==> ColumnsOf(lines).value.industries[k] in lines
  {
    var header := HeaderIndex(lines);
    var start := DomainStart(lines, header);
    var (domains, domainEnd) := Domains(lines, start);
    DomainsSpec(lines, start);
    DomainCellsFrom(IsDomainLine, lines, start, domainEnd);
    forall k | 0 <= k < |domains| ensures IsDomain(domains[k]) {
      var j :| start <= j < domainEnd && IsDomainLine(lines[j]) && domains[k] == StripCounter(lines[j]);
    }
    assert Every(IsDomain, domains);
    assert ColumnsOf(lines).value == ColumnsAfter(lines, domains, domainEnd);
    AfterShape(lines, domains, domainEnd);
  }

  /** The columns below a non-empty domain column keep their shapes. */
  lemma AfterShape(lines: seq<string>, domains: seq<string>, domainEnd: nat)
    requires |domains| >= 1 && Every(IsDomain, domains)
    ensures WellShaped(ColumnsAfter(lines, domains, domainEnd))
    ensures forall k :: 0 <= k < |ColumnsAfter(lines, domains, domainEnd).industries| ==>
      ColumnsAfter(lines, domains, domainEnd).industries[k] in lines
  {
    var count := |domains|;
    var c := ColumnsAfter(lines, domains, domainEnd);
    IndustriesShape(lines, domainEnd, count);
    var rankStart := domainEnd + |c.industries|;
    RanksShape(lines, rankStart, count);
    var trafficStart := rankStart + |c.ranks|;
    TrafficShape(lines, trafficStart, count);
    ChangesShape(lines, ChangeStart(trafficStart, c.trafficAbsolute), count);
  }

  /** The industry column's cells are industry-shaped lines of the text. */
  lemma IndustriesShape(lines: seq<string>, start: nat, count: nat)
    requires count >= 1
    ensures |Industries(lines, start, count)| <= count
    ensures Every(IsIndustry, Industries(lines, start, count))
    ensures forall k :: 0 <= k < |Industries(lines, start, count)| ==> Industries(lines, start, count)[k] in lines
  {
    var r := Industries(lines, start, count);
    IndustriesSpec(lines, start, count);
    forall k | 0 <= k < |r| ensures r[k] in lines {
      var j :| start <= j < |lines| && lines[j] == r[k];
    }
  }

  /** The rank column's cells are rank-shaped. */
  lemma RanksShape(lines: seq<string>, start: nat, count: nat)
    requires count >= 1
    ensures |Ranks(lines, start, count)| <= count
    ensures Every(IsRankCell, Ranks(lines, start, count))
  {
    RanksSpec(lines, start, count);
  }

  /** The change column's cells are `-` or signed percentages. */
  lemma ChangesShape(lines: seq<string>, start: nat, count: nat)
    requires count >= 1
    ensures |Changes(lines, start, count)| <= count
    ensures Every(IsChangeText, Changes(lines, start, count))
  {
    ChangesSpec(lines, start, count);
  }

  /** The traffic column's volumes and percentages keep their shapes. */
  lemma TrafficShape(lines: seq<string>, start: nat, count: nat)
    requires count >= 1
    ensures |Traffic(lines, start, count).0| <= count
    ensures |Traffic(lines, start, count).1| == |Traffic(lines, start, count).0|
      || |Traffic(lines, start, count).1| + 1 == |Traffic(lines, start, count).0|
    ensures Every(IsVolume, Traffic(lines, start, count).0)
    ensures Every(IsPercentCell, Traffic(lines, start, count).1)
  {
    TrafficSpec(lines, start, count);
    var (absolute, percent) := Traffic(lines, start, count);
    var ps :| Paired(TrafficLines, lines, absolute, percent, ps) && forall k :: 0 <= k < |ps| ==> start <= ps[k];
    forall k | 0 <= k < |absolute| ensures IsVolume(absolute[k]) {
      assert TrafficLines.volume(lines[ps[k]]);
    }
  }

  /** The extractor's table reading, step by step: the columns, or why there are none. */
  method ReadColumns(lines: seq<string>) returns (r: Result<Columns, Failure>)
    ensures r == ColumnsOf(lines)
  {
    var header := FirstWhere(lines, 0, |lines|, IsHeaderLine);
    if header < 0 {
      return Failure(NoHeader);
    }
    var sequence := FirstWhere(lines, header, Min(header + 20, |lines|), IsSequenceLine);
    var domainStart := if sequence >= 0 then sequence + 1 else header + 7;
    assert domainStart == DomainStart(lines, header);
    var domains, domainEnd := ReadDomains(IsDomainLine, lines, domainStart);
    if |domains| == 0 {
      return Failure(NoDomains);
    }
    var c := ReadColumnsAfter(lines, domains, domainEnd);
    return Success(c);
  }

  /** Reads the columns below the domain column, each from where the previous one ends. */
  method ReadColumnsAfter(lines: seq<string>, domains: seq<string>, domainEnd: nat) returns (c: Columns)
    ensures c == ColumnsAfter(lines, domains, domainEnd)
  {
    var count := |domains|;
    var industries := ReadColumn(IsIndustry, Verbatim, IsRankCell, lines, domainEnd, count);
    var rankStart := domainEnd + |industries|;
    var ranks := ReadColumn(IsRankCell, Verbatim, StartsWithVolume, lines, rankStart, count);
    var trafficStart := rankStart + |ranks|;
    var absolute, percent := ReadTraffic(lines, trafficStart, count);
    var changes := ReadColumn(IsChangeCell, NormalizeChange, NoStop, lines, ChangeStart(trafficStart, absolute), count);
    AfterOfColumns(lines, domains, domainEnd, industries, rankStart, ranks, trafficStart, absolute, percent, changes);
    c := Columns(domains, industries, ranks, absolute, percent, changes);
  }

  /** Columns read one after the other from `domainEnd` on are `ColumnsAfter`. */
  lemma AfterOfColumns(lines: seq<string>, domains: seq<string>, domainEnd: nat, industries: seq<string>, rankStart: nat, ranks: seq<string>, trafficStart: nat, absolute: seq<string>, percent: seq<string>, changes: seq<string>)
    requires industries == Industries(lines, domainEnd, |domains|)
    requires rankStart == domainEnd + |industries| && ranks == Ranks(lines, rankStart, |domains|)
    requires trafficStart == rankStart + |ranks|
    requires absolute == Traffic(lines, trafficStart, |domains|).0 && percent == Traffic(lines, trafficStart, |domains|).1
    requires changes == Changes(lines, ChangeStart(trafficStart, absolute), |domains|)
    ensures Columns(domains, industries, ranks, absolute, percent, changes) == ColumnsAfter(lines, domains, domainEnd)
  {
  }

  // ---------------------------------------------------------------------
  // Cells stay within one line
  // ---------------------------------------------------------------------

  predicate NoLineFeed(s: string) {
    '\n' !in s
  }

  /** No cell of the columns holds a line feed. */
  predicate Unbroken(c: Columns) {
    && Every(NoLineFeed, c.domains)
    && Every(NoLineFeed, c.industries)
    && Every(NoLineFeed, c.ranks)
    && Every(NoLineFeed, c.trafficAbsolute)
    && Every(NoLineFeed, c.trafficPercent)
    && Every(NoLineFeed, c.changes)
  }

  /**
   * Every cell comes from one line of the text (a domain with its counter
   * cut off, a change with its spaces removed), so when no line holds a line
   * feed, no cell does.
   */
  lemma ColumnsUnbroken(lines: seq<string>)
    requires Every(NoLineFeed, lines)
    requires ColumnsOf(lines).Success?
    ensures Unbroken(ColumnsOf(lines).value)
  {
    var header := HeaderIndex(lines);
    var start := DomainStart(lines, header);
    var (domains, domainEnd) := Domains(lines, start);
    DomainsSpec(lines, start);
    DomainCellsUnbroken(IsDomainLine, lines, start, domainEnd);
    assert ColumnsOf(lines).value == ColumnsAfter(lines, domains, domainEnd);
    AfterUnbroken(lines, domains, domainEnd);
  }

  /** A domain cell is a line with its counter cut off, so it holds no line feed when no line does. */
  lemma DomainCellsUnbroken(isDomain: string -> bool, lines: seq<string>, lo: nat, hi: nat)
    requires hi <= |lines| && Every(NoLineFeed, lines)
    ensures Every(NoLineFeed, DomainCells(isDomain, lines, lo, hi))
  {
    var cells := DomainCells(isDomain, lines, lo, hi);
    DomainCellsFrom(isDomain, lines, lo, hi);
    forall k | 0 <= k < |cells| ensures NoLineFeed(cells[k]) {
      var j :| lo <= j < hi && isDomain(lines[j]) && cells[k] == StripCounter(lines[j]);
      assert NoLineFeed(lines[j]);
    }
  }

  /** The columns below the domain column are cut from lines of the text. */
  lemma AfterUnbroken(lines: seq<string>, domains: seq<string>, domainEnd: nat)
    requires Every(NoLineFeed, lines)
    requires |domains| >= 1 && Every(NoLineFeed, domains)
    ensures Unbroken(ColumnsAfter(lines, domains, domainEnd))
  {
    var count := |domains|;
    var industries := Industries(lines, domainEnd, count);
    IndustriesShape(lines, domainEnd, count);
    var rankStart := domainEnd + |industries|;
    var ranks := Ranks(lines, rankStart, count);
    RanksUnbroken(lines, rankStart, count);
    var trafficStart := rankStart + |ranks|;
    var absolute, percent := Traffic(lines, trafficStart, count).0, Traffic(lines, trafficStart, count).1;
    TrafficUnbroken(lines, trafficStart, count);
    var changes := Changes(lines, ChangeStart(trafficStart, absolute), count);
    ChangesUnbroken(lines, ChangeStart(trafficStart, absolute), count);
    AfterOfColumns(lines, domains, domainEnd, industries, rankStart, ranks, trafficStart, absolute, percent, changes);
    assert Unbroken(Columns(domains, industries, ranks, absolute, percent, changes));
  }

  lemma RanksUnbroken(lines: seq<string>, start: nat, count: nat)
    requires Every(NoLineFeed, lines)
    requires count >= 1
    ensures Every(NoLineFeed, Ranks(lines, start, count))
  {
    var r := Ranks(lines, start, count);
    RanksSpec(lines, start, count);
    forall k | 0 <= k < |r| ensures NoLineFeed(r[k]) {
      var j :| start <= j < |lines| && lines[j] == r[k];
    }
  }

  lemma TrafficUnbroken(lines: seq<string>, start: nat, count: nat)
    requires Every(NoLineFeed, lines)
    requires count >= 1
    ensures Every(NoLineFeed, Traffic(lines, start, count).0)
    ensures Every(NoLineFeed, Traffic(lines, start, count).1)
  {
    TrafficSpec(lines, start, count);
    var (absolute, percent) := Traffic(lines, start, count);
    var ps :| Paired(TrafficLines, lines, absolute, percent, ps) && forall k :: 0 <= k < |ps| ==> start <= ps[k];
    forall k | 0 <= k < |absolute| ensures NoLineFeed(absolute[k]) {
      assert absolute[k] == lines[ps[k]];
    }
    forall k | 0 <= k < |percent| ensures NoLineFeed(percent[k]) {
      assert percent[k] == PercentAfter(TrafficLines, lines, ps[k]);
    }
  }

  lemma ChangesUnbroken(lines: seq<string>, start: nat, count: nat)
    requires count >= 1
    ensures Every(NoLineFeed, Changes(lines, start, count))
  {
    var r := Changes(lines, start, count);
    ChangesSpec(lines, start, count);
    forall k | 0 <= k < |r| ensures NoLineFeed(r[k]) {
      var j :| start <= j < |lines| && IsChangeCell(lines[j]) && r[k] == NormalizeChange(lines[j]);
      NormalizedUnbroken(lines[j]);
    }
  }

  /** Normalising removes every space, line feeds included. */
  lemma NormalizedUnbroken(v: string)
    ensures NoLineFeed(NormalizeChange(v))
  {
    var w := RemoveSpaces(v);
    assert IsSpace('\n');
    assert '\n' !in w;
  }
}
