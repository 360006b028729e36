/**
 * The CSV the referrals extractor writes: a header line, then one line per
 * domain holding the row number and the i-th cell of each column, `-`
 * standing for a cell that is missing or empty.  Reading the argument
 * vector and the page text file, and writing `referrals_incoming.csv`, are
 * not modelled: the extractor is a function from the page text to the CSV
 * text or the reason it stops.
 */
module ReferralsCsv {
  import opened Wrappers
  import opened Text
  import opened Patterns
  import opened Lookup
  import opened Referrals

  /** The CSV's header line. */
  const Header: string := "序号,域,行业,全球排名,流量份额(访问量),流量份额(%),变动"

  /** `xs[i] || "-"`: the cell, or `-` when it is missing or empty. */
  function Cell(xs: seq<string>, i: nat): (v: string)
    ensures v != ""
    ensures i < |xs| && xs[i] != "" ==> v == xs[i]
    ensures i >= |xs| || xs[i] == "" ==> v == "-"
  {
    if i < |xs| && xs[i] != "" then xs[i] else "-"
  }

  // ---------------------------------------------------------------------
  // Row numbers
  // ---------------------------------------------------------------------

  /** The character of a decimal digit. */
  function DigitChar(d: nat): (c: char)
    requires d < 10
    ensures IsDigit(c) && c as int - '0' as int == d
  {
    ('0' as int + d) as char
  }

  /** A natural number written in decimal, as a template literal writes it. */
  function DecimalText(n: nat): string
    decreases n
  {
    if n < 10 then [DigitChar(n)] else DecimalText(n / 10) + [DigitChar(n % 10)]
  }

  /** The value of a string of decimal digits. */
  function DecimalValue(s: string): nat
    requires forall k :: 0 <= k < |s| ==> IsDigit(s[k])
    decreases |s|
  {
    if s == [] then 0
    else
      assert IsDigit(s[|s| - 1]);
      DecimalValue(s[..|s| - 1]) * 10 + (s[|s| - 1] as int - '0' as int)
  }

  /**
   * A number's decimal form is a non-empty run of digits, with no leading
   * zero, whose value is the number.
   */
  lemma {:induction false} DecimalRoundTrip(n: nat)
    ensures |DecimalText(n)| >= 1
    ensures forall k :: 0 <= k < |DecimalText(n)| ==> IsDigit(DecimalText(n)[k])
    ensures DecimalValue(DecimalText(n)) == n
    ensures n > 0 ==> DecimalText(n)[0] != '0'
    decreases n
  {
    if n >= 10 {
      DecimalRoundTrip(n / 10);
      var s := DecimalText(n);
      assert s[..|s| - 1] == DecimalText(n / 10);
    }
  }

  /** Different numbers are written differently. */
  lemma DecimalInjective(m: nat, n: nat)
    requires DecimalText(m) == DecimalText(n)
    ensures m == n
  {
    DecimalRoundTrip(m);
    DecimalRoundTrip(n);
  }

  // ---------------------------------------------------------------------
  // Rows and the CSV text
  // ---------------------------------------------------------------------

  /** The seven fields of row `i` (counted from 0). */
  function Row(c: Columns, i: nat): seq<string> {
    [DecimalText(i + 1), Cell(c.domains, i), Cell(c.industries, i), Cell(c.ranks, i),
     Cell(c.trafficAbsolute, i), Cell(c.trafficPercent, i), Cell(c.changes, i)]
  }

  /** Row `i` as the template writes it, without its line feed. */
  function RowLine(c: Columns, i: nat): string {
    DecimalText(i + 1) + "," + Cell(c.domains, i) + "," + Cell(c.industries, i) + "," + Cell(c.ranks, i) + ","
      + Cell(c.trafficAbsolute, i) + "," + Cell(c.trafficPercent, i) + "," + Cell(c.changes, i)
  }

  /** Lines each ended by a line feed, one after the other. */
  function Terminated(rows: seq<string>): string
    decreases |rows|
  {
    if rows == [] then "" else Terminated(rows[..|rows| - 1]) + rows[|rows| - 1] + "\n"
  }

  /** One more line at the end. */
  lemma TerminatedSnoc(rows: seq<string>, row: string)
    ensures Terminated(rows + [row]) == Terminated(rows) + row + "\n"
  {
    assert (rows + [row])[..|rows|] == rows;
  }

  /** The first `n` row lines, each ended by a line feed. */
  function Body(c: Columns, n: nat): string {
    Terminated(RowLines(c, n))
  }

  /** The CSV: the header line and one line per domain. */
  function CsvText(c: Columns): string {
    Header + "\n" + Body(c, |c.domains|)
  }

  /** The row lines of the first `n` rows. */
  function RowLines(c: Columns, n: nat): (rows: seq<string>)
    ensures |rows| == n
    ensures forall i :: 0 <= i < n ==> rows[i] == RowLine(c, i)
    decreases n
  {
    if n == 0 then [] else RowLines(c, n - 1) + [RowLine(c, n - 1)]
  }

  /** Assembles the CSV row by row, as the extractor's final loop does. */
  method BuildCsv(c: Columns) returns (csv: string)
    ensures csv == CsvText(c)
  {
    csv := Header + "\n";
    var count := |c.domains|;
    for i := 0 to count
      invariant csv == Header + "\n" + Body(c, i)
    {
      var d := Cell(c.domains, i);
      var ind := Cell(c.industries, i);
      var rank := Cell(c.ranks, i);
      var absTraffic := Cell(c.trafficAbsolute, i);
      var pctTraffic := Cell(c.trafficPercent, i);
      var change := Cell(c.changes, i);
      TerminatedSnoc(RowLines(c, i), RowLine(c, i));
      csv := csv + (DecimalText(i + 1) + "," + d + "," + ind + "," + rank + "," + absTraffic + "," + pctTraffic + "," + change + "\n");
    }
  }

  // ---------------------------------------------------------------------
  // What the CSV holds
  // ---------------------------------------------------------------------

  /** Joining one more piece adds the separator and the piece. */
  lemma {:induction false} JoinSnoc(pieces: seq<string>, x: string, sep: char)
    requires |pieces| >= 1
    ensures Join(pieces + [x], sep) == Join(pieces, sep) + [sep] + x
    decreases |pieces|
  {
    if |pieces| >= 2 {
      assert (pieces + [x])[1..] == pieces[1..] + [x];
      JoinSnoc(pieces[1..], x, sep);
    }
  }

  /** A header line followed by lines each ended by a line feed is the lines joined by line feeds, with an empty last piece. */
  lemma {:induction false} CsvJoin(head: string, rows: seq<string>)
    ensures head + "\n" + Terminated(rows) == Join([head] + rows + [""], '\n')
    decreases |rows|
  {
    if rows == [] {
      assert [head] + rows + [""] == [head, ""];
      assert Join([head, ""], '\n') == head + "\n" + Join([""], '\n');
    } else {
      var before := rows[..|rows| - 1];
      var row := rows[|rows| - 1];
      CsvJoin(head, before);
      assert rows == before + [row];
      assert [head] + rows + [""] == ([head] + before) + [row] + [""];
      JoinTerminatedStep([head] + before, row);
      assert head + "\n" + Terminated(rows) == (head + "\n" + Terminated(before)) + row + "\n";
    }
  }

  /** One more line before the final line feed. */
  lemma JoinTerminatedStep(before: seq<string>, row: string)
    requires |before| >= 1
    ensures Join(before + [""], '\n') + row + "\n" == Join(before + [row] + [""], '\n')
  {
    var joined := Join(before, '\n');
    JoinSnoc(before, "", '\n');
    assert Join(before + [""], '\n') == joined + "\n";
    JoinSnoc(before, row, '\n');
    JoinSnoc(before + [row], "", '\n');
    assert Join(before + [row] + [""], '\n') == joined + "\n" + row + "\n";
  }

  /** No row line holds a line feed when no cell does. */
  lemma RowLineUnbroken(c: Columns, i: nat)
    requires Unbroken(c)
    ensures '\n' !in RowLine(c, i)
  {
    var number := DecimalText(i + 1);
    DecimalRoundTrip(i + 1);
    assert '\n' !in number by {
      forall k | 0 <= k < |number| ensures number[k] != '\n' {
        assert IsDigit(number[k]);
      }
    }
  }

  /**
   * Read back line by line, a header line free of line feeds followed by the
   * rows is that header, then exactly one line per domain (row `i` being
   * `RowLine(c, i)`), then the empty piece after the final line feed.
   */
  lemma LinesAfter(head: string, c: Columns)
    requires '\n' !in head
    requires Unbroken(c)
    ensures Split(head + "\n" + Body(c, |c.domains|), '\n') == [head] + RowLines(c, |c.domains|) + [""]
  {
    var pieces := [head] + RowLines(c, |c.domains|) + [""];
    CsvJoin(head, RowLines(c, |c.domains|));
    forall k | 0 <= k < |pieces| ensures '\n' !in pieces[k] {
      if 1 <= k <= |c.domains| {
        RowLineUnbroken(c, k - 1);
      }
    }
    SplitJoin(pieces, '\n');
  }

  /** The CSV's lines: the header, one line per domain, and nothing after the final line feed. */
  lemma CsvLines(c: Columns)
    requires Unbroken(c)
    ensures Split(CsvText(c), '\n') == [Header] + RowLines(c, |c.domains|) + [""]
  {
    assert '\n' !in Header;
    LinesAfter(Header, c);
  }

  /** Joining a first piece in front of at least one more. */
  lemma JoinCons(x: string, rest: seq<string>, sep: char)
    requires |rest| >= 1
    ensures Join([x] + rest, sep) == x + [sep] + Join(rest, sep)
  {
    assert ([x] + rest)[1..] == rest;
  }

  /** Seven fields joined by commas. */
  lemma JoinSeven(a: string, b: string, c: string, d: string, e: string, f: string, g: string)
    ensures Join([a, b, c, d, e, f, g], ',') == a + "," + b + "," + c + "," + d + "," + e + "," + f + "," + g
  {
    JoinCons(f, [g], ',');
    assert [f] + [g] == [f, g];
    JoinCons(e, [f, g], ',');
    assert [e] + [f, g] == [e, f, g];
    JoinCons(d, [e, f, g], ',');
    assert [d] + [e, f, g] == [d, e, f, g];
    JoinCons(c, [d, e, f, g], ',');
    assert [c] + [d, e, f, g] == [c, d, e, f, g];
    JoinCons(b, [c, d, e, f, g], ',');
    assert [b] + [c, d, e, f, g] == [b, c, d, e, f, g];
    JoinCons(a, [b, c, d, e, f, g], ',');
    assert [a] + [b, c, d, e, f, g] == [a, b, c, d, e, f, g];
  }

  /** The template line is the seven fields joined by commas. */
  lemma RowLineJoin(c: Columns, i: nat)
    ensures RowLine(c, i) == Join(Row(c, i), ',')
  {
    JoinSeven(DecimalText(i + 1), Cell(c.domains, i), Cell(c.industries, i), Cell(c.ranks, i),
      Cell(c.trafficAbsolute, i), Cell(c.trafficPercent, i), Cell(c.changes, i));
  }

  /**
   * Row `i` starts with its number `i + 1`; every field is non-empty, `-`
   * standing for a missing cell; and when no cell holds a comma, splitting
   * the line on commas gives back exactly the seven fields.
   */
  lemma RowFields(c: Columns, i: nat)
    ensures |Row(c, i)| == 7 && Row(c, i)[0] == DecimalText(i + 1)
    ensures forall k :: 0 <= k < 7 ==> Row(c, i)[k] != ""
    ensures (forall k :: 1 <= k < 7 ==> ',' !in Row(c, i)[k]) ==> Split(RowLine(c, i), ',') == Row(c, i)
  {
    var r := Row(c, i);
    DecimalRoundTrip(i + 1);
    if forall k :: 1 <= k < 7 ==> ',' !in r[k] {
      forall k | 0 <= k < 7 ensures ',' !in r[k] {
        if k == 0 {
          forall j | 0 <= j < |r[0]| ensures r[0][j] != ',' {
            assert IsDigit(r[0][j]);
          }
        }
      }
      RowLineJoin(c, i);
      SplitJoin(r, ',');
    }
  }

  // ---------------------------------------------------------------------
  // The extractor
  // ---------------------------------------------------------------------

  /** The extractor's result for a page text: the CSV, or why there is none. */
  function ReferralsResult(text: string): Result<string, Failure> {
    match ColumnsOf(NormalizeLines(text))
    case Success(c) => Success(CsvText(c))
    case Failure(e) => Failure(e)
  }

  /** The extractor, step by step over the trimmed non-empty lines. */
  method ParseReferrals(text: string) returns (r: Result<string, Failure>)
    ensures r == ReferralsResult(text)
  {
    var lines := NormalizeLines(text);
    var columns := ReadColumns(lines);
    match columns
    case Failure(e) =>
      r := Failure(e);
    case Success(c) =>
      var csv := BuildCsv(c);
      r := Success(csv);
  }

  /**
   * The extractor stops without a CSV exactly when the text has no `域`
   * header line, or no domain line where the domain column starts.
   * Otherwise the CSV, read back line by line, is the header, then one row
   * per domain (at least one), then nothing after the final line feed; and
   * the columns keep the shapes their scans test for.
   */
  lemma ReferralsOutcome(text: string)
    ensures ReferralsResult(text) == Failure(NoHeader) <==>
      forall j :: 0 <= j < |NormalizeLines(text)| ==> !IsHeaderLine(NormalizeLines(text)[j])
    ensures ReferralsResult(text) == Failure(NoDomains) <==>
      HeaderIndex(NormalizeLines(text)) >= 0 &&
      forall j :: DomainStart(NormalizeLines(text), HeaderIndex(NormalizeLines(text))) <= j < |NormalizeLines(text)| ==>
        !IsDomainLine(NormalizeLines(text)[j])
    ensures ReferralsResult(text).Success? ==>
      && ColumnsOf(NormalizeLines(text)).Success?
      && WellShaped(ColumnsOf(NormalizeLines(text)).value)
      && Split(ReferralsResult(text).value, '\n') ==
         [Header] + RowLines(ColumnsOf(NormalizeLines(text)).value, |ColumnsOf(NormalizeLines(text)).value.domains|) + [""]
  {
    var lines := NormalizeLines(text);
    ColumnsFailures(lines);
    if ColumnsOf(lines).Success? {
      ColumnsShape(lines);
      ColumnsUnbroken(lines);
      CsvLines(ColumnsOf(lines).value);
    }
  }
}
