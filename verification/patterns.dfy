/**
 * The value shapes the extractors recognise, written as explicit string
 * predicates (for the anchored `^...$` tests) and as a closed family of
 * unanchored patterns with a leftmost-match search (for `.match(...)` and
 * `.replace(...)` on a line).
 *
 * Every pattern here is made of single-character classes under `+`, `*`,
 * `?` or a fixed count, literals, and (in two places) a lazy `.+?`.  For
 * most greedy runs the character that follows the run can never belong to
 * the run's class, so backtracking into the run never produces a different
 * match, and the matcher takes the longest run.  Three patterns are the
 * exception, and their matchers state where the engine's backtracking ends:
 * `.*\/` (ThroughLastSlashAt) ends at the last slash before the next line
 * terminator, since `.` also covers `/`; the host-name test
 * `^[\w.-]+\.\w{2,}$` (IsHostName) and the domain test
 * `^[\w][\w.-]*\.\w{2,}(\(\d+\))?$` (IsBareDomain, IsDomain) split the
 * line at its last dot, since the run before `\.` also covers `.`
 * (HostNameSplit shows that no other split matches).  The two lazy
 * captures are modelled with their backtracking written out (RankAfter,
 * NameAfterSlash).
 */
module Patterns {
  import opened Text
  import opened Wrappers

  /** Character classes used by the patterns. */
  datatype Class =
    | NumChars   // [\d,.]
    | DecChars   // [\d.]
    | RankChars  // [\d,]
    | Digits     // \d
    | Spaces     // \s
    | WordChars  // \w
    | HostChars  // [\w.-]
    | DotChars   // .  (anything but a line terminator)

  predicate In(k: Class, c: char) {
    match k
    case NumChars => IsDigit(c) || c == ',' || c == '.'
    case DecChars => IsDigit(c) || c == '.'
    case RankChars => IsDigit(c) || c == ','
    case Digits => IsDigit(c)
    case Spaces => IsSpace(c)
    case WordChars => IsWordChar(c)
    case HostChars => IsWordChar(c) || c == '.' || c == '-'
    case DotChars => !IsLineTerminator(c)
  }

  predicate AllIn(k: Class, s: string) {
    forall i :: 0 <= i < |s| ==> In(k, s[i])
  }

  /** End of the longest run of `k` characters starting at `i`. */
  function RunEnd(k: Class, s: string, i: nat): (e: nat)
    requires i <= |s|
    ensures i <= e <= |s|
    ensures AllIn(k, s[i..(e)])
    ensures e == |s| || !In(k, s[e])
    decreases |s| - i
  {
    if i < |s| && In(k, s[i]) then
      var e := RunEnd(k, s, i + 1);
      assert s[i..e] == [s[i]] + s[i + 1..e];
      e
    else i
  }

  predicate IsMagnitude(c: char) { c == 'B' || c == 'M' || c == 'K' }

  predicate IsSign(c: char) { c == '+' || c == '-' }

  predicate IsUpper(c: char) { 'A' <= c <= 'Z' }

  predicate IsLower(c: char) { 'a' <= c <= 'z' }

  // ---------------------------------------------------------------------
  // Anchored shapes (whole-line tests)
  // ---------------------------------------------------------------------

  /** `^[\d,.]+[BMK]$`: a traffic volume such as `1.53B` or `892.4K`. */
  predicate IsVolume(s: string) {
    |s| >= 2 && IsMagnitude(s[|s| - 1]) && AllIn(NumChars, s[..|s| - 1])
  }

  /** `^[\d,.]+[BMK]?$`: a plain number or a volume. */
  predicate IsAmount(s: string) {
    (s != [] && AllIn(NumChars, s)) || IsVolume(s)
  }

  /** `^[\d,.]+%$`: a bare percentage. */
  predicate IsBarePercent(s: string) {
    |s| >= 2 && s[|s| - 1] == '%' && AllIn(NumChars, s[..|s| - 1])
  }

  /** `^[\d.]+%$` */
  predicate IsDecimalPercent(s: string) {
    |s| >= 2 && s[|s| - 1] == '%' && AllIn(DecChars, s[..|s| - 1])
  }

  /** `^[+-]?[\d,.]+%$`: a percentage with an optional sign and no spaces. */
  predicate IsSignedPercentText(s: string) {
    IsBarePercent(s) || (s != [] && IsSign(s[0]) && IsBarePercent(s[1..]))
  }

  /**
   * `^[+-]?\s*[\d,.]+%$`: a percentage with an optional sign, possibly
   * separated from the number by white space.  A leading sign must be
   * taken (neither `\s` nor `[\d,.]` matches it) and the white space must be
   * all of it (the number cannot start with a space).
   */
  predicate IsSignedPercent(s: string) {
    var body := if s != [] && IsSign(s[0]) then s[1..] else s;
    IsBarePercent(body[LeadingSpaces(body)..])
  }

  /** `^#[\d,]+$`: a global rank such as `#1,234`. */
  predicate IsRank(s: string) {
    |s| >= 2 && s[0] == '#' && AllIn(RankChars, s[1..])
  }

  /** `^\d{2}:\d{2}:\d{2}$`: a duration `HH:MM:SS`. */
  predicate IsClock(s: string) {
    |s| == 8 && IsDigit(s[0]) && IsDigit(s[1]) && s[2] == ':' && IsDigit(s[3])
    && IsDigit(s[4]) && s[5] == ':' && IsDigit(s[6]) && IsDigit(s[7])
  }

  /** `^[\d.]+$` */
  predicate IsDecimal(s: string) {
    s != [] && AllIn(DecChars, s)
  }

  /** `^>[\d,]+%$` */
  predicate IsOverPercent(s: string) {
    |s| >= 3 && s[0] == '>' && s[|s| - 1] == '%' && AllIn(RankChars, s[1..|s| - 1])
  }

  /**
   * `^[\w.-]+\.\w{2,}$`: a host name.  The `\.` is followed only by word
   * characters, so it is the last dot of the line.
   */
  predicate IsHostName(s: string) {
    var d := LastIndexOfChar(s, '.', 0, |s|);
    d >= 1 && |s| - d >= 3 && AllIn(HostChars, s[..d]) && AllIn(WordChars, s[d + 1..])
  }

  /** `s` splits at a dot `d` into a non-empty `[\w.-]+` part and a `\w{2,}` part. */
  predicate HostSplit(s: string, d: nat) {
    1 <= d < |s| && s[d] == '.' && |s| - d >= 3
    && AllIn(HostChars, s[..d]) && AllIn(WordChars, s[d + 1..])
  }

  /** IsHostName agrees with the regular expression's reading: some dot splits the line. */
  lemma HostNameSplit(s: string)
    ensures IsHostName(s) <==> exists d :: HostSplit(s, d)
  {
    var d := LastIndexOfChar(s, '.', 0, |s|);
    if IsHostName(s) {
      assert HostSplit(s, d);
    }
    if e: nat :| HostSplit(s, e) {
      assert forall j :: e < j < |s| ==> s[j] == s[e + 1..][j - e - 1];
      assert d == e;
    }
  }

  /** Start of a trailing `(digits)` counter, or -1: the match of `\(\d+\)$`. */
  function CounterStart(s: string): (p: int)
    ensures p == -1 || (0 <= p && p + 3 <= |s|)
    ensures p != -1 ==> s[p] == '(' && s[|s| - 1] == ')' && AllIn(Digits, s[p + 1..|s| - 1])
  {
    if |s| >= 3 && s[|s| - 1] == ')' then
      var q := DigitsBefore(s, |s| - 1);
      if q < |s| - 1 && q >= 1 && s[q - 1] == '(' then q - 1 else -1
    else -1
  }

  /** Start of the longest run of digits ending just before `j`. */
  function DigitsBefore(s: string, j: nat): (q: nat)
    requires j <= |s|
    ensures q <= j
    ensures AllIn(Digits, s[q..j])
    ensures q == 0 || !IsDigit(s[q - 1])
    decreases j
  {
    if j > 0 && IsDigit(s[j - 1]) then
      var q := DigitsBefore(s, j - 1);
      assert s[q..j] == s[q..j - 1] + [s[j - 1]];
      q
    else j
  }

  /** `s.replace(/\(\d+\)$/, "")`: the line without a trailing `(N)` counter. */
  function StripCounter(s: string): (r: string)
    ensures CounterStart(s) == -1 ==> r == s
    ensures CounterStart(s) != -1 ==> r == s[..CounterStart(s)] && |r| + 3 <= |s|
  {
    var p := CounterStart(s);
    if p < 0 then s else s[..p]
  }

  /** `^[\w][\w.-]*\.\w{2,}$` */
  predicate IsBareDomain(s: string) {
    IsHostName(s) && IsWordChar(s[0])
  }

  /**
   * `^[\w][\w.-]*\.\w{2,}(\(\d+\))?$`: a referring domain, possibly carrying
   * a `(N)` counter.  A line ending in a counter cannot end in a word
   * character, so the optional group is either absent or exactly the counter.
   */
  predicate IsDomain(s: string) {
    IsBareDomain(s) || (CounterStart(s) != -1 && IsBareDomain(StripCounter(s)))
  }

  /** `^域\s*(\([\d,]+\))?$`: the header of the referrals table, with an optional `(N,NNN)` count. */
  predicate IsHeaderLine(s: string) {
    s != [] && s[0] == '域'
    && var rest := s[1..];
    var t := rest[LeadingSpaces(rest)..];
    t == [] || (|t| >= 3 && t[0] == '(' && t[|t| - 1] == ')' && AllIn(RankChars, t[1..|t| - 1]))
  }

  /** `^1\s+2\s+3`: the row-number line `1 2 3 ...`. */
  predicate IsSequenceLine(s: string) {
    |s| >= 1 && s[0] == '1'
    && var a := RunEnd(Spaces, s, 1);
    a > 1 && a < |s| && s[a] == '2'
    && var b := RunEnd(Spaces, s, a + 1);
    b > a + 1 && b < |s| && s[b] == '3'
  }

  /** `^[\d,.]+[BMK]`: the line starts with a volume (no end anchor). */
  predicate StartsWithVolume(s: string) {
    s != [] && In(NumChars, s[0])
    && var e := RunEnd(NumChars, s, 0);
    e < |s| && IsMagnitude(s[e])
  }

  // ---------------------------------------------------------------------
  // Unanchored patterns
  // ---------------------------------------------------------------------

  datatype Pattern =
    | Amount          // [\d,.]+[BMK]?        (numPattern)
    | Percent         // [\d,.]+%             (pctPattern)
    | DecimalPercent  // [\d.]+%
    | SignedPercent   // [+-]?[\d,.]+%
    | AdChange        // [+-]?[\d,.]+%|>[\d,]+%|-
    | MonthlyChange   // ([+-]?[\d,.]+%)\s*自上个月, reporting group 1
    | RankNumber      // #[\d,]+              (rankPattern)
    | Clock           // \d{2}:\d{2}:\d{2}
    | Decimal         // [\d.]+
    | DateRange       // [A-Z][a-z]{2}\s+\d{4}\s*-\s*[A-Z][a-z]{2}\s+\d{4}
    | Literal(text: string)
    | ThroughLastSlash // .*\/

  /** The anchored reading of each pattern: what the text it reports looks like. */
  predicate Shape(p: Pattern, t: string) {
    match p
    case Amount => IsAmount(t)
    case Percent => IsBarePercent(t)
    case DecimalPercent => IsDecimalPercent(t)
    case SignedPercent => IsSignedPercentText(t)
    case AdChange => IsSignedPercentText(t) || IsOverPercent(t) || t == "-"
    case MonthlyChange => IsSignedPercentText(t)
    case RankNumber => IsRank(t)
    case Clock => IsClock(t)
    case Decimal => IsDecimal(t)
    case DateRange => |t| >= 17 && IsUpper(t[0]) && IsDigit(t[|t| - 1])
    case Literal(x) => t == x
    case ThroughLastSlash => t != [] && t[|t| - 1] == '/' && AllIn(DotChars, t)
  }

  /** `[A-Z][a-z]{2}\s+\d{4}` at `i`: end of the match. */
  function MonthYearAt(s: string, i: nat): (r: Option<nat>)
    requires i <= |s|
    ensures r.Some? ==> i + 8 <= r.value <= |s| && IsUpper(s[i]) && IsDigit(s[r.value - 1])
  {
    if i + 3 <= |s| && IsUpper(s[i]) && IsLower(s[i + 1]) && IsLower(s[i + 2]) then
      var w := RunEnd(Spaces, s, i + 3);
      if w > i + 3 && w + 4 <= |s| && IsDigit(s[w]) && IsDigit(s[w + 1]) && IsDigit(s[w + 2]) && IsDigit(s[w + 3])
      then Some(w + 4) else None
    else None
  }

  /** `[\d,.]+%` at `i`: end of the match. */
  function PercentAt(s: string, i: nat): (r: Option<nat>)
    requires i <= |s|
    ensures r.Some? ==> i < r.value <= |s| && IsBarePercent(s[i..(r.value)])
  {
    if i < |s| && In(NumChars, s[i]) then
      var e := RunEnd(NumChars, s, i);
      if e < |s| && s[e] == '%' then
        assert s[i..e + 1][..e - i] == s[i..e];
        Some(e + 1)
      else None
    else None
  }

  /** `[+-]?[\d,.]+%` at `i`: end of the match (the sign is taken when what follows it matches). */
  function SignedPercentAt(s: string, i: nat): (r: Option<nat>)
    requires i <= |s|
    ensures r.Some? ==> i < r.value <= |s| && IsSignedPercentText(s[i..(r.value)])
  {
    if i < |s| && IsSign(s[i]) && PercentAt(s, i + 1).Some? then
      var e := PercentAt(s, i + 1).value;
      assert s[i..e][1..] == s[i + 1..e];
      Some(e)
    else PercentAt(s, i)
  }

  /** `[\d,.]+[BMK]?` at `i` */
  function AmountAt(s: string, i: nat): (r: Option<nat>)
    requires i <= |s|
    ensures r.Some? ==> i < r.value <= |s| && IsAmount(s[i..(r.value)])
  {
    if i < |s| && In(NumChars, s[i]) then
      var e := RunEnd(NumChars, s, i);
      if e < |s| && IsMagnitude(s[e]) then
        assert s[i..e + 1][..e - i] == s[i..e];
        Some(e + 1)
      else Some(e)
    else None
  }

  /** `[\d.]+%` at `i` */
  function DecimalPercentAt(s: string, i: nat): (r: Option<nat>)
    requires i <= |s|
    ensures r.Some? ==> i < r.value <= |s| && IsDecimalPercent(s[i..(r.value)])
  {
    if i < |s| && In(DecChars, s[i]) then
      var e := RunEnd(DecChars, s, i);
      if e < |s| && s[e] == '%' then
        assert s[i..e + 1][..e - i] == s[i..e];
        Some(e + 1)
      else None
    else None
  }

  /** `>[\d,]+%` at `i` */
  function OverPercentAt(s: string, i: nat): (r: Option<nat>)
    requires i <= |s|
    ensures r.Some? ==> i < r.value <= |s| && IsOverPercent(s[i..(r.value)])
  {
    if i + 1 < |s| && s[i] == '>' && In(RankChars, s[i + 1]) then
      var e := RunEnd(RankChars, s, i + 1);
      if e < |s| && s[e] == '%' then
        assert IsOverPercent(s[i..e + 1]) by {
          var t, u := s[i..e + 1][1..e - i], s[i + 1..e];
          forall j | 0 <= j < |t| ensures In(RankChars, t[j]) {
            assert t[j] == u[j];
          }
        }
        Some(e + 1)
      else None
    else None
  }

  /** `[+-]?[\d,.]+%|>[\d,]+%|-` at `i`: the alternatives are tried in order. */
  function AdChangeAt(s: string, i: nat): (r: Option<nat>)
    requires i <= |s|
    ensures r.Some? ==> i < r.value <= |s|
    ensures r.Some? ==> var t := s[i..(r.value)]; IsSignedPercentText(t) || IsOverPercent(t) || t == "-"
  {
    if SignedPercentAt(s, i).Some? then SignedPercentAt(s, i)
    else if OverPercentAt(s, i).Some? then OverPercentAt(s, i)
    else if i < |s| && s[i] == '-' then
      assert s[i..i + 1] == "-";
      Some(i + 1)
    else None
  }

  /** `#[\d,]+` at `i` */
  function RankAt(s: string, i: nat): (r: Option<nat>)
    requires i <= |s|
    ensures r.Some? ==> i < r.value <= |s| && IsRank(s[i..(r.value)])
  {
    if i + 1 < |s| && s[i] == '#' && In(RankChars, s[i + 1]) then
      var e := RunEnd(RankChars, s, i + 1);
      assert s[i..e][1..] == s[i + 1..e];
      Some(e)
    else None
  }

  /** `[A-Z][a-z]{2}\s+\d{4}\s*-\s*[A-Z][a-z]{2}\s+\d{4}` at `i` */
  function DateRangeAt(s: string, i: nat): (r: Option<nat>)
    requires i <= |s|
    ensures r.Some? ==> i + 17 <= r.value <= |s| && IsUpper(s[i]) && IsDigit(s[r.value - 1])
  {
    var a := MonthYearAt(s, i);
    if a.None? then None
    else
      var w := RunEnd(Spaces, s, a.value);
      if w < |s| && s[w] == '-' then MonthYearAt(s, RunEnd(Spaces, s, w + 1))
      else None
  }

  /** `.*\/` at `i`: up to the last slash before the next line terminator. */
  function ThroughLastSlashAt(s: string, i: nat): (r: Option<nat>)
    requires i <= |s|
    ensures r.Some? ==> i < r.value <= |s|
    ensures r.Some? ==> s[r.value - 1] == '/' && AllIn(DotChars, s[i..(r.value)])
  {
    var e := RunEnd(DotChars, s, i);
    var k := LastIndexOfChar(s, '/', i, e);
    if k < 0 then None
    else
      assert AllIn(DotChars, s[i..k + 1]) by {
        var t, u := s[i..k + 1], s[i..e];
        forall j | 0 <= j < |t| ensures In(DotChars, t[j]) {
          assert t[j] == u[j];
        }
      }
      Some(k + 1)
  }

  /**
   * The match of `p` starting exactly at `i`, as the end of the text the
   * source reports (the whole match, or group 1 for MonthlyChange).
   */
  function MatchAt(p: Pattern, s: string, i: nat): (r: Option<nat>)
    requires i <= |s|
    ensures r.Some? ==> i <= r.value <= |s| && Shape(p, s[i..(r.value)])
  {
    match p
    case Amount => AmountAt(s, i)
    case Percent => PercentAt(s, i)
    case DecimalPercent => DecimalPercentAt(s, i)
    case SignedPercent => SignedPercentAt(s, i)
    case AdChange => AdChangeAt(s, i)
    case MonthlyChange => MonthlyChangeAt(s, i)
    case RankNumber => RankAt(s, i)
    case Clock => ClockAt(s, i)
    case Decimal => DecimalAt(s, i)
    case DateRange => DateRangeAt(s, i)
    case Literal(x) => LiteralAt(s, x, i)
    case ThroughLastSlash => ThroughLastSlashAt(s, i)
  }

  /** A signed percent followed, after spaces, by "自上个月": the end of the percent (group 1). */
  function MonthlyChangeAt(s: string, i: nat): (r: Option<nat>)
    requires i <= |s|
    ensures r.Some? ==> i < r.value <= |s| && IsSignedPercentText(s[i..(r.value)])
  {
    var m := SignedPercentAt(s, i);
    if m.Some? && OccursAt(s, "自上个月", RunEnd(Spaces, s, m.value)) then m else None
  }

  /** `\d{2}:\d{2}:\d{2}` at `i`. */
  function ClockAt(s: string, i: nat): (r: Option<nat>)
    requires i <= |s|
    ensures r.Some? ==> i + 8 == r.value <= |s| && IsClock(s[i..(r.value)])
  {
    if i + 8 <= |s| && IsClock(s[i..i + 8]) then Some(i + 8) else None
  }

  /** `[\d.]+` at `i`. */
  function DecimalAt(s: string, i: nat): (r: Option<nat>)
    requires i <= |s|
    ensures r.Some? ==> i < r.value <= |s| && IsDecimal(s[i..(r.value)])
  {
    if i < |s| && In(DecChars, s[i]) then Some(RunEnd(DecChars, s, i)) else None
  }

  /** The literal `x` at `i`. */
  function LiteralAt(s: string, x: string, i: nat): (r: Option<nat>)
    requires i <= |s|
    ensures r.Some? ==> r.value == i + |x| <= |s| && s[i..(r.value)] == x
  {
    if OccursAt(s, x, i) then Some(i + |x|) else None
  }

  /** Where a match was found: `[start, end)` of the reported text. */
  datatype Hit = Hit(start: nat, end: nat)

  /** The leftmost match of `p` at or after `from`. */
  function Search(p: Pattern, s: string, from: nat): (h: Option<Hit>)
    requires from <= |s|
    ensures h.Some? ==> from <= h.value.start <= h.value.end <= |s|
    ensures h.Some? ==> MatchAt(p, s, h.value.start) == Some(h.value.end)
    ensures h.Some? ==> forall j :: from <= j < h.value.start ==> MatchAt(p, s, j).None?
    ensures h.None? ==> forall j :: from <= j <= |s| ==> MatchAt(p, s, j).None?
    decreases |s| - from
  {
    var m := MatchAt(p, s, from);
    if m.Some? then Some(Hit(from, m.value))
    else if from == |s| then None
    else Search(p, s, from + 1)
  }

  /** `[i, e)` is the leftmost match of `p` at or after `from`. */
  predicate Leftmost(p: Pattern, s: string, from: nat, i: nat, e: nat) {
    from <= i <= e <= |s| && MatchAt(p, s, i) == Some(e) && forall j :: from <= j < i ==> MatchAt(p, s, j).None?
  }

  /** `s.match(p)`: the text of the leftmost match, if any. */
  function Find(p: Pattern, s: string): (r: Option<string>)
    ensures r.Some? ==> Shape(p, r.value)
    ensures r.None? <==> forall j :: 0 <= j <= |s| ==> MatchAt(p, s, j).None?
  {
    var h := Search(p, s, 0);
    if h.None? then None else Some(s[h.value.start..h.value.end])
  }

  /** What `s.match(p)` finds is the text of the leftmost match. */
  lemma FindIsLeftmost(p: Pattern, s: string)
    ensures Find(p, s).Some? ==> exists i: nat, e: nat :: Leftmost(p, s, 0, i, e) && Find(p, s).value == s[i..e]
  {
    var h := Search(p, s, 0);
    if h.Some? {
      assert Leftmost(p, s, 0, h.value.start, h.value.end);
    }
  }

  /** `(s.match(p) || [dflt])[0]` */
  function FindOr(p: Pattern, s: string, dflt: string): (r: string)
    ensures r == dflt || Shape(p, r)
    ensures Find(p, s).None? ==> r == dflt
    ensures Find(p, s).Some? ==> r == Find(p, s).value
  {
    Find(p, s).GetOr(dflt)
  }

  /**
   * The second element of `s.match(p)` for a global pattern: the leftmost
   * match at or after the end of the first one (every pattern this is used
   * with matches at least one character).
   */
  function SecondFind(p: Pattern, s: string): (r: Option<string>)
    ensures r.Some? ==> Shape(p, r.value) && Find(p, s).Some?
  {
    var h := Search(p, s, 0);
    if h.None? then None
    else
      var g := Search(p, s, h.value.end);
      if g.None? then None else Some(s[g.value.start..g.value.end])
  }

  /** The second match is the leftmost one at or after the end of the first. */
  lemma SecondFindAfterFirst(p: Pattern, s: string)
    ensures SecondFind(p, s).Some? ==>
      exists i: nat, e: nat, i2: nat, e2: nat :: Leftmost(p, s, 0, i, e) && Leftmost(p, s, e, i2, e2) && SecondFind(p, s).value == s[i2..e2]
  {
    var h := Search(p, s, 0);
    if h.Some? {
      var g := Search(p, s, h.value.end);
      if g.Some? {
        assert Leftmost(p, s, 0, h.value.start, h.value.end);
        assert Leftmost(p, s, h.value.end, g.value.start, g.value.end);
      }
    }
  }

  /** There is no second match exactly when none starts at or after the end of the first. */
  lemma SecondFindNoneAfterFirst(p: Pattern, s: string)
    ensures SecondFind(p, s).None? ==>
      Find(p, s).None? || exists i: nat, e: nat :: Leftmost(p, s, 0, i, e) && forall j :: e <= j <= |s| ==> MatchAt(p, s, j).None?
  {
    var h := Search(p, s, 0);
    if h.Some? {
      assert Leftmost(p, s, 0, h.value.start, h.value.end);
    }
  }

  /** `p.test(s)` */
  predicate Matches(p: Pattern, s: string) {
    Search(p, s, 0).Some?
  }

  /** `s.match(p)` succeeds exactly when `p.test(s)` does. */
  lemma FindMatches(p: Pattern, s: string)
    ensures Find(p, s).Some? <==> Matches(p, s)
    ensures Matches(p, s) ==> FindOr(p, s, "-") == Find(p, s).value
  {
  }

  /** `s.replace(p, "")`: the leftmost match removed, the rest kept. */
  function RemoveMatch(p: Pattern, s: string): (r: string)
    ensures !Matches(p, s) ==> r == s
    ensures Matches(p, s) ==> |r| <= |s|
  {
    var h := Search(p, s, 0);
    if h.None? then s else s[..h.value.start] + s[h.value.end..]
  }

  /** `s.replace(p, "")` cuts out exactly the leftmost match. */
  lemma RemoveMatchLeftmost(p: Pattern, s: string)
    ensures Matches(p, s) ==> exists i: nat, e: nat :: Leftmost(p, s, 0, i, e) && RemoveMatch(p, s) == s[..i] + s[e..]
  {
    var h := Search(p, s, 0);
    if h.Some? {
      assert Leftmost(p, s, 0, h.value.start, h.value.end);
    }
  }

  // ---------------------------------------------------------------------
  // Lazy captures
  // ---------------------------------------------------------------------

  /**
   * A match of a pattern with a lazy `(.+?)` name: the name is
   * `[nameStart, nameEnd)`, the `#` that ends it is at `hash`, and the match
   * ends at `end`.
   */
  datatype Capture = Capture(nameStart: nat, nameEnd: nat, hash: nat, end: nat)

  /** The patterns with a lazy name capture. */
  datatype NamePattern =
    | RankAfter(lead: string)  // lead\s+(.+?)\s+#([\d,]+)
    | NameAfterSlash            // \/\s*(.+?)\s+#

  /** A well-formed capture: a non-empty name of `.` characters, then `\s+#`. */
  predicate CaptureShape(s: string, c: Capture, digits: bool) {
    && c.nameStart < c.nameEnd < c.hash < c.end <= |s|
    && AllIn(DotChars, s[c.nameStart..c.nameEnd])
    && AllIn(Spaces, s[c.nameEnd..c.hash])
    && s[c.hash] == '#'
    && (digits ==> IsRank(s[c.hash..c.end]))
  }

  /** Where the tail after a name has its `#` and where it ends. */
  datatype Tail = Tail(hash: nat, end: nat)

  /** `\s+#`, followed by `[\d,]+` when `digits` is set, starting at `c`: the `#` and the end. */
  function HashTailAt(s: string, c: nat, digits: bool): (r: Option<Tail>)
    requires c <= |s|
    ensures r.Some? ==> c < r.value.hash < r.value.end <= |s| && s[r.value.hash] == '#'
    ensures r.Some? ==> AllIn(Spaces, s[c..(r.value.hash)])
    ensures r.Some? && digits ==> IsRank(s[r.value.hash..(r.value.end)])
  {
    if c < |s| && IsSpace(s[c]) then
      var w := RunEnd(Spaces, s, c);
      if w < |s| && s[w] == '#' then
        if !digits then Some(Tail(w, w + 1))
        else
          var e := RankAt(s, w);
          if e.Some? then Some(Tail(w, e.value)) else None
      else None
    else None
  }

  /**
   * `(.+?)` then the tail, for a name starting at `b` and already `n`
   * characters long: the name grows one character at a time until the tail
   * matches or a line terminator (or the end) stops it.
   */
  function LazyNameAt(s: string, b: nat, n: nat, digits: bool): (r: Option<Capture>)
    requires 1 <= n && b + n <= |s| && AllIn(DotChars, s[b..b + n])
    ensures r.Some? ==> r.value.nameStart == b && b + n <= r.value.nameEnd
    ensures r.Some? ==> CaptureShape(s, r.value, digits)
    decreases |s| - (b + n)
  {
    var t := HashTailAt(s, b + n, digits);
    if t.Some? then Some(Capture(b, b + n, t.value.hash, t.value.end))
    else if b + n < |s| && In(DotChars, s[b + n]) then
      assert s[b..b + n + 1] == s[b..b + n] + [s[b + n]];
      LazyNameAt(s, b, n + 1, digits)
    else None
  }

  /**
   * `\s{k}` (greedy, giving back one space at a time down to `kmin`) then the
   * lazy name and the tail, from `a`.
   */
  function SpacedNameAt(s: string, a: nat, k: nat, kmin: nat, digits: bool): (r: Option<Capture>)
    requires a + k <= |s| && AllIn(Spaces, s[a..a + k])
    ensures r.Some? ==> a + kmin <= r.value.nameStart <= a + k
    ensures r.Some? ==> AllIn(Spaces, s[a..(r.value.nameStart)])
    ensures r.Some? ==> CaptureShape(s, r.value, digits)
    decreases k
  {
    var r := if a + k < |s| && In(DotChars, s[a + k]) then
      assert s[a + k..a + k + 1] == [s[a + k]];
      LazyNameAt(s, a + k, 1, digits)
    else None;
    if r.Some? && k >= kmin then r
    else if k > kmin then
      assert s[a..a + k - 1] == s[a..a + k][..k - 1];
      SpacedNameAt(s, a, k - 1, kmin, digits)
    else None
  }

  /** The match of a name pattern starting exactly at `p`. */
  function NameMatchAt(np: NamePattern, s: string, p: nat): (r: Option<Capture>)
    requires p <= |s|
    ensures r.Some? ==> p < r.value.nameStart && CaptureShape(s, r.value, np.RankAfter?)
    ensures r.Some? && np.RankAfter? ==> OccursAt(s, np.lead, p) && p + |np.lead| < r.value.nameStart
    ensures r.Some? && np.RankAfter? ==> AllIn(Spaces, s[p + |np.lead|..(r.value.nameStart)])
    ensures r.Some? && np.NameAfterSlash? ==> s[p] == '/' && AllIn(Spaces, s[p + 1..(r.value.nameStart)])
  {
    match np
    case RankAfter(lead) =>
      if OccursAt(s, lead, p) then
        var a := p + |lead|;
        var w := RunEnd(Spaces, s, a);
        if w > a then SpacedNameAt(s, a, w - a, 1, true) else None
      else None
    case NameAfterSlash =>
      if p < |s| && s[p] == '/' then
        var w := RunEnd(Spaces, s, p + 1);
        SpacedNameAt(s, p + 1, w - (p + 1), 0, false)
      else None
  }

  /** The leftmost match of a name pattern at or after `from`. */
  function SearchName(np: NamePattern, s: string, from: nat): (r: Option<Capture>)
    requires from <= |s|
    ensures r.Some? ==> CaptureShape(s, r.value, np.RankAfter?)
    ensures r.None? ==> forall p :: from <= p <= |s| ==> NameMatchAt(np, s, p).None?
    decreases |s| - from
  {
    var m := NameMatchAt(np, s, from);
    if m.Some? then m
    else if from == |s| then None
    else SearchName(np, s, from + 1)
  }

  /** What SearchName finds is the match at the first position that has one. */
  lemma {:induction false} SearchNameIsLeftmost(np: NamePattern, s: string, from: nat)
    requires from <= |s|
    ensures SearchName(np, s, from).Some? ==>
      exists p: nat :: from <= p <= |s| && NameMatchAt(np, s, p) == SearchName(np, s, from)
        && forall q: nat :: from <= q < p ==> NameMatchAt(np, s, q).None?
    decreases |s| - from
  {
    var r := SearchName(np, s, from);
    if r.Some? && NameMatchAt(np, s, from).None? {
      SearchNameIsLeftmost(np, s, from + 1);
      var p: nat :| from + 1 <= p <= |s| && NameMatchAt(np, s, p) == r
        && forall q: nat :: from + 1 <= q < p ==> NameMatchAt(np, s, q).None?;
      NoNameMatchBefore(np, s, from, p);
    }
  }

  /** No match at `from` and none in `(from, p)`: none in `[from, p)`. */
  lemma NoNameMatchBefore(np: NamePattern, s: string, from: nat, p: nat)
    requires from < p <= |s| && NameMatchAt(np, s, from).None?
    requires forall q: nat :: from + 1 <= q < p ==> NameMatchAt(np, s, q).None?
    ensures forall q: nat :: from <= q < p ==> NameMatchAt(np, s, q).None?
  {
  }

  /** A shaped line is matched whole from its first character: Amount. */
  lemma AmountMatchesWhole(t: string)
    requires IsAmount(t)
    ensures MatchAt(Amount, t, 0) == Some(|t|)
  {
    var e := RunEnd(NumChars, t, 0);
    if IsVolume(t) {
      assert forall j :: 0 <= j < |t| - 1 ==> In(NumChars, t[j]) by {
        forall j | 0 <= j < |t| - 1 ensures In(NumChars, t[j]) { assert t[..|t| - 1][j] == t[j]; }
      }
      assert e == |t| - 1;
    } else {
      assert e == |t|;
    }
  }

  /** A shaped line is matched whole from its first character: Percent. */
  lemma PercentMatchesWhole(t: string)
    requires IsBarePercent(t)
    ensures MatchAt(Percent, t, 0) == Some(|t|)
  {
    assert forall j :: 0 <= j < |t| - 1 ==> In(NumChars, t[j]) by {
      forall j | 0 <= j < |t| - 1 ensures In(NumChars, t[j]) { assert t[..|t| - 1][j] == t[j]; }
    }
    assert RunEnd(NumChars, t, 0) == |t| - 1;
  }

  /** A shaped line is matched whole from its first character: RankNumber. */
  lemma RankMatchesWhole(t: string)
    requires IsRank(t)
    ensures MatchAt(RankNumber, t, 0) == Some(|t|)
  {
    assert forall j :: 1 <= j < |t| ==> In(RankChars, t[j]) by {
      forall j | 1 <= j < |t| ensures In(RankChars, t[j]) { assert t[1..][j - 1] == t[j]; }
    }
    assert RunEnd(RankChars, t, 1) == |t|;
  }

  /** A match at the first character is the leftmost one, so `Find` reports it. */
  lemma FindAtStart(p: Pattern, t: string, e: nat)
    requires e <= |t|
    requires MatchAt(p, t, 0) == Some(e)
    ensures Find(p, t) == Some(t[..e])
  {
  }
}
