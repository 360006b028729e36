/**
 * The overview extractor's lookup helpers: forward searches for an anchor
 * line, and the bounded look-ahead for a value after an anchor.
 */
module Lookup {
  import opened Text
  import opened Wrappers
  import opened Patterns

  function Min(a: int, b: int): int { if a <= b then a else b }

  function Max(a: int, b: int): int { if a >= b then a else b }

  /** `findLine(keyword, startFrom)`: the first line at or after `from` containing `keyword`, or -1. */
  function FindLine(lines: seq<string>, keyword: string, from: nat): (r: int)
    ensures r == -1 || (from <= r < |lines| && Contains(lines[r], keyword))
    ensures r == -1 ==> forall j :: from <= j < |lines| ==> !Contains(lines[j], keyword)
    ensures r != -1 ==> forall j :: from <= j < r ==> !Contains(lines[j], keyword)
    decreases |lines| - from
  {
    if from >= |lines| then -1
    else if Contains(lines[from], keyword) then from
    else FindLine(lines, keyword, from + 1)
  }

  /** `findExactLine(keyword, startFrom)`: the first line at or after `from` equal to `keyword`, or -1. */
  function FindExactLine(lines: seq<string>, keyword: string, from: nat): (r: int)
    ensures r == -1 || (from <= r < |lines| && lines[r] == keyword)
    ensures r == -1 ==> forall j :: from <= j < |lines| ==> lines[j] != keyword
    ensures r != -1 ==> forall j :: from <= j < r ==> lines[j] != keyword
    decreases |lines| - from
  {
    if from >= |lines| then -1
    else if lines[from] == keyword then from
    else FindExactLine(lines, keyword, from + 1)
  }

  /** The first line in `[lo, hi)` on which `p` matches, or -1. */
  function FirstMatchLine(lines: seq<string>, p: Pattern, lo: nat, hi: nat): (k: int)
    requires hi <= |lines|
    ensures k == -1 ==> forall j :: lo <= j < hi ==> !Matches(p, lines[j])
    ensures k != -1 ==> lo <= k < hi && Matches(p, lines[k])
    ensures k != -1 ==> forall j :: lo <= j < k ==> !Matches(p, lines[j])
    decreases hi - lo
  {
    if lo >= hi then -1
    else if Matches(p, lines[lo]) then lo
    else FirstMatchLine(lines, p, lo + 1, hi)
  }

  /** One past the last line `findValueAfter(anchor, _, range)` looks at. */
  function WindowEnd(lines: seq<string>, anchor: nat, range: nat): (hi: nat)
    ensures hi <= |lines| && hi <= anchor + range + 1
  {
    Min(anchor + range + 1, |lines|)
  }

  /**
   * `findValueAfter(anchor, pattern, range)`: the leftmost match of `p` on
   * the first line among `anchor+1 .. anchor+range` that has one, or "-"
   * when the anchor is missing or no line in that window matches.
   */
  function FindValueAfter(lines: seq<string>, anchor: int, p: Pattern, range: nat): (r: string)
    ensures anchor < 0 ==> r == "-"
    ensures r == "-" || Shape(p, r)
    ensures anchor >= 0 && FirstMatchLine(lines, p, anchor + 1, WindowEnd(lines, anchor, range)) == -1 ==> r == "-"
    ensures anchor >= 0 && FirstMatchLine(lines, p, anchor + 1, WindowEnd(lines, anchor, range)) != -1 ==>
      Some(r) == Find(p, lines[FirstMatchLine(lines, p, anchor + 1, WindowEnd(lines, anchor, range))])
  {
    if anchor < 0 then "-"
    else
      var k := FirstMatchLine(lines, p, anchor + 1, WindowEnd(lines, anchor, range));
      if k < 0 then "-" else Find(p, lines[k]).value
  }

  /** The `findLine` loop. */
  method LocateLine(lines: seq<string>, keyword: string, from: nat) returns (r: int)
    ensures r == FindLine(lines, keyword, from)
  {
    var i := from;
    while i < |lines|
      invariant from <= i
      invariant FindLine(lines, keyword, i) == FindLine(lines, keyword, from)
      decreases |lines| - i
    {
      if Contains(lines[i], keyword) {
        return i;
      }
      i := i + 1;
    }
    return -1;
  }

  /** The `findExactLine` loop. */
  method LocateExactLine(lines: seq<string>, keyword: string, from: nat) returns (r: int)
    ensures r == FindExactLine(lines, keyword, from)
  {
    var i := from;
    while i < |lines|
      invariant from <= i
      invariant FindExactLine(lines, keyword, i) == FindExactLine(lines, keyword, from)
      decreases |lines| - i
    {
      if lines[i] == keyword {
        return i;
      }
      i := i + 1;
    }
    return -1;
  }

  /** A value other than "-" was read from one of the `range` lines after the anchor. */
  lemma FoundAfter(lines: seq<string>, anchor: nat, p: Pattern, range: nat)
    requires FindValueAfter(lines, anchor, p, range) != "-"
    ensures exists k :: anchor < k <= anchor + range && k < |lines| && Find(p, lines[k]) == Some(FindValueAfter(lines, anchor, p, range))
  {
    var k := FirstMatchLine(lines, p, anchor + 1, WindowEnd(lines, anchor, range));
    assert k != -1;
    assert anchor < k <= anchor + range && k < |lines|;
  }

  /** No line of `[lo, hi)` matches `p`. */
  ghost predicate NoMatchIn(lines: seq<string>, lo: nat, hi: nat, p: Pattern)
    requires hi <= |lines|
  {
    forall k :: lo <= k < hi ==> !Matches(p, lines[k])
  }

  /** `r` is the match of `p` on the first line of `[lo, hi)` that `p` matches. */
  ghost predicate FirstMatchIn(lines: seq<string>, lo: nat, hi: nat, p: Pattern, r: string)
    requires hi <= |lines|
  {
    exists k :: lo <= k < hi && Matches(p, lines[k]) && Find(p, lines[k]) == Some(r)
      && forall j :: lo <= j < k ==> !Matches(p, lines[j])
  }

  /**
   * `r` is what a search of `[lo, hi)` for `p` gives: "-" when no line
   * matches, otherwise the match on the first line that does; when "-" is
   * not of the pattern's shape, "-" means exactly that no line matches.
   */
  ghost predicate FirstValueIn(lines: seq<string>, lo: nat, hi: nat, p: Pattern, r: string)
    requires hi <= |lines|
  {
    && (NoMatchIn(lines, lo, hi, p) ==> r == "-")
    && (!NoMatchIn(lines, lo, hi, p) ==> FirstMatchIn(lines, lo, hi, p, r))
    && (!Shape(p, "-") ==> (r == "-" <==> NoMatchIn(lines, lo, hi, p)))
  }

  /** findValueAfter with an anchor searches the window after it for the first match. */
  lemma FindValueAfterIsFirst(lines: seq<string>, anchor: nat, p: Pattern, range: nat)
    ensures FirstValueIn(lines, anchor + 1, WindowEnd(lines, anchor, range), p, FindValueAfter(lines, anchor, p, range))
  {
    var hi := WindowEnd(lines, anchor, range);
    var k := FirstMatchLine(lines, p, anchor + 1, hi);
    if k != -1 {
      FindMatches(p, lines[k]);
      assert !NoMatchIn(lines, anchor + 1, hi, p);
      assert FirstMatchIn(lines, anchor + 1, hi, p, FindValueAfter(lines, anchor, p, range));
    }
  }

  /** The `findValueAfter` loop. */
  method ValueAfter(lines: seq<string>, anchor: int, p: Pattern, range: nat) returns (r: string)
    ensures r == FindValueAfter(lines, anchor, p, range)
  {
    if anchor < 0 {
      return "-";
    }
    var hi := Min(anchor + range + 1, |lines|);
    var i := anchor + 1;
    while i < hi
      invariant anchor + 1 <= i
      invariant FirstMatchLine(lines, p, i, hi) == FirstMatchLine(lines, p, anchor + 1, hi)
      decreases hi - i
    {
      var m := Find(p, lines[i]);
      if m.Some? {
        return m.value;
      }
      i := i + 1;
    }
    return "-";
  }

  /** FirstMatchLine only reads the lines in its range. */
  lemma {:induction false} FirstMatchLineFrame(lines: seq<string>, other: seq<string>, p: Pattern, lo: nat, hi: nat)
    requires hi <= |lines| && hi <= |other|
    requires forall j :: lo <= j < hi ==> lines[j] == other[j]
    ensures FirstMatchLine(lines, p, lo, hi) == FirstMatchLine(other, p, lo, hi)
    decreases hi - lo
  {
    if lo < hi {
      FirstMatchLineFrame(lines, other, p, lo + 1, hi);
    }
  }

  /**
   * findValueAfter never looks at the anchor line itself, nor past
   * `anchor + range`: two dumps of the same length that agree on the window
   * give the same value.
   */
  lemma FindValueAfterReadsWindow(lines: seq<string>, other: seq<string>, anchor: nat, p: Pattern, range: nat)
    requires |lines| == |other|
    requires forall j :: anchor < j <= anchor + range && j < |lines| ==> lines[j] == other[j]
    ensures FindValueAfter(lines, anchor, p, range) == FindValueAfter(other, anchor, p, range)
  {
    FirstMatchLineFrame(lines, other, p, anchor + 1, WindowEnd(lines, anchor, range));
  }

  /** The last line in `[lo, hi)` satisfying `f`, or -1: the value a loop keeps overwriting ends up there. */
  function LastLineWhere(lines: seq<string>, lo: nat, hi: nat, f: string -> bool): (k: int)
    requires hi <= |lines|
    ensures k == -1 || lo <= k < hi
    decreases hi
  {
    if hi <= lo then -1
    else if f(lines[hi - 1]) then hi - 1
    else LastLineWhere(lines, lo, hi - 1, f)
  }

  /** LastLineWhere finds the last line satisfying `f`, and -1 exactly when there is none. */
  lemma {:induction false} LastLineWhereIsLast(lines: seq<string>, lo: nat, hi: nat, f: string -> bool)
    requires hi <= |lines|
    ensures var k := LastLineWhere(lines, lo, hi, f);
      && (k == -1 ==> forall j :: lo <= j < hi ==> !f(lines[j]))
      && (k != -1 ==> f(lines[k]) && forall j :: k < j < hi ==> !f(lines[j]))
    decreases hi
  {
    if hi > lo && !f(lines[hi - 1]) {
      LastLineWhereIsLast(lines, lo, hi - 1, f);
    }
  }

  /** The whole of the last line in `[lo, hi)` satisfying `f`, or "-". */
  function LastLine(lines: seq<string>, lo: nat, hi: nat, f: string -> bool): string
    requires hi <= |lines|
  {
    var k := LastLineWhere(lines, lo, hi, f);
    if k < 0 then "-" else lines[k]
  }

  /** No line of `[lo, hi)` satisfies `f`. */
  ghost predicate NoLineIn(lines: seq<string>, lo: nat, hi: nat, f: string -> bool)
    requires hi <= |lines|
  {
    forall k :: lo <= k < hi ==> !f(lines[k])
  }

  /** `r` is the whole of the last line in `[lo, hi)` satisfying `f`. */
  ghost predicate IsLastLine(lines: seq<string>, lo: nat, hi: nat, f: string -> bool, r: string)
    requires hi <= |lines|
  {
    exists k :: lo <= k < hi && f(lines[k]) && lines[k] == r
      && forall j :: k < j < hi ==> !f(lines[j])
  }

  /**
   * When "-" itself fails `f`, LastLine is "-" exactly when no line of the
   * window satisfies `f`, and otherwise the last line that does.
   */
  lemma LastLineIsLast(lines: seq<string>, lo: nat, hi: nat, f: string -> bool)
    requires hi <= |lines| && !f("-")
    ensures LastLine(lines, lo, hi, f) == "-" <==> NoLineIn(lines, lo, hi, f)
    ensures LastLine(lines, lo, hi, f) != "-" ==> IsLastLine(lines, lo, hi, f, LastLine(lines, lo, hi, f))
  {
    LastLineWhereIsLast(lines, lo, hi, f);
  }

  /** The leftmost match of `p` on the last line in `[lo, hi)` satisfying `f`, or "-". */
  function LastFound(lines: seq<string>, lo: nat, hi: nat, f: string -> bool, p: Pattern): (r: string)
    requires hi <= |lines|
    ensures r == "-" || Shape(p, r)
  {
    var k := LastLineWhere(lines, lo, hi, f);
    if k < 0 then "-" else FindOr(p, lines[k], "-")
  }

  /** Every line passing `f` carries a match of `p`, and the match is not "-". */
  ghost predicate AlwaysFound(f: string -> bool, p: Pattern) {
    forall l :: f(l) ==> Find(p, l).Some? && Find(p, l).value != "-"
  }

  /** `r` is the match of `p` on the last line in `[lo, hi)` satisfying `f`. */
  ghost predicate FoundOnLast(lines: seq<string>, lo: nat, hi: nat, f: string -> bool, p: Pattern, r: string)
    requires hi <= |lines|
  {
    exists k :: lo <= k < hi && f(lines[k]) && Find(p, lines[k]) == Some(r)
      && forall j :: k < j < hi ==> !f(lines[j])
  }

  /**
   * When every line satisfying `f` carries a match of `p` other than "-",
   * LastFound is "-" exactly when no line of the window satisfies `f`, and
   * otherwise the match on the last line that does.
   */
  lemma LastFoundIsLast(lines: seq<string>, lo: nat, hi: nat, f: string -> bool, p: Pattern)
    requires hi <= |lines|
    requires AlwaysFound(f, p)
    ensures LastFound(lines, lo, hi, f, p) == "-" <==> NoLineIn(lines, lo, hi, f)
    ensures LastFound(lines, lo, hi, f, p) != "-" ==> FoundOnLast(lines, lo, hi, f, p, LastFound(lines, lo, hi, f, p))
  {
    LastLineWhereIsLast(lines, lo, hi, f);
  }

  /** One more line: the last line up to `i` is `i` itself when it qualifies. */
  lemma LastLineStep(lines: seq<string>, lo: nat, i: nat, f: string -> bool)
    requires lo <= i < |lines|
    ensures LastLineWhere(lines, lo, i + 1, f) == if f(lines[i]) then i else LastLineWhere(lines, lo, i, f)
  {
  }

  /** One more line: its match replaces the last one found when it passes the test and carries one. */
  lemma LastFoundStep(lines: seq<string>, lo: nat, i: nat, f: string -> bool, fm: string -> bool, p: Pattern)
    requires lo <= i < |lines|
    requires forall l :: fm(l) == (f(l) && Matches(p, l))
    ensures LastFound(lines, lo, i + 1, fm, p) ==
      if f(lines[i]) && Find(p, lines[i]).Some? then Find(p, lines[i]).value else LastFound(lines, lo, i, fm, p)
  {
    LastLineStep(lines, lo, i, fm);
    FindMatches(p, lines[i]);
  }

  /** One pass over `[lo, hi)` remembering the last line satisfying each of three tests. */
  method LastOfEach(lines: seq<string>, lo: nat, hi: nat, f: string -> bool, g: string -> bool, h: string -> bool)
    returns (kf: int, kg: int, kh: int)
    requires lo <= hi <= |lines|
    ensures kf == LastLineWhere(lines, lo, hi, f)
    ensures kg == LastLineWhere(lines, lo, hi, g)
    ensures kh == LastLineWhere(lines, lo, hi, h)
  {
    kf, kg, kh := -1, -1, -1;
    var i := lo;
    while i < hi
      invariant lo <= i <= hi
      invariant kf == LastLineWhere(lines, lo, i, f)
      invariant kg == LastLineWhere(lines, lo, i, g)
      invariant kh == LastLineWhere(lines, lo, i, h)
      decreases hi - i
    {
      if f(lines[i]) {
        kf := i;
      }
      if g(lines[i]) {
        kg := i;
      }
      if h(lines[i]) {
        kh := i;
      }
      i := i + 1;
    }
  }

  /**
   * One pass over `[lo, hi)` keeping, for each of two tests, the match of
   * `p` on the last line that passes the test and carries a match (a line
   * that passes but carries no match leaves the previous one in place).
   * `fm` and `gm` are the tests combined with the match.
   */
  method LastFoundOfTwo(lines: seq<string>, lo: nat, hi: nat, f: string -> bool, fm: string -> bool, g: string -> bool, gm: string -> bool, p: Pattern)
    returns (rf: string, rg: string)
    requires lo <= hi <= |lines|
    requires forall l :: fm(l) == (f(l) && Matches(p, l))
    requires forall l :: gm(l) == (g(l) && Matches(p, l))
    ensures rf == LastFound(lines, lo, hi, fm, p)
    ensures rg == LastFound(lines, lo, hi, gm, p)
  {
    rf, rg := "-", "-";
    var i := lo;
    while i < hi
      invariant lo <= i <= hi
      invariant rf == LastFound(lines, lo, i, fm, p)
      invariant rg == LastFound(lines, lo, i, gm, p)
      decreases hi - i
    {
      LastFoundStep(lines, lo, i, f, fm, p);
      LastFoundStep(lines, lo, i, g, gm, p);
      var m := Find(p, lines[i]);
      if f(lines[i]) && m.Some? {
        rf := m.value;
      }
      if g(lines[i]) && m.Some? {
        rg := m.value;
      }
      i := i + 1;
    }
  }

  /** The first line in `[lo, hi)` satisfying `f`, or -1. */
  function FirstLineWhere(lines: seq<string>, lo: nat, hi: nat, f: string -> bool): (k: int)
    requires hi <= |lines|
    ensures k == -1 ==> forall j :: lo <= j < hi ==> !f(lines[j])
    ensures k != -1 ==> lo <= k < hi && f(lines[k])
    ensures k != -1 ==> forall j :: lo <= j < k ==> !f(lines[j])
    decreases hi - lo
  {
    if lo >= hi then -1
    else if f(lines[lo]) then lo
    else FirstLineWhere(lines, lo + 1, hi, f)
  }

  /** The names of `names` that pass `keep`, in their order. */
  function Filter(names: seq<string>, keep: string -> bool): (r: seq<string>)
    ensures |r| <= |names|
    ensures forall nm :: nm in r <==> nm in names && keep(nm)
    decreases |names|
  {
    if names == [] then [] else (if keep(names[0]) then [names[0]] else []) + Filter(names[1..], keep)
  }

  /** Filtering a list with one more name at its end keeps what it kept and adds that name if it passes. */
  lemma {:induction false} FilterSnoc(names: seq<string>, last: string, keep: string -> bool)
    ensures Filter(names + [last], keep) == Filter(names, keep) + (if keep(last) then [last] else [])
    decreases |names|
  {
    if names == [] {
      assert [] + [last] == [last];
      assert Filter([], keep) == [];
    } else {
      assert (names + [last])[0] == names[0];
      assert (names + [last])[1..] == names[1..] + [last];
      FilterSnoc(names[1..], last, keep);
    }
  }
}
