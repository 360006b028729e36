/**
 * The bounded table scan the overview extractor runs for each of its small
 * tables: starting after an anchor line, visit the lines of a fixed window
 * in order, let each line contribute its rows, and stop after the line on
 * which a row cap is reached or a "next section" keyword is seen.
 */
module Scan {

  /** A row cap, or none. */
  datatype Cap = Unlimited | AtMost(n: nat)

  predicate Full(cap: Cap, count: nat) {
    cap.AtMost? && count >= cap.n
  }

  /**
   * The rows collected by visiting lines `i .. hi-1` after `acc` was
   * collected: line `j` adds `rowsAt(j)`, and the scan ends after a line on
   * which the cap is reached or `stopAt` holds.
   */
  function Rows<R>(rowsAt: nat -> seq<R>, stopAt: nat -> bool, cap: Cap, i: nat, hi: nat, acc: seq<R>): seq<R>
    decreases hi - i
  {
    if i >= hi then acc
    else
      var next := acc + rowsAt(i);
      if Full(cap, |next|) || stopAt(i) then next
      else Rows(rowsAt, stopAt, cap, i + 1, hi, next)
  }

  /** The scan loop: `for (i = lo; i < hi; i++) { push rows; if (capped) break; if (stop) break; }`. */
  method ScanTable<R>(rowsAt: nat -> seq<R>, stopAt: nat -> bool, cap: Cap, lo: nat, hi: nat) returns (rows: seq<R>)
    ensures rows == Rows(rowsAt, stopAt, cap, lo, hi, [])
  {
    rows := [];
    var i := lo;
    while i < hi
      invariant Rows(rowsAt, stopAt, cap, i, hi, rows) == Rows(rowsAt, stopAt, cap, lo, hi, [])
      decreases hi - i
    {
      rows := rows + rowsAt(i);
      if Full(cap, |rows|) {
        break;
      }
      if stopAt(i) {
        break;
      }
      i := i + 1;
    }
  }

  /** With at most one row per line, a capped scan never exceeds its cap. */
  lemma {:induction false} RowsCapped<R>(rowsAt: nat -> seq<R>, stopAt: nat -> bool, n: nat, i: nat, hi: nat, acc: seq<R>)
    requires forall j :: |rowsAt(j)| <= 1
    requires |acc| < n
    ensures |Rows(rowsAt, stopAt, AtMost(n), i, hi, acc)| <= n
    decreases hi - i
  {
    if i < hi {
      var next := acc + rowsAt(i);
      if !(Full(AtMost(n), |next|) || stopAt(i)) {
        RowsCapped(rowsAt, stopAt, n, i + 1, hi, next);
      }
    }
  }

  /**
   * Every row a scan collects satisfies `ok` when the rows collected before
   * do and every row of a line `j` of the window that no stop line precedes
   * does.
   */
  lemma {:induction false} RowsWithin<R>(rowsAt: nat -> seq<R>, stopAt: nat -> bool, cap: Cap, i: nat, hi: nat, acc: seq<R>, ok: R -> bool)
    requires forall x :: x in acc ==> ok(x)
    requires forall j: nat, x :: Before(stopAt, i, j, hi) && x in rowsAt(j) ==> ok(x)
    ensures forall x :: x in Rows(rowsAt, stopAt, cap, i, hi, acc) ==> ok(x)
    decreases hi - i
  {
    if i < hi {
      var next := acc + rowsAt(i);
      assert Before(stopAt, i, i, hi);
      if !(Full(cap, |next|) || stopAt(i)) {
        forall j: nat, x | Before(stopAt, i + 1, j, hi) && x in rowsAt(j) ensures ok(x) {
          assert Before(stopAt, i, j, hi);
        }
        RowsWithin(rowsAt, stopAt, cap, i + 1, hi, next, ok);
      }
    }
  }

  /**
   * Every row of a scan started with nothing collected comes from a line
   * `j` of the window that no stop line precedes, and is related to it as
   * `from` says whenever every row of every line of the window is.
   */
  lemma RowsFromLines<R>(rowsAt: nat -> seq<R>, stopAt: nat -> bool, cap: Cap, lo: nat, hi: nat, from: (nat, R) -> bool)
    requires forall j: nat, x :: lo <= j < hi && x in rowsAt(j) ==> from(j, x)
    ensures forall x :: x in Rows(rowsAt, stopAt, cap, lo, hi, []) ==> exists j: nat :: Before(stopAt, lo, j, hi) && from(j, x)
  {
    var ok := x => exists j: nat :: Before(stopAt, lo, j, hi) && from(j, x);
    forall j: nat, x | Before(stopAt, lo, j, hi) && x in rowsAt(j) ensures ok(x) {
      assert from(j, x);
    }
    RowsWithin(rowsAt, stopAt, cap, lo, hi, [], ok);
  }

  /** Line `j` lies in `[i, hi)` and no line of `[i, j)` is a stop line. */
  predicate Before(stopAt: nat -> bool, i: nat, j: nat, hi: nat) {
    i <= j < hi && forall m :: i <= m < j ==> !stopAt(m)
  }

  /** With at most `m` rows per line, a scan adds at most `m` rows per line of its window. */
  lemma {:induction false} RowsBound<R>(rowsAt: nat -> seq<R>, stopAt: nat -> bool, cap: Cap, m: nat, i: nat, hi: nat, acc: seq<R>)
    requires forall j :: |rowsAt(j)| <= m
    requires i <= hi
    ensures |Rows(rowsAt, stopAt, cap, i, hi, acc)| <= |acc| + m * (hi - i)
    decreases hi - i
  {
    if i < hi {
      var next := acc + rowsAt(i);
      if !(Full(cap, |next|) || stopAt(i)) {
        RowsBound(rowsAt, stopAt, cap, m, i + 1, hi, next);
      }
      MulStep(m, hi - (i + 1));
    }
  }

  lemma MulStep(m: nat, n: nat)
    ensures m * (n + 1) == m * n + m
  {
  }

  /**
   * One past the line that ends a section scanned from `i`: the first line
   * of `[i, hi)` the stop test holds for, plus one, or `hi` when none does.
   */
  function SectionEnd(stopAt: nat -> bool, i: nat, hi: nat): (e: nat)
    ensures i < hi ==> i < e <= hi
    ensures i >= hi ==> e == i
    ensures forall m :: i <= m < e - 1 ==> !stopAt(m)
    ensures e >= hi || stopAt(e - 1)
    decreases hi - i
  {
    if i >= hi then i else if stopAt(i) then i + 1 else SectionEnd(stopAt, i + 1, hi)
  }

  /** The lines before the section end are exactly those with no stop line before them. */
  lemma {:induction false} SectionEndBefore(stopAt: nat -> bool, i: nat, j: nat, hi: nat)
    requires i <= j
    ensures j < SectionEnd(stopAt, i, hi) <==> Before(stopAt, i, j, hi)
  {
    var e := SectionEnd(stopAt, i, hi);
    if e <= j < hi {
      assert stopAt(e - 1) && i <= e - 1 < j;
    }
  }

  /** The rows of lines `[i, hi)` laid end to end. */
  function AllRows<R>(rowsAt: nat -> seq<R>, i: nat, hi: nat): seq<R>
    decreases hi - i
  {
    if i >= hi then [] else rowsAt(i) + AllRows(rowsAt, i + 1, hi)
  }

  /** A row is among the rows of `[i, hi)` exactly when some line of `[i, hi)` gives it. */
  lemma {:induction false} AllRowsFrom<R>(rowsAt: nat -> seq<R>, i: nat, hi: nat, x: R)
    ensures x in AllRows(rowsAt, i, hi) <==> exists j: nat :: i <= j < hi && x in rowsAt(j)
    decreases hi - i
  {
    if i < hi {
      AllRowsFrom(rowsAt, i + 1, hi, x);
      assert AllRows(rowsAt, i, hi) == rowsAt(i) + AllRows(rowsAt, i + 1, hi);
      if x in AllRows(rowsAt, i, hi) && x !in rowsAt(i) {
        var j: nat :| i + 1 <= j < hi && x in rowsAt(j);
        assert i <= j < hi;
      }
      if j: nat :| i <= j < hi && x in rowsAt(j) {
        if j > i {
          assert i + 1 <= j < hi;
        }
      }
    }
  }

  /**
   * With no cap, a scan reads every row of every line up to the end of its
   * section, in line order.
   */
  lemma {:induction false} RowsUncapped<R>(rowsAt: nat -> seq<R>, stopAt: nat -> bool, i: nat, hi: nat, acc: seq<R>)
    ensures Rows(rowsAt, stopAt, Unlimited, i, hi, acc) == acc + AllRows(rowsAt, i, SectionEnd(stopAt, i, hi))
    decreases hi - i
  {
    var e := SectionEnd(stopAt, i, hi);
    if i < hi {
      var next := acc + rowsAt(i);
      assert AllRows(rowsAt, i, e) == rowsAt(i) + AllRows(rowsAt, i + 1, e);
      if stopAt(i) {
        assert AllRows(rowsAt, i + 1, e) == [];
      } else {
        RowsUncapped(rowsAt, stopAt, i + 1, hi, next);
      }
    } else {
      assert acc + [] == acc;
    }
  }

  /**
   * With a cap of `n` and at most one row per line, a scan reads the first
   * `n` rows of the lines up to the end of its section, in line order (all of
   * them when there are no more than `n`).
   */
  lemma {:induction false} RowsCappedPrefix<R>(rowsAt: nat -> seq<R>, stopAt: nat -> bool, n: nat, i: nat, hi: nat, acc: seq<R>)
    requires forall j :: |rowsAt(j)| <= 1
    requires |acc| < n
    ensures var all := acc + AllRows(rowsAt, i, SectionEnd(stopAt, i, hi));
      Rows(rowsAt, stopAt, AtMost(n), i, hi, acc) == if |all| <= n then all else all[..n]
    decreases hi - i
  {
    var e := SectionEnd(stopAt, i, hi);
    if i < hi {
      var next := acc + rowsAt(i);
      assert |rowsAt(i)| <= 1;
      assert AllRows(rowsAt, i, e) == rowsAt(i) + AllRows(rowsAt, i + 1, e);
      assert acc + AllRows(rowsAt, i, e) == next + AllRows(rowsAt, i + 1, e);
      if stopAt(i) {
        assert AllRows(rowsAt, i + 1, e) == [];
        assert next + [] == next;
      } else if Full(AtMost(n), |next|) {
        assert |next| == n;
        assert (next + AllRows(rowsAt, i + 1, e))[..n] == next;
      } else {
        RowsCappedPrefix(rowsAt, stopAt, n, i + 1, hi, next);
      }
    } else {
      assert acc + [] == acc;
    }
  }

  /** RowsCappedPrefix for a scan that starts with no rows collected. */
  lemma FirstRows<R>(rowsAt: nat -> seq<R>, stopAt: nat -> bool, n: nat, i: nat, hi: nat)
    requires n >= 1 && forall j :: |rowsAt(j)| <= 1
    ensures var all := AllRows(rowsAt, i, SectionEnd(stopAt, i, hi));
      Rows(rowsAt, stopAt, AtMost(n), i, hi, []) == if |all| <= n then all else all[..n]
  {
    RowsCappedPrefix(rowsAt, stopAt, n, i, hi, []);
    assert [] + AllRows(rowsAt, i, SectionEnd(stopAt, i, hi)) == AllRows(rowsAt, i, SectionEnd(stopAt, i, hi));
  }
}
