/**
 * Character classes and the string operations both extractors start from:
 * splitting the captured page text into lines, trimming them and dropping
 * the empty ones, substring search, and whitespace removal.
 */
module Text {

  /** JavaScript's line terminators (LF, CR, LS, PS): the characters `.` does not match. */
  predicate IsLineTerminator(c: char) {
    c == '\n' || c == '\r' || c == '\U{2028}' || c == '\U{2029}'
  }

  /**
   * JavaScript's white space together with its line terminators: the set that
   * `String.prototype.trim` strips and that `\s` matches.
   */
  predicate IsSpace(c: char) {
    || c == '\t' || c == '\U{B}' || c == '\U{C}' || c == ' ' || c == '\U{A0}'
    || c == '\U{1680}' || ('\U{2000}' <= c <= '\U{200A}') || c == '\U{202F}'
    || c == '\U{205F}' || c == '\U{3000}' || c == '\U{FEFF}'
    || IsLineTerminator(c)
  }

  /** `\d` */
  predicate IsDigit(c: char) { '0' <= c <= '9' }

  /** `\w`: ASCII letters, digits and underscore. */
  predicate IsWordChar(c: char) {
    ('a' <= c <= 'z') || ('A' <= c <= 'Z') || IsDigit(c) || c == '_'
  }

  predicate AllSpace(s: string) {
    forall i :: 0 <= i < |s| ==> IsSpace(s[i])
  }

  /** A trimmed string is empty or starts and ends with a non-space character. */
  predicate IsTrimmed(s: string) {
    s == [] || (!IsSpace(s[0]) && !IsSpace(s[|s| - 1]))
  }

  /** Number of leading white-space characters of `s`. */
  function LeadingSpaces(s: string): (n: nat)
    ensures n <= |s|
    ensures AllSpace(s[..(n)])
    ensures n == |s| || !IsSpace(s[n])
  {
    if s != [] && IsSpace(s[0]) then 1 + LeadingSpaces(s[1..]) else 0
  }

  /** Number of trailing white-space characters of `s`. */
  function TrailingSpaces(s: string): (n: nat)
    ensures n <= |s|
    ensures AllSpace(s[|s| - n..])
    ensures n == |s| || !IsSpace(s[|s| - 1 - n])
  {
    if s != [] && IsSpace(s[|s| - 1]) then 1 + TrailingSpaces(s[..|s| - 1]) else 0
  }

  /**
   * `String.prototype.trim`: the infix of `s` left after removing every
   * leading and trailing white-space character.
   */
  function Trim(s: string): (r: string)
    ensures IsTrimmed(r) && |r| <= |s|
    ensures LeadingSpaces(s) + |r| <= |s|
    ensures r == s[LeadingSpaces(s)..LeadingSpaces(s) + |r|]
    ensures AllSpace(s[LeadingSpaces(s) + |r|..])
  {
    var a := LeadingSpaces(s);
    if a == |s| then [] else
      var rest := s[a..];
      var b := TrailingSpaces(rest);
      TrimParts(s, a, rest, b);
      rest[..|rest| - b]
  }

  /**
   * The piece Trim keeps of a string whose first non-space character is at
   * `a`, when the part after `a` ends in `b` white-space characters.
   */
  lemma TrimParts(s: string, a: nat, rest: string, b: nat)
    requires a < |s| && !IsSpace(s[a]) && rest == s[a..]
    requires b <= |rest| && AllSpace(rest[|rest| - b..]) && (b == |rest| || !IsSpace(rest[|rest| - 1 - b]))
    ensures b < |rest|
    ensures IsTrimmed(rest[..|rest| - b])
    ensures rest[..|rest| - b] == s[a..a + (|rest| - b)]
    ensures AllSpace(s[a + (|rest| - b)..])
  {
    assert rest[0] == s[a];
    var m := |rest| - b;
    var r := rest[..m];
    assert r[0] == rest[0] && r[|r| - 1] == rest[|rest| - 1 - b];
    assert s[a + m..] == rest[m..];
  }

  /** Trimming leaves nothing exactly when the string is all white space. */
  lemma TrimEmpty(s: string)
    ensures Trim(s) == [] <==> AllSpace(s)
  {
    var n := LeadingSpaces(s);
    if Trim(s) == [] {
      forall i | 0 <= i < |s| ensures IsSpace(s[i]) {
        assert s[..n][i] == s[i];
      }
    }
  }

  /** Trimming only removes characters. */
  lemma TrimChars(s: string)
    ensures forall c :: c in Trim(s) ==> c in s
  {
    var a := LeadingSpaces(s);
    var rest := s[a..];
    assert forall c :: c in rest ==> c in s;
  }

  /** `s.split(sep)`: the pieces between occurrences of `sep`, in order; never empty. */
  function Split(s: string, sep: char): (pieces: seq<string>)
    ensures |pieces| >= 1
    ensures forall k :: 0 <= k < |pieces| ==> sep !in pieces[k]
    decreases |s|
  {
    var k := IndexOfChar(s, sep, 0);
    if k < 0 then [s] else [s[..k]] + Split(s[k + 1..], sep)
  }

  /** `pieces.join(sep)`, the inverse of Split. */
  function Join(pieces: seq<string>, sep: char): string
    decreases |pieces|
  {
    if |pieces| == 0 then ""
    else if |pieces| == 1 then pieces[0]
    else pieces[0] + [sep] + Join(pieces[1..], sep)
  }

  /** First index `>= from` holding `c`, or -1. */
  function IndexOfChar(s: string, c: char, from: nat): (k: int)
    ensures k == -1 ==> forall j :: from <= j < |s| ==> s[j] != c
    ensures k != -1 ==> from <= k < |s| && s[k] == c && forall j :: from <= j < k ==> s[j] != c
    decreases |s| - from
  {
    if from >= |s| then -1 else if s[from] == c then from else IndexOfChar(s, c, from + 1)
  }

  /** Last index in `[lo, hi)` holding `c`, or -1. */
  function LastIndexOfChar(s: string, c: char, lo: nat, hi: nat): (k: int)
    requires hi <= |s|
    ensures k == -1 ==> forall j :: lo <= j < hi ==> s[j] != c
    ensures k != -1 ==> lo <= k < hi && s[k] == c && forall j :: k < j < hi ==> s[j] != c
    decreases hi
  {
    if hi <= lo then -1 else if s[hi - 1] == c then hi - 1 else LastIndexOfChar(s, c, lo, hi - 1)
  }

  /** Splitting and joining again gives back the text. */
  lemma {:induction false} JoinSplit(s: string, sep: char)
    ensures Join(Split(s, sep), sep) == s
    decreases |s|
  {
    var k := IndexOfChar(s, sep, 0);
    if k >= 0 {
      JoinSplit(s[k + 1..], sep);
      assert s == s[..k] + [sep] + s[k + 1..];
    }
  }

  /** Joining pieces free of `sep` and splitting again gives back the pieces. */
  lemma {:induction false} SplitJoin(pieces: seq<string>, sep: char)
    requires |pieces| >= 1
    requires forall k :: 0 <= k < |pieces| ==> sep !in pieces[k]
    ensures Split(Join(pieces, sep), sep) == pieces
    decreases |pieces|
  {
    var p := pieces[0];
    if |pieces| == 1 {
      assert IndexOfChar(p, sep, 0) == -1;
    } else {
      var s := p + [sep] + Join(pieces[1..], sep);
      assert s[|p|] == sep;
      assert forall j :: 0 <= j < |p| ==> s[j] == p[j];
      assert IndexOfChar(s, sep, 0) == |p|;
      assert s[..|p|] == p;
      assert s[|p| + 1..] == Join(pieces[1..], sep);
      SplitJoin(pieces[1..], sep);
    }
  }

  /** The non-empty results of `f` on `pieces`, in order. */
  function Kept(f: string -> string, pieces: seq<string>): (kept: seq<string>)
    ensures |kept| <= |pieces|
    decreases |pieces|
  {
    if pieces == [] then []
    else (if f(pieces[0]) == [] then [] else [f(pieces[0])]) + Kept(f, pieces[1..])
  }

  /** Keeping works piece by piece. */
  lemma {:induction false} KeptAppend(f: string -> string, a: seq<string>, b: seq<string>)
    ensures Kept(f, a + b) == Kept(f, a) + Kept(f, b)
    decreases |a|
  {
    if a != [] {
      assert (a + b)[0] == a[0] && (a + b)[1..] == a[1..] + b;
      KeptAppend(f, a[1..], b);
    } else {
      assert a + b == b;
    }
  }

  /** What is kept is non-empty and lies in the range of `f`. */
  lemma {:induction false} KeptFrom(f: string -> string, pieces: seq<string>)
    ensures forall k :: 0 <= k < |Kept(f, pieces)| ==>
      Kept(f, pieces)[k] != [] && exists j :: 0 <= j < |pieces| && Kept(f, pieces)[k] == f(pieces[j])
    decreases |pieces|
  {
    if pieces != [] {
      KeptFrom(f, pieces[1..]);
      var rest := Kept(f, pieces[1..]);
      var head := if f(pieces[0]) == [] then [] else [f(pieces[0])];
      assert Kept(f, pieces) == head + rest;
      forall k | 0 <= k < |head + rest|
        ensures (head + rest)[k] != [] && exists j :: 0 <= j < |pieces| && (head + rest)[k] == f(pieces[j])
      {
        if k < |head| {
          assert (head + rest)[k] == f(pieces[0]);
        } else {
          assert (head + rest)[k] == rest[k - |head|];
          var j :| 0 <= j < |pieces[1..]| && rest[k - |head|] == f(pieces[1..][j]);
          assert pieces[1..][j] == pieces[j + 1];
        }
      }
    }
  }

  /** The trimmed, non-empty lines of `pieces`, in order. */
  function CleanLines(pieces: seq<string>): (lines: seq<string>)
    ensures |lines| <= |pieces|
    ensures forall k :: 0 <= k < |lines| ==> lines[k] != [] && IsTrimmed(lines[k])
  {
    KeptFrom(Trim, pieces);
    Kept(Trim, pieces)
  }

  /**
   * `text.split("\n").map(l => l.trim()).filter(l => l.length > 0)`: the line
   * sequence both extractors work on.
   */
  function NormalizeLines(text: string): (lines: seq<string>)
    ensures forall k :: 0 <= k < |lines| ==> lines[k] != [] && IsTrimmed(lines[k])
    ensures forall k :: 0 <= k < |lines| ==> '\n' !in lines[k]
  {
    var pieces := Split(text, '\n');
    CleanPiecesFree(pieces);
    CleanLines(pieces)
  }

  lemma CleanPiecesFree(pieces: seq<string>)
    requires forall k :: 0 <= k < |pieces| ==> '\n' !in pieces[k]
    ensures forall k :: 0 <= k < |CleanLines(pieces)| ==> '\n' !in CleanLines(pieces)[k]
  {
    KeptFrom(Trim, pieces);
    forall k | 0 <= k < |CleanLines(pieces)| ensures '\n' !in CleanLines(pieces)[k] {
      var j :| 0 <= j < |pieces| && CleanLines(pieces)[k] == Trim(pieces[j]);
      TrimChars(pieces[j]);
    }
  }

  lemma {:induction false} SplitAppend(a: string, b: string, sep: char)
    ensures Split(a + [sep] + b, sep) == Split(a, sep) + Split(b, sep)
    decreases |a|
  {
    var s := a + [sep] + b;
    var k := IndexOfChar(a, sep, 0);
    FirstSeparator(a, b, sep);
    if k < 0 {
      assert s[..|a|] == a && s[|a| + 1..] == b;
    } else {
      assert s[..k] == a[..k];
      assert s[k + 1..] == a[k + 1..] + [sep] + b;
      SplitAppend(a[k + 1..], b, sep);
    }
  }

  /** The first `sep` of `a + [sep] + b` is the first of `a`, or the one joining them. */
  lemma FirstSeparator(a: string, b: string, sep: char)
    ensures IndexOfChar(a + [sep] + b, sep, 0) == if IndexOfChar(a, sep, 0) < 0 then |a| else IndexOfChar(a, sep, 0)
  {
    var s := a + [sep] + b;
    assert forall j :: 0 <= j < |a| ==> s[j] == a[j];
    assert s[|a|] == sep;
  }

  /**
   * Input order is kept: the lines of two blocks of text joined by a line feed
   * are the lines of the first block followed by those of the second.
   */
  lemma NormalizeLinesAppend(a: string, b: string)
    ensures NormalizeLines(a + "\n" + b) == NormalizeLines(a) + NormalizeLines(b)
  {
    SplitAppend(a, b, '\n');
    KeptAppend(Trim, Split(a, '\n'), Split(b, '\n'));
  }

  /**
   * An already normalised dump is a fixed point: joining trimmed, non-empty
   * lines free of line feeds and normalising again gives back the same lines.
   */
  lemma NormalizeLinesJoin(lines: seq<string>)
    requires |lines| >= 1
    requires forall k :: 0 <= k < |lines| ==> lines[k] != [] && IsTrimmed(lines[k]) && '\n' !in lines[k]
    ensures NormalizeLines(Join(lines, '\n')) == lines
  {
    SplitJoin(lines, '\n');
    CleanTrimmed(lines);
  }

  lemma {:induction false} CleanTrimmed(lines: seq<string>)
    requires forall k :: 0 <= k < |lines| ==> lines[k] != [] && IsTrimmed(lines[k])
    ensures CleanLines(lines) == lines
    decreases |lines|
  {
    if lines != [] {
      var t := lines[0];
      assert LeadingSpaces(t) == 0;
      assert Trim(t) == t;
      CleanTrimmed(lines[1..]);
    }
  }

  /** `t` occurs in `s` starting at index `i`. */
  predicate OccursAt(s: string, t: string, i: nat) {
    i + |t| <= |s| && s[i..i + |t|] == t
  }

  /** `s.indexOf(t, from)`: the first occurrence of `t` at or after `from`, or -1. */
  function IndexOf(s: string, t: string, from: nat): (k: int)
    ensures k == -1 ==> forall j :: from <= j ==> !OccursAt(s, t, j)
    ensures k != -1 ==> from <= k && OccursAt(s, t, k) && forall j :: from <= j < k ==> !OccursAt(s, t, j)
    decreases |s| + 1 - from
  {
    if from + |t| > |s| then -1
    else if s[from..from + |t|] == t then from
    else IndexOf(s, t, from + 1)
  }

  /** `s.includes(t)` */
  predicate Contains(s: string, t: string) {
    IndexOf(s, t, 0) >= 0
  }

  /** `s.replace(/\s+/g, "")`: every white-space character removed, the others kept in order. */
  function RemoveSpaces(s: string): (r: string)
    ensures forall k :: 0 <= k < |r| ==> !IsSpace(r[k])
    ensures (forall k :: 0 <= k < |s| ==> !IsSpace(s[k])) ==> r == s
    ensures |r| <= |s|
    decreases |s|
  {
    if s == [] then []
    else (if IsSpace(s[0]) then [] else [s[0]]) + RemoveSpaces(s[1..])
  }

  /** Removing white space works piece by piece. */
  lemma {:induction false} RemoveSpacesAppend(a: string, b: string)
    ensures RemoveSpaces(a + b) == RemoveSpaces(a) + RemoveSpaces(b)
    decreases |a|
  {
    if a != [] {
      var head := if IsSpace(a[0]) then [] else [a[0]];
      assert (a + b)[0] == a[0] && (a + b)[1..] == a[1..] + b;
      assert RemoveSpaces(a + b) == head + RemoveSpaces(a[1..] + b);
      assert RemoveSpaces(a) == head + RemoveSpaces(a[1..]);
      RemoveSpacesAppend(a[1..], b);
    } else {
      assert a + b == b;
    }
  }

  /** Nothing is left of white space. */
  lemma {:induction false} RemoveSpacesAllSpace(s: string)
    requires AllSpace(s)
    ensures RemoveSpaces(s) == []
    decreases |s|
  {
    if s != [] {
      RemoveSpacesAllSpace(s[1..]);
    }
  }

  /** `s.startsWith(t)` */
  predicate StartsWith(s: string, t: string) {
    |t| <= |s| && s[..|t|] == t
  }
}
