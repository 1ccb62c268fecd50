/**
 * The JavaScript string built-ins the front end relies on, written out on
 * sequences of characters: `String.prototype.split` with a non-empty string
 * separator, `String.prototype.trim`, and the decimal rendering of a
 * non-negative integer inside a template literal.
 */
module JsText {

  /** WhiteSpace and LineTerminator code points as ECMAScript defines them; `trim` removes exactly these. */
  const WhitespaceChars: set<char> := {
    '\t', '\n', '\U{B}', '\U{C}', '\r', ' ', '\U{A0}', '\U{1680}',
    '\U{2000}', '\U{2001}', '\U{2002}', '\U{2003}', '\U{2004}', '\U{2005}',
    '\U{2006}', '\U{2007}', '\U{2008}', '\U{2009}', '\U{200A}',
    '\U{2028}', '\U{2029}', '\U{202F}', '\U{205F}', '\U{3000}', '\U{FEFF}'
  }

  predicate IsWhitespace(c: char) {
    c in WhitespaceChars
  }

  // ---------------------------------------------------------------------------
  // Occurrences of a separator
  // ---------------------------------------------------------------------------

  /** `sep` occurs in `s` starting at index `i`. */
  predicate SepAt(s: string, sep: string, i: int) {
    0 <= i && i + |sep| <= |s| && s[i..i + |sep|] == sep
  }

  /** `s` contains no occurrence of `sep`. */
  predicate Free(s: string, sep: string) {
    forall i :: 0 <= i < |s| ==> !SepAt(s, sep, i)
  }

  /**
   * A piece that the scan closes when it meets `sep`: no occurrence of `sep`
   * in `p + sep` starts inside `p`, so the first one is the separator itself.
   */
  predicate Boundary(p: string, sep: string) {
    forall i :: 0 <= i < |p| ==> !SepAt(p + sep, sep, i)
  }

  /** The shape of every result of `Split`: closed pieces, then a last piece free of `sep`. */
  predicate WellSplit(ps: seq<string>, sep: string) {
    |ps| >= 1 &&
    (forall k :: 0 <= k < |ps| - 1 ==> Boundary(ps[k], sep)) &&
    Free(ps[|ps| - 1], sep)
  }

  /** Occurrences of `sep` in `s` counted left to right without overlap, as the scan of `Split` finds them. */
  function CountSep(s: string, sep: string): nat
    requires sep != []
    decreases |s|
  {
    if SepAt(s, sep, 0) then 1 + CountSep(s[|sep|..], sep)
    else if s == [] then 0
    else CountSep(s[1..], sep)
  }

  // ---------------------------------------------------------------------------
  // split and its inverse, join
  // ---------------------------------------------------------------------------

  /**
   * The left-to-right scan of `split`: `cur` is the piece collected so far.
   * A match closes the piece and skips the separator; the end of input closes the last piece.
   */
  function SplitFrom(s: string, sep: string, cur: string): (parts: seq<string>)
    requires sep != []
    ensures |parts| >= 1
    decreases |s|
  {
    if SepAt(s, sep, 0) then [cur] + SplitFrom(s[|sep|..], sep, [])
    else if s == [] then [cur]
    else SplitFrom(s[1..], sep, cur + [s[0]])
  }

  /** `s.split(sep)` for a non-empty string separator. */
  function Split(s: string, sep: string): (parts: seq<string>)
    requires sep != []
    ensures WellSplit(parts, sep)
    ensures Join(parts, sep) == s
    ensures |parts| == CountSep(s, sep) + 1
  {
    SplitFromSpec(s, sep, []);
    SplitFromCount(s, sep, []);
    SplitFrom(s, sep, [])
  }

  /** `ps.join(sep)`. */
  function Join(ps: seq<string>, sep: string): string
    requires |ps| >= 1
  {
    if |ps| == 1 then ps[0] else ps[0] + sep + Join(ps[1..], sep)
  }

  lemma SliceOfPrefix(t: string, u: string, i: int, n: int)
    requires |u| <= |t| && u == t[..|u|] && 0 <= i <= i + n <= |u|
    ensures t[i..i + n] == u[i..i + n]
  {
    var x, y := t[i..i + n], u[i..i + n];
    forall k | 0 <= k < n ensures x[k] == y[k] {
      assert x[k] == t[i + k] == t[..|u|][i + k];
    }
  }

  /** Whether `sep` occurs at `i` only depends on a prefix that covers the occurrence. */
  lemma SepAtPrefix(t: string, u: string, sep: string, i: int)
    requires |u| <= |t| && u == t[..|u|] && i + |sep| <= |u|
    ensures SepAt(t, sep, i) <==> SepAt(u, sep, i)
  {
    if 0 <= i {
      SliceOfPrefix(t, u, i, |sep|);
    }
  }

  /** Occurrences in `u + t` past `u` are occurrences in `t`. */
  lemma SepAtShift(u: string, t: string, sep: string, j: int)
    requires 0 <= j
    ensures SepAt(u + t, sep, |u| + j) <==> SepAt(t, sep, j)
  {
    if j + |sep| <= |t| {
      assert (u + t)[|u| + j..|u| + j + |sep|] == t[j..j + |sep|];
    }
  }

  lemma BoundaryIsFree(p: string, sep: string)
    requires sep != [] && Boundary(p, sep)
    ensures Free(p, sep)
  {
    forall i | 0 <= i < |p| ensures !SepAt(p, sep, i) {
      if i + |sep| <= |p| {
        SepAtPrefix(p + sep, p, sep, i);
      }
    }
  }

  /**
   * The scan yields pieces that join back to what was scanned and that have the shape `WellSplit`,
   * provided no occurrence starts inside the piece collected so far.
   */
  lemma {:induction false} SplitFromSpec(s: string, sep: string, cur: string)
    requires sep != []
    requires forall i :: 0 <= i < |cur| ==> !SepAt(cur + s, sep, i)
    ensures Join(SplitFrom(s, sep, cur), sep) == cur + s
    ensures WellSplit(SplitFrom(s, sep, cur), sep)
    decreases |s|
  {
    var parts := SplitFrom(s, sep, cur);
    if SepAt(s, sep, 0) {
      var rest := s[|sep|..];
      SplitFromSpec(rest, sep, []);
      var tail := SplitFrom(rest, sep, []);
      assert parts == [cur] + tail;
      assert parts[1..] == tail;
      assert s == sep + rest;
      assert Join(parts, sep) == cur + sep + Join(tail, sep);
      forall i | 0 <= i < |cur| ensures !SepAt(cur + sep, sep, i) {
        assert cur + sep == (cur + s)[..|cur| + |sep|];
        SepAtPrefix(cur + s, cur + sep, sep, i);
      }
      assert Boundary(parts[0], sep);
      forall k | 0 <= k < |parts| - 1 ensures Boundary(parts[k], sep) {
        if k > 0 { assert parts[k] == tail[k - 1]; }
      }
    } else if s == [] {
      assert cur + s == cur;
      forall i | 0 <= i < |cur| ensures !SepAt(cur, sep, i) {
        assert !SepAt(cur + s, sep, i);
      }
    } else {
      var cur' := cur + [s[0]];
      assert cur' + s[1..] == cur + s;
      forall i | 0 <= i < |cur'| ensures !SepAt(cur' + s[1..], sep, i) {
        if i == |cur| {
          SepAtShift(cur, s, sep, 0);
        }
      }
      SplitFromSpec(s[1..], sep, cur');
    }
  }

  lemma {:induction false} SplitFromCount(s: string, sep: string, cur: string)
    requires sep != []
    ensures |SplitFrom(s, sep, cur)| == CountSep(s, sep) + 1
    decreases |s|
  {
    if SepAt(s, sep, 0) {
      SplitFromCount(s[|sep|..], sep, []);
    } else if s != [] {
      SplitFromCount(s[1..], sep, cur + [s[0]]);
    }
  }

  /** Scanning over a stretch `p` in which no occurrence starts only extends the current piece. */
  lemma {:induction false} ScanPiece(p: string, tail: string, sep: string, cur: string)
    requires sep != []
    requires forall i :: 0 <= i < |p| ==> !SepAt(p + tail, sep, i)
    ensures SplitFrom(p + tail, sep, cur) == SplitFrom(tail, sep, cur + p)
    decreases |p|
  {
    if p != [] {
      assert (p + tail)[1..] == p[1..] + tail;
      assert cur + [p[0]] + p[1..] == cur + p;
      forall i | 0 <= i < |p[1..]| ensures !SepAt(p[1..] + tail, sep, i) {
        SepAtShift([p[0]], p[1..] + tail, sep, i);
        assert [p[0]] + (p[1..] + tail) == p + tail;
      }
      ScanPiece(p[1..], tail, sep, cur + [p[0]]);
    } else {
      assert p + tail == tail;
      assert cur + p == cur;
    }
  }

  /** `Join` and `Split` are inverse on well-split lists: split recovers exactly the pieces. */
  lemma {:induction false} SplitJoin(ps: seq<string>, sep: string)
    requires sep != [] && WellSplit(ps, sep)
    ensures Split(Join(ps, sep), sep) == ps
  {
    SplitFromJoin(ps, sep, []);
    assert [] + ps[0] == ps[0];
    assert [ps[0]] + ps[1..] == ps;
  }

  lemma {:induction false} SplitFromJoin(ps: seq<string>, sep: string, cur: string)
    requires sep != [] && WellSplit(ps, sep)
    ensures SplitFrom(Join(ps, sep), sep, cur) == [cur + ps[0]] + ps[1..]
    decreases |ps|
  {
    var p := ps[0];
    if |ps| == 1 {
      forall i | 0 <= i < |p| ensures !SepAt(p + [], sep, i) {
        assert p + [] == p;
      }
      ScanPiece(p, [], sep, cur);
      assert p + [] == p;
      assert !SepAt([], sep, 0);
    } else {
      var rest := ps[1..];
      assert WellSplit(rest, sep) by {
        forall k | 0 <= k < |rest| - 1 ensures Boundary(rest[k], sep) {
          assert rest[k] == ps[k + 1];
        }
        assert rest[|rest| - 1] == ps[|ps| - 1];
      }
      var tail := sep + Join(rest, sep);
      assert Join(ps, sep) == p + tail;
      assert Boundary(p, sep);
      forall i | 0 <= i < |p| ensures !SepAt(p + tail, sep, i) {
        assert p + sep == (p + tail)[..|p| + |sep|];
        SepAtPrefix(p + tail, p + sep, sep, i);
      }
      ScanPiece(p, tail, sep, cur);
      assert SepAt(tail, sep, 0) by { assert tail[..|sep|] == sep; }
      assert tail[|sep|..] == Join(rest, sep);
      SplitFromJoin(rest, sep, []);
      assert [] + rest[0] == rest[0];
      assert [rest[0]] + rest[1..] == rest;
    }
  }

  /** Any stretch of a text free of `sep` is free of `sep`. */
  lemma FreeSlice(s: string, sep: string, a: int, b: int)
    requires 0 <= a <= b <= |s| && Free(s, sep)
    ensures Free(s[a..b], sep)
  {
    forall i | 0 <= i < b - a ensures !SepAt(s[a..b], sep, i) {
      assert !SepAt(s, sep, a + i);
      if i + |sep| <= b - a {
        var x, y := s[a..b][i..i + |sep|], s[a + i..a + i + |sep|];
        forall k | 0 <= k < |sep| ensures x[k] == y[k] {
          assert x[k] == s[a..b][i + k] == s[a + i + k];
        }
        assert x == y;
      }
    }
  }

  // ---------------------------------------------------------------------------
  // trim
  // ---------------------------------------------------------------------------

  /** Neither end of `s` is whitespace. */
  predicate IsTrimmed(s: string) {
    s == [] || (!IsWhitespace(s[0]) && !IsWhitespace(s[|s| - 1]))
  }

  /** Number of whitespace characters at the start of `s`: where `Trim(s)` starts inside `s`. */
  function LeadingWhitespace(s: string): (n: nat)
    ensures n <= |s|
    ensures forall i :: 0 <= i < n ==> IsWhitespace(s[i])
    ensures n < |s| ==> !IsWhitespace(s[n])
  {
    if s != [] && IsWhitespace(s[0]) then
      var n := LeadingWhitespace(s[1..]);
      assert forall i :: 1 <= i <= n ==> s[i] == s[1..][i - 1];
      1 + n
    else 0
  }

  /** Number of whitespace characters at the end of `s`. */
  function TrailingWhitespace(s: string): (n: nat)
    ensures n <= |s|
    ensures forall i :: |s| - n <= i < |s| ==> IsWhitespace(s[i])
    ensures n < |s| ==> !IsWhitespace(s[|s| - 1 - n])
  {
    if s != [] && IsWhitespace(s[|s| - 1]) then
      var n := TrailingWhitespace(s[..|s| - 1]);
      assert forall i :: |s| - 1 - n <= i < |s| - 1 ==> s[i] == s[..|s| - 1][i];
      1 + n
    else 0
  }

  /**
   * `s.trim()`: the stretch of `s` that starts at its first and ends at its last
   * non-whitespace character; everything outside it is whitespace.
   */
  function Trim(s: string): (r: string)
    ensures IsTrimmed(r)
    ensures LeadingWhitespace(s) + |r| <= |s| && r == s[LeadingWhitespace(s)..LeadingWhitespace(s) + |r|]
    ensures forall i :: 0 <= i < |s| && !(LeadingWhitespace(s) <= i < LeadingWhitespace(s) + |r|) ==> IsWhitespace(s[i])
  {
    var a, b := LeadingWhitespace(s), TrailingWhitespace(s);
    if a == |s| then []
    else
      assert a < |s| - b;
      s[a..|s| - b]
  }

  /** Trimming twice changes nothing more than trimming once. */
  lemma TrimIdempotent(s: string)
    ensures Trim(Trim(s)) == Trim(s)
  {
    var r := Trim(s);
    if r != [] {
      assert LeadingWhitespace(r) == 0;
      assert TrailingWhitespace(r) == 0;
      assert r[0..|r|] == r;
    }
  }

  /** A trimmed result is empty exactly when the text is all whitespace. */
  lemma TrimEmptyIffBlank(s: string)
    ensures Trim(s) == [] <==> forall i :: 0 <= i < |s| ==> IsWhitespace(s[i])
  {
    if Trim(s) != [] {
      var a := LeadingWhitespace(s);
      assert s[a] == Trim(s)[0];
    }
  }

  // ---------------------------------------------------------------------------
  // Decimal rendering of a natural number (`${n}` in a template literal)
  // ---------------------------------------------------------------------------

  function DigitChar(d: nat): char
    requires d < 10
  {
    "0123456789"[d]
  }

  predicate IsDigit(c: char) {
    '0' <= c <= '9'
  }

  function DigitValue(c: char): nat
    requires IsDigit(c)
  {
    (c as int - '0' as int) as nat
  }

  /** The shortest decimal numeral of `n`. */
  function Decimal(n: nat): (s: string)
    ensures s != [] && forall i :: 0 <= i < |s| ==> IsDigit(s[i])
    ensures s[0] == '0' ==> n == 0
  {
    if n < 10 then [DigitChar(n)] else Decimal(n / 10) + [DigitChar(n % 10)]
  }

  /** Reads a string of decimal digits back as a number. */
  function ReadDecimal(s: string): nat
    requires forall i :: 0 <= i < |s| ==> IsDigit(s[i])
  {
    if s == [] then 0 else ReadDecimal(s[..|s| - 1]) * 10 + DigitValue(s[|s| - 1])
  }

  /** Reading a rendered number gives the number back, so distinct numbers render differently. */
  lemma {:induction false} ReadDecimalOfDecimal(n: nat)
    ensures ReadDecimal(Decimal(n)) == n
  {
    var s := Decimal(n);
    if n < 10 {
      assert s[..0] == [];
    } else {
      ReadDecimalOfDecimal(n / 10);
      assert s[..|s| - 1] == Decimal(n / 10);
    }
  }
}
