/**
 * The pieces of Python's string and regular-expression behaviour that the
 * harvester relies on: ASCII character classes, the `$` anchor, `in`,
 * `str.rfind`, slicing with negative bounds, `str.split`, `str.zfill`,
 * `str(n)` and the ordering used by `list.sort()`.
 */
module Text {

  // ---------------------------------------------------------------
  // Character classes (ASCII reading of \d, \s, \w)
  // ---------------------------------------------------------------

  predicate IsDigit(c: char) { '0' <= c <= '9' }

  predicate IsLetter(c: char) { 'a' <= c <= 'z' || 'A' <= c <= 'Z' }

  /** `[a-zA-Z0-9]` */
  predicate IsAlnum(c: char) { IsLetter(c) || IsDigit(c) }

  /** `\s`: space, tab, newline, vertical tab, form feed, carriage return and the
    * separators 0x1C-0x1F, which Python's `str.isspace` also accepts. */
  predicate IsSpace(c: char) { 9 <= c as int <= 13 || 28 <= c as int <= 32 }

  /** `\w` */
  predicate IsWord(c: char) { IsAlnum(c) || c == '_' }

  predicate AllDigits(s: string) { forall i :: 0 <= i < |s| ==> IsDigit(s[i]) }

  predicate AllWord(s: string) { forall i :: 0 <= i < |s| ==> IsWord(s[i]) }

  // ---------------------------------------------------------------
  // The `$` anchor
  // ---------------------------------------------------------------

  predicate EndsWithNewline(s: string) { |s| > 0 && s[|s| - 1] == '\n' }

  /** `s` without its final newline; Python's `$` may match just before it. */
  function Chomp(s: string): (r: string)
    requires EndsWithNewline(s)
    ensures r + "\n" == s
  {
    s[..|s| - 1]
  }

  // ---------------------------------------------------------------
  // Substrings
  // ---------------------------------------------------------------

  predicate StartsWith(s: string, p: string) { |p| <= |s| && s[..|p|] == p }

  predicate EndsWith(s: string, p: string) { |p| <= |s| && s[|s| - |p|..] == p }

  /** `p` occurs in `s` at index `i`. */
  predicate OccursAt(s: string, p: string, i: int)
  {
    0 <= i && i + |p| <= |s| && s[i..i + |p|] == p
  }

  /** Python's `p in s`; the empty string is in every string. */
  predicate Contains(s: string, p: string)
  {
    exists i :: 0 <= i <= |s| - |p| && OccursAt(s, p, i)
  }

  /** The greatest index at or below `i` where `p` occurs, or -1. */
  function LastAtOrBelow(s: string, p: string, i: int): (r: int)
    ensures r == -1 || 0 <= r <= i
    ensures r >= 0 ==> OccursAt(s, p, r)
    ensures forall j :: r < j <= i ==> !OccursAt(s, p, j)
    decreases i + 1
  {
    if i < 0 then -1
    else if OccursAt(s, p, i) then i
    else LastAtOrBelow(s, p, i - 1)
  }

  /** Python's `s.rfind(p)`: the last index where `p` occurs, -1 if nowhere. */
  function RFind(s: string, p: string): (r: int)
    ensures -1 <= r <= |s| - |p| || r == -1
    ensures r >= 0 ==> OccursAt(s, p, r)
    ensures forall j :: OccursAt(s, p, j) ==> j <= r
    ensures r == -1 <==> !Contains(s, p)
  {
    LastAtOrBelow(s, p, |s| - |p|)
  }

  /** The first index at or above `i` where `p` occurs, or -1. */
  function FirstAtOrAbove(s: string, p: string, i: nat): (r: int)
    ensures r == -1 || (i <= r && OccursAt(s, p, r))
    ensures forall j :: i <= j && OccursAt(s, p, j) ==> r != -1 && r <= j
    decreases |s| - i
  {
    if i + |p| > |s| then -1
    else if OccursAt(s, p, i) then i
    else FirstAtOrAbove(s, p, i + 1)
  }

  /** Python's `s.find(p)`. */
  function Find(s: string, p: string): (r: int)
    ensures r == -1 || OccursAt(s, p, r)
    ensures forall j :: OccursAt(s, p, j) ==> r != -1 && r <= j
  {
    FirstAtOrAbove(s, p, 0)
  }

  /** A bound of a Python slice after negative indices count from the end and the
    * result is clipped to the string. */
  function SliceBound(i: int, n: nat): (r: nat)
    ensures r <= n
    ensures 0 <= i <= n ==> r == i
    ensures i > n ==> r == n
    ensures -(n as int) <= i < 0 ==> r == n + i
    ensures i < -(n as int) ==> r == 0
  {
    if i < 0 then (if i + n < 0 then 0 else i + n)
    else if i > n then n
    else i
  }

  /** Python's `s[b:e]`. */
  function Slice(s: string, b: int, e: int): (r: string)
    ensures SliceBound(b, |s|) < SliceBound(e, |s|) ==>
              r == s[SliceBound(b, |s|)..SliceBound(e, |s|)]
    ensures SliceBound(e, |s|) <= SliceBound(b, |s|) ==> r == ""
  {
    var lo := SliceBound(b, |s|);
    var hi := SliceBound(e, |s|);
    if lo < hi then s[lo..hi] else ""
  }

  // ---------------------------------------------------------------
  // str.split
  // ---------------------------------------------------------------

  /** Python's `s.split(sep)` for a non-empty separator. */
  function Split(s: string, sep: string): (r: seq<string>)
    requires |sep| > 0
    ensures |r| >= 1
    ensures !Contains(s, sep) ==> r == [s]
    decreases |s|
  {
    var i := Find(s, sep);
    if i == -1 then [s]
    else [s[..i]] + Split(s[i + |sep|..], sep)
  }

  /** Python's `sep.join(parts)`. */
  function Join(parts: seq<string>, sep: string): string
  {
    if |parts| == 0 then ""
    else if |parts| == 1 then parts[0]
    else parts[0] + sep + Join(parts[1..], sep)
  }

  lemma NotContainsBeforeFirst(s: string, sep: string, i: int)
    requires |sep| > 0 && i == Find(s, sep) && i != -1
    ensures !Contains(s[..i], sep)
  {
    if Contains(s[..i], sep) {
      var j :| 0 <= j <= i - |sep| && OccursAt(s[..i], sep, j);
      assert s[..i][j..j + |sep|] == s[j..j + |sep|];
      assert OccursAt(s, sep, j);
    }
  }

  /** A prefix holds no substring that the whole string does not hold. */
  lemma NotContainsPrefix(s: string, p: string, n: nat)
    requires n <= |s| && !Contains(s, p)
    ensures !Contains(s[..n], p)
  {
    if Contains(s[..n], p) {
      var j :| 0 <= j <= n - |p| && OccursAt(s[..n], p, j);
      assert s[..n][j..j + |p|] == s[j..j + |p|];
      assert OccursAt(s, p, j);
    }
  }

  /** Joining the pieces of a split with the same separator gives back the string. */
  lemma {:induction false} SplitJoin(s: string, sep: string)
    requires |sep| > 0
    ensures Join(Split(s, sep), sep) == s
    decreases |s|
  {
    var i := Find(s, sep);
    if i != -1 {
      var rest := s[i + |sep|..];
      SplitJoin(rest, sep);
      JoinStep(s, sep, i, Split(rest, sep));
    }
  }

  lemma JoinStep(s: string, sep: string, i: int, tail: seq<string>)
    requires OccursAt(s, sep, i) && |tail| >= 1
    requires Join(tail, sep) == s[i + |sep|..]
    ensures Join([s[..i]] + tail, sep) == s
  {
    var h, rest := s[..i], s[i + |sep|..];
    JoinCons(h, tail, sep);
    AroundOccurrence(s, sep, i);
    calc {
      Join([h] + tail, sep);
      h + sep + Join(tail, sep);
      h + sep + rest;
      s;
    }
  }

  /** `s` is what comes before an occurrence of `p`, then `p`, then what follows. */
  lemma AroundOccurrence(s: string, p: string, i: int)
    requires OccursAt(s, p, i)
    ensures s == s[..i] + p + s[i + |p|..]
  {
    assert s[i..] == p + s[i + |p|..] by {
      assert s[i..][..|p|] == s[i..i + |p|];
      assert s[i..][|p|..] == s[i + |p|..];
    }
    assert s == s[..i] + s[i..];
  }

  lemma JoinCons(h: string, tail: seq<string>, sep: string)
    requires |tail| >= 1
    ensures Join([h] + tail, sep) == h + sep + Join(tail, sep)
  {
    assert ([h] + tail)[1..] == tail;
  }

  /** No piece of a split holds the separator. */
  lemma {:induction false} SplitPiecesFree(s: string, sep: string)
    requires |sep| > 0
    ensures forall k :: 0 <= k < |Split(s, sep)| ==> !Contains(Split(s, sep)[k], sep)
    decreases |s|
  {
    var i := Find(s, sep);
    if i != -1 {
      var rest := s[i + |sep|..];
      SplitPiecesFree(rest, sep);
      NotContainsBeforeFirst(s, sep, i);
      var tail := Split(rest, sep);
      assert Split(s, sep) == [s[..i]] + tail;
    }
  }

  // ---------------------------------------------------------------
  // Numbers as text
  // ---------------------------------------------------------------

  function DigitChar(d: nat): (c: char)
    requires d < 10
    ensures IsDigit(c)
  {
    ('0' as int + d) as char
  }

  function DigitValue(c: char): nat
    requires IsDigit(c)
  {
    c as int - '0' as int
  }

  /** The number a string of decimal digits denotes (Python's `int(s)`). */
  function DecimalValue(s: string): nat
    requires AllDigits(s)
  {
    if |s| == 0 then 0 else DecimalValue(s[..|s| - 1]) * 10 + DigitValue(s[|s| - 1])
  }

  /** Python's `str(n)` for a natural number. */
  function NatToString(n: nat): (r: string)
    ensures |r| >= 1 && AllDigits(r)
    ensures |r| > 1 ==> r[0] != '0'
  {
    if n < 10 then [DigitChar(n)] else NatToString(n / 10) + [DigitChar(n % 10)]
  }

  /** Reading back the digits of `str(n)` gives `n`. */
  lemma {:induction false} NatToStringValue(n: nat)
    ensures DecimalValue(NatToString(n)) == n
  {
    if n >= 10 {
      NatToStringValue(n / 10);
      var s := NatToString(n);
      assert s[..|s| - 1] == NatToString(n / 10);
    }
  }

  /** `str(n)` has four digits from 1000 to 9999, and at most two below 100. */
  lemma NatToStringLength(n: nat)
    ensures n < 100 ==> |NatToString(n)| <= 2
    ensures 1000 <= n < 10000 ==> |NatToString(n)| == 4
  {
    if n >= 10 {
      var a := n / 10;
      assert NatToString(n) == NatToString(a) + [DigitChar(n % 10)];
      if a >= 10 {
        var b := a / 10;
        assert NatToString(a) == NatToString(b) + [DigitChar(a % 10)];
        if b >= 10 {
          assert NatToString(b) == NatToString(b / 10) + [DigitChar(b % 10)];
        }
      }
    }
  }

  /** `c` repeated `n` times. */
  function Repeat(c: char, n: nat): (r: string)
    ensures |r| == n && forall i :: 0 <= i < n ==> r[i] == c
  {
    if n == 0 then "" else Repeat(c, n - 1) + [c]
  }

  /** Python's `s.zfill(w)` for an unsigned string: zeros are added on the left
    * up to width `w`; a longer string is left as it is. */
  function ZFill(s: string, w: nat): (r: string)
    ensures |s| >= w ==> r == s
    ensures |s| < w ==> |r| == w && r[w - |s|..] == s
                        && forall i :: 0 <= i < w - |s| ==> r[i] == '0'
  {
    if |s| >= w then s else Repeat('0', w - |s|) + s
  }

  lemma ZeroPrefixValue(z: nat, s: string)
    requires AllDigits(s)
    ensures AllDigits(Repeat('0', z) + s)
    ensures DecimalValue(Repeat('0', z) + s) == DecimalValue(s)
    decreases |s|
  {
    var t := Repeat('0', z) + s;
    if |s| == 0 {
      assert t == Repeat('0', z);
      ZerosValue(z);
    } else {
      ZeroPrefixValue(z, s[..|s| - 1]);
      assert t[..|t| - 1] == Repeat('0', z) + s[..|s| - 1];
    }
  }

  lemma ZerosValue(z: nat)
    ensures AllDigits(Repeat('0', z))
    ensures DecimalValue(Repeat('0', z)) == 0
  {
    if z > 0 {
      ZerosValue(z - 1);
      assert Repeat('0', z)[..z - 1] == Repeat('0', z - 1);
    }
  }

  // ---------------------------------------------------------------
  // Python's string order, used by list.sort()
  // ---------------------------------------------------------------

  /** `a <= b` on Python strings: code-point lexicographic order. */
  predicate LexLe(a: string, b: string)
  {
    |a| == 0 || (|b| > 0 && (a[0] < b[0] || (a[0] == b[0] && LexLe(a[1..], b[1..]))))
  }

  lemma {:induction false} LexLeTotal(a: string, b: string)
    ensures LexLe(a, b) || LexLe(b, a)
  {
    if |a| > 0 && |b| > 0 && a[0] == b[0] {
      LexLeTotal(a[1..], b[1..]);
    }
  }

  lemma {:induction false} LexLeTrans(a: string, b: string, c: string)
    requires LexLe(a, b) && LexLe(b, c)
    ensures LexLe(a, c)
  {
    if |a| > 0 && |b| > 0 && |c| > 0 && a[0] == b[0] == c[0] {
      LexLeTrans(a[1..], b[1..], c[1..]);
    }
  }

  lemma {:induction false} LexLeAntisym(a: string, b: string)
    requires LexLe(a, b) && LexLe(b, a)
    ensures a == b
  {
    if |a| > 0 && |b| > 0 {
      LexLeAntisym(a[1..], b[1..]);
      assert a == [a[0]] + a[1..];
      assert b == [b[0]] + b[1..];
    }
  }

  predicate Sorted(xs: seq<string>)
  {
    forall i, j :: 0 <= i < j < |xs| ==> LexLe(xs[i], xs[j])
  }

  function Insert(x: string, xs: seq<string>): (r: seq<string>)
    requires Sorted(xs)
    ensures Sorted(r)
    ensures multiset(r) == multiset(xs) + multiset{x}
  {
    if |xs| == 0 then [x]
    else if LexLe(x, xs[0]) then
      InsertFront(x, xs);
      [x] + xs
    else
      var rest := Insert(x, xs[1..]);
      LexLeTotal(x, xs[0]);
      InsertBehind(xs[0], x, xs[1..], rest);
      assert xs == [xs[0]] + xs[1..];
      [xs[0]] + rest
  }

  lemma InsertFront(x: string, xs: seq<string>)
    requires Sorted(xs) && |xs| > 0 && LexLe(x, xs[0])
    ensures Sorted([x] + xs)
  {
    forall j | 0 < j < |xs| + 1 ensures LexLe(([x] + xs)[0], ([x] + xs)[j]) {
      if j > 1 { LexLeTrans(x, xs[0], xs[j - 1]); }
    }
  }

  lemma InsertBehind(h: string, x: string, tl: seq<string>, rest: seq<string>)
    requires Sorted([h] + tl) && LexLe(h, x) && Sorted(rest)
    requires multiset(rest) == multiset(tl) + multiset{x}
    ensures Sorted([h] + rest)
  {
    forall j | 0 <= j < |rest| ensures LexLe(h, rest[j]) {
      assert rest[j] in multiset(rest);
      if rest[j] != x {
        assert rest[j] in multiset(tl);
        var k :| 0 <= k < |tl| && tl[k] == rest[j];
        assert ([h] + tl)[k + 1] == tl[k];
        assert LexLe(([h] + tl)[0], ([h] + tl)[k + 1]);
      }
    }
  }

  /** Python's `sorted(xs)` on strings: ascending, and a rearrangement of `xs`. */
  function SortStrings(xs: seq<string>): (r: seq<string>)
    ensures Sorted(r)
    ensures multiset(r) == multiset(xs)
  {
    if |xs| == 0 then []
    else
      assert xs == xs[..|xs| - 1] + [xs[|xs| - 1]];
      Insert(xs[|xs| - 1], SortStrings(xs[..|xs| - 1]))
  }

  /** The first element of `sorted(xs, reverse=True)`: the greatest string. */
  function Greatest(xs: seq<string>): (r: string)
    requires |xs| > 0
    ensures r in xs
    ensures forall y :: y in xs ==> LexLe(y, r)
  {
    if |xs| == 1 then
      LexLeRefl(xs[0]);
      xs[0]
    else
      var m := Greatest(xs[..|xs| - 1]);
      LexLeTotal(m, xs[|xs| - 1]);
      assert xs == xs[..|xs| - 1] + [xs[|xs| - 1]];
      if LexLe(m, xs[|xs| - 1]) then
        LexLeRefl(xs[|xs| - 1]);
        forall k | 0 <= k < |xs| - 1 ensures LexLe(xs[k], xs[|xs| - 1]) {
          assert xs[k] in xs[..|xs| - 1];
          LexLeTrans(xs[k], m, xs[|xs| - 1]);
        }
        xs[|xs| - 1]
      else
        m
  }

  lemma LexLeRefl(a: string)
    ensures LexLe(a, a)
  {
    LexLeTotal(a, a);
  }
}
