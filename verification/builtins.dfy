/**
 The small part of the JavaScript standard library that the quiz relies on:
 `Array.prototype.indexOf`, `String.prototype.trim`, `String(n)` on integers,
 the truncating `%` operator and `Math.min`. Each is defined here once, on
 Dafny's unbounded values, and characterised by its contract.
 */
module Builtins {

  datatype Option<+T> = None | Some(value: T)

  /* ----------------------------------------------------------------------
     Array.prototype.indexOf
     ---------------------------------------------------------------------- */

  /** Position of the first occurrence of `x` in `s`, or -1 when there is none. */
  function IndexOf<T(==)>(s: seq<T>, x: T): (r: int)
    ensures -1 <= r < |s|
    ensures r == -1 <==> x !in s
    ensures 0 <= r ==> s[r] == x && x !in s[..r]
  {
    if |s| == 0 then -1
    else if s[0] == x then 0
    else
      var k := IndexOf(s[1..], x);
      if k == -1 then -1
      else
        assert s[..k + 1] == [s[0]] + s[1..][..k];
        k + 1
  }

  /** Two distinct positions holding `x` give `x` a multiplicity of at least two. */
  lemma TwoPositions<T>(s: seq<T>, x: T, lo: int, hi: int)
    requires 0 <= lo < hi < |s|
    requires s[lo] == x && s[hi] == x
    ensures multiset(s)[x] >= 2
  {
    assert s == s[..hi] + s[hi..];
    assert s[..hi][lo] == x;
    assert s[hi..][0] == x;
    assert multiset(s) == multiset(s[..hi]) + multiset(s[hi..]);
  }

  /** An element that occurs exactly once sits at exactly one position. */
  lemma OccursOnce<T>(s: seq<T>, x: T, i: int, j: int)
    requires multiset(s)[x] == 1
    requires 0 <= i < |s| && 0 <= j < |s|
    requires s[i] == x && s[j] == x
    ensures i == j
  {
    if i < j {
      TwoPositions(s, x, i, j);
      assert false;
    } else if j < i {
      TwoPositions(s, x, j, i);
      assert false;
    }
  }

  /* ----------------------------------------------------------------------
     Math.min on numbers
     ---------------------------------------------------------------------- */

  function Min(a: real, b: real): (r: real)
    ensures r <= a && r <= b
    ensures r == a || r == b
  {
    if a <= b then a else b
  }

  /* ----------------------------------------------------------------------
     The `%` operator: the remainder takes the sign of the dividend
     (ECMA-262, section 6.1.6.1.6), unlike Dafny's Euclidean `%`.
     ---------------------------------------------------------------------- */

  function Rem(a: int, b: int): (r: int)
    requires b > 0
    ensures -b < r < b
    ensures a >= 0 ==> r >= 0
    ensures a <= 0 ==> r <= 0
    ensures a >= 0 ==> r == a % b
    ensures exists q :: a == q * b + r
  {
    if a >= 0 then
      assert a == (a / b) * b + a % b;
      a % b
    else
      var q := (-a) / b;
      assert -a == q * b + (-a) % b;
      assert a == (-q) * b + -((-a) % b);
      -((-a) % b)
  }

  /* ----------------------------------------------------------------------
     String(n) for an integer n: optional minus sign, then decimal digits
     without leading zeros.
     ---------------------------------------------------------------------- */

  predicate IsDigit(c: char) {
    '0' <= c <= '9'
  }

  predicate AllDigits(s: string) {
    forall i :: 0 <= i < |s| ==> IsDigit(s[i])
  }

  function DigitChar(d: int): (c: char)
    requires 0 <= d < 10
    ensures IsDigit(c)
    ensures c as int - '0' as int == d
  {
    ('0' as int + d) as char
  }

  function DigitValue(c: char): (d: int)
    requires IsDigit(c)
    ensures 0 <= d < 10
  {
    c as int - '0' as int
  }

  /** Decimal numeral of a natural number. */
  function NatToString(n: nat): (r: string)
    ensures |r| >= 1
    ensures AllDigits(r)
    ensures r[0] == '0' <==> n == 0
    ensures |r| > 1 ==> r[0] != '0'
  {
    if n < 10 then [DigitChar(n)]
    else NatToString(n / 10) + [DigitChar(n % 10)]
  }

  /** Reads a string of decimal digits back as a number. */
  function ParseNat(s: string): (n: nat)
    requires AllDigits(s)
  {
    if |s| == 0 then 0
    else ParseNat(s[..|s| - 1]) * 10 + DigitValue(s[|s| - 1])
  }

  lemma {:induction false} ParseNatToString(n: nat)
    ensures ParseNat(NatToString(n)) == n
  {
    var s := NatToString(n);
    if n >= 10 {
      assert s[..|s| - 1] == NatToString(n / 10);
      ParseNatToString(n / 10);
    }
  }

  /**
   `String(n)` for an integer `n`: a minus sign exactly for negative
   numbers, then decimal digits that `ParseInt` reads back as `n`.
   */
  function IntToString(n: int): (r: string)
    ensures |r| >= 1
    ensures n < 0 <==> r[0] == '-'
    ensures AllDigits(if r[0] == '-' then r[1..] else r)
    ensures var digits := if n < 0 then r[1..] else r;
      |digits| >= 1 && (|digits| > 1 ==> digits[0] != '0')
    ensures ParseInt(r) == n
  {
    if n < 0 then
      var r := "-" + NatToString(-n);
      assert r[1..] == NatToString(-n);
      ParseNatToString(-n);
      r
    else
      ParseNatToString(n);
      NatToString(n)
  }

  /** Inverse of `IntToString` on the strings it produces. */
  function ParseInt(s: string): int
    requires |s| >= 1
    requires AllDigits(if s[0] == '-' then s[1..] else s)
  {
    if s[0] == '-' then 0 - ParseNat(s[1..]) else ParseNat(s)
  }

  /** Distinct integers are displayed as distinct strings. */
  lemma IntToStringInjective(m: int, n: int)
    ensures IntToString(m) == IntToString(n) <==> m == n
  {
  }

  /* ----------------------------------------------------------------------
     String.prototype.trim: removes leading and trailing white space and
     line terminators (ECMA-262, sections 12.2 and 12.3).
     ---------------------------------------------------------------------- */

  predicate IsWhiteSpace(c: char) {
    || c == '\t' || c == '\U{B}' || c == '\U{C}' || c == ' ' || c == '\U{A0}' || c == '\U{FEFF}'
    || c == '\U{1680}' || ('\U{2000}' <= c <= '\U{200A}') || c == '\U{202F}' || c == '\U{205F}'
    || c == '\U{3000}'
    || c == '\n' || c == '\r' || c == '\U{2028}' || c == '\U{2029}'
  }

  predicate AllWhiteSpace(s: string) {
    forall i :: 0 <= i < |s| ==> IsWhiteSpace(s[i])
  }

  /** Number of white-space characters at the start of `s`. */
  function LeadingSpace(s: string): (n: nat)
    ensures n <= |s|
    ensures forall k :: 0 <= k < n ==> IsWhiteSpace(s[k])
    ensures n < |s| ==> !IsWhiteSpace(s[n])
  {
    if |s| == 0 || !IsWhiteSpace(s[0]) then 0
    else 1 + LeadingSpace(s[1..])
  }

  /** Number of white-space characters at the end of `s`. */
  function TrailingSpace(s: string): (n: nat)
    ensures n <= |s|
    ensures forall k :: |s| - n <= k < |s| ==> IsWhiteSpace(s[k])
    ensures n < |s| ==> !IsWhiteSpace(s[|s| - n - 1])
  {
    if |s| == 0 || !IsWhiteSpace(s[|s| - 1]) then 0
    else 1 + TrailingSpace(s[..|s| - 1])
  }

  /** `s.trim()`: the slice left after dropping the white space at both ends. */
  function Trim(s: string): (r: string)
    ensures |r| <= |s|
    ensures LeadingSpace(s) + |r| <= |s| && r == s[LeadingSpace(s)..LeadingSpace(s) + |r|]
    ensures forall k :: LeadingSpace(s) + |r| <= k < |s| ==> IsWhiteSpace(s[k])
    ensures |r| > 0 ==> !IsWhiteSpace(r[0]) && !IsWhiteSpace(r[|r| - 1])
    ensures r == [] <==> AllWhiteSpace(s)
  {
    var i := LeadingSpace(s);
    var t := s[i..];
    var r := t[..|t| - TrailingSpace(t)];
    TrimSlice(s, i, t, r);
    TrimEmpty(s, i, t, r);
    r
  }

  /** Where the trimmed slice sits in `s`, and that only white space follows it. */
  lemma TrimSlice(s: string, i: nat, t: string, r: string)
    requires i == LeadingSpace(s) && t == s[i..] && r == t[..|t| - TrailingSpace(t)]
    ensures i + |r| <= |s| && r == s[i..i + |r|]
    ensures forall k :: i + |r| <= k < |s| ==> IsWhiteSpace(s[k])
    ensures |r| > 0 ==> !IsWhiteSpace(r[0]) && !IsWhiteSpace(r[|r| - 1])
  {
    SliceOfSlice(s, i, |r|);
    TrimTail(s, i, t, |r|);
    TrimEnds(s, i, t, r);
  }

  lemma SliceOfSlice(s: string, i: nat, n: nat)
    requires i + n <= |s|
    ensures s[i..][..n] == s[i..i + n]
  {
  }

  lemma TrimTail(s: string, i: nat, t: string, n: nat)
    requires i <= |s| && t == s[i..] && n == |t| - TrailingSpace(t)
    ensures forall k :: i + n <= k < |s| ==> IsWhiteSpace(s[k])
  {
    forall k | i + n <= k < |s| ensures IsWhiteSpace(s[k]) {
      assert s[k] == t[k - i];
    }
  }

  lemma TrimEnds(s: string, i: nat, t: string, r: string)
    requires i == LeadingSpace(s) && t == s[i..] && r == t[..|t| - TrailingSpace(t)]
    ensures |r| > 0 ==> !IsWhiteSpace(r[0]) && !IsWhiteSpace(r[|r| - 1])
  {
    if |r| > 0 {
      assert r[0] == t[0] == s[i];
      assert r[|r| - 1] == t[|t| - TrailingSpace(t) - 1];
    }
  }

  /** Nothing is left exactly when every character is white space. */
  lemma TrimEmpty(s: string, i: nat, t: string, r: string)
    requires i == LeadingSpace(s) && t == s[i..] && r == t[..|t| - TrailingSpace(t)]
    ensures r == [] <==> AllWhiteSpace(s)
  {
    assert i < |s| ==> t[0] == s[i];
  }

  /** Trimming twice is trimming once. */
  lemma TrimIdempotent(s: string)
    ensures Trim(Trim(s)) == Trim(s)
  {
    var r := Trim(s);
    if |r| > 0 {
      assert LeadingSpace(r) == 0;
      assert TrailingSpace(r) == 0;
    }
  }
}
