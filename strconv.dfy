/** Decimal integers as Go's strconv.Atoi reads them on a 64-bit platform
    (Go's int is 64 bits wide there), together with the decimal rendering
    that Atoi inverts. */
module Strconv {

  const MaxInt64: int := 0x7FFF_FFFF_FFFF_FFFF
  const MinInt64: int := -0x8000_0000_0000_0000
  const MaxUint64: int := 0xFFFF_FFFF_FFFF_FFFF

  predicate IsDigit(c: char) { '0' <= c <= '9' }

  function DigitValue(c: char): (d: nat)
    requires IsDigit(c)
    ensures d < 10
  {
    c as int - '0' as int
  }

  function DigitChar(d: nat): (c: char)
    requires d < 10
    ensures IsDigit(c) && DigitValue(c) == d
  {
    ('0' as int + d) as char
  }

  /** What Atoi reports. Go returns an int beside the error: 0 after a
      syntax error, the nearest 64-bit bound after a range error. */
  datatype AtoiResult = Ok(n: int) | SyntaxError | RangeError(clamped: int)
  {
    /** The int Atoi returns, whether or not its error is nil. */
    function Value(): int
    {
      match this
      case Ok(n) => n
      case SyntaxError => 0
      case RangeError(c) => c
    }
  }

  /** What strconv.ParseUint(s, 10, 64) reports. */
  datatype UintResult = UintOk(u: nat) | UintSyntax | UintRange

  /** Reads the digits of s left to right onto the accumulator acc. A
      character that is not a digit is a syntax error; the first digit that
      takes the value past 2^64 - 1 ends the scan with a range error, before
      the characters after it are looked at. */
  function ScanDigits(s: string, acc: nat): (r: UintResult)
    requires acc <= MaxUint64
    ensures r.UintOk? ==> r.u <= MaxUint64
    decreases |s|
  {
    if s == [] then UintOk(acc)
    else if !IsDigit(s[0]) then UintSyntax
    else if 10 * acc + DigitValue(s[0]) > MaxUint64 then UintRange
    else ScanDigits(s[1..], 10 * acc + DigitValue(s[0]))
  }

  function ParseUint(s: string): (r: UintResult)
    ensures r.UintOk? ==> s != [] && r.u <= MaxUint64
  {
    if s == [] then UintSyntax else ScanDigits(s, 0)
  }

  /** s without its leading sign character, if it has one. */
  function Unsigned(s: string): string
  {
    if |s| > 0 && (s[0] == '+' || s[0] == '-') then s[1..] else s
  }

  /** strconv.Atoi: an optional '+' or '-', then at least one decimal digit;
      values outside the 64-bit range are clamped and reported as range
      errors. */
  function Atoi(s: string): (r: AtoiResult)
    ensures r.Ok? ==> MinInt64 <= r.n <= MaxInt64
    ensures r.RangeError? ==> s != [] && r.clamped == (if s[0] == '-' then MinInt64 else MaxInt64)
  {
    if s == [] then SyntaxError
    else
      var neg := s[0] == '-';
      match ParseUint(Unsigned(s))
      case UintSyntax => SyntaxError
      case UintRange => RangeError(if neg then MinInt64 else MaxInt64)
      case UintOk(u) =>
        if !neg && u > MaxInt64 then RangeError(MaxInt64)
        else if neg && u > -MinInt64 then RangeError(MinInt64)
        else Ok(if neg then -(u as int) else u as int)
  }

  /** The decimal digits of u, most significant first, without leading zeros. */
  function Digits(u: nat): (s: string)
    ensures |s| > 0 && AllDigits(s)
    decreases u
  {
    if u < 10 then [DigitChar(u)] else Digits(u / 10) + [DigitChar(u % 10)]
  }

  /** The decimal rendering of n, as strconv.Itoa writes it. */
  function Itoa(n: int): (s: string)
    ensures IsDecimal(s)
    ensures s[0] == '-' <==> n < 0
  {
    if n < 0 then "-" + Digits(-n) else Digits(n)
  }

  predicate AllDigits(s: string)
  {
    forall i :: 0 <= i < |s| ==> IsDigit(s[i])
  }

  /** The strings Atoi accepts as syntax: a sign at most, then digits only. */
  predicate IsDecimal(s: string)
  {
    |Unsigned(s)| > 0 && AllDigits(Unsigned(s))
  }

  lemma {:induction false} ScanSnoc(x: string, c: char, acc: nat, m: nat)
    requires acc <= MaxUint64 && IsDigit(c)
    requires ScanDigits(x, acc) == UintOk(m)
    ensures ScanDigits(x + [c], acc) ==
      if 10 * m + DigitValue(c) > MaxUint64 then UintRange else UintOk(10 * m + DigitValue(c))
    decreases |x|
  {
    if x == [] {
      assert x + [c] == [c];
      assert [c][1..] == [];
    } else {
      assert (x + [c])[0] == x[0];
      assert (x + [c])[1..] == x[1..] + [c];
      ScanSnoc(x[1..], c, 10 * acc + DigitValue(x[0]), m);
    }
  }

  lemma {:induction false} ScanDigitsOf(u: nat)
    requires u <= MaxUint64
    ensures ScanDigits(Digits(u), 0) == UintOk(u)
    decreases u
  {
    if u < 10 {
      assert Digits(u) == [DigitChar(u)];
      assert Digits(u)[1..] == [];
    } else {
      ScanDigitsOf(u / 10);
      ScanSnoc(Digits(u / 10), DigitChar(u % 10), 0, u / 10);
    }
  }

  /** Atoi reads back every 64-bit integer Itoa writes. */
  lemma AtoiItoa(n: int)
    requires MinInt64 <= n <= MaxInt64
    ensures Atoi(Itoa(n)) == Ok(n)
  {
    if n < 0 {
      var s := Itoa(n);
      assert s[0] == '-' && s[1..] == Digits(-n);
      ScanDigitsOf(-n);
    } else {
      var s := Itoa(n);
      assert IsDigit(s[0]);
      ScanDigitsOf(n);
    }
  }

  lemma {:induction false} ScanOkIsDigits(s: string, acc: nat)
    requires acc <= MaxUint64
    ensures ScanDigits(s, acc).UintOk? ==> AllDigits(s)
    ensures AllDigits(s) ==> !ScanDigits(s, acc).UintSyntax?
    decreases |s|
  {
    if s != [] && IsDigit(s[0]) && 10 * acc + DigitValue(s[0]) <= MaxUint64 {
      ScanOkIsDigits(s[1..], 10 * acc + DigitValue(s[0]));
      assert forall i :: 1 <= i < |s| ==> s[i] == s[1..][i - 1];
      assert AllDigits(s) ==> AllDigits(s[1..]);
    }
  }

  /** The value a string of digits denotes in positional notation, the
      last digit being the units. */
  function DecVal(s: string): nat
    requires AllDigits(s)
    decreases |s|
  {
    if s == [] then 0 else 10 * DecVal(s[..|s| - 1]) + DigitValue(s[|s| - 1])
  }

  /** Once the scan has overflowed, more digits do not bring it back. */
  lemma {:induction false} ScanRangeSnoc(x: string, c: char, acc: nat)
    requires acc <= MaxUint64
    requires ScanDigits(x, acc) == UintRange
    ensures ScanDigits(x + [c], acc) == UintRange
    decreases |x|
  {
    assert x != [];
    assert (x + [c])[0] == x[0];
    if 10 * acc + DigitValue(x[0]) <= MaxUint64 {
      assert (x + [c])[1..] == x[1..] + [c];
      ScanRangeSnoc(x[1..], c, 10 * acc + DigitValue(x[0]));
    }
  }

  /** Scanning digits gives their positional value, or a range error
      exactly when that value exceeds 2^64 - 1. */
  lemma {:induction false} ScanValue(s: string)
    requires AllDigits(s)
    ensures ScanDigits(s, 0) == if DecVal(s) <= MaxUint64 then UintOk(DecVal(s)) else UintRange
    decreases |s|
  {
    if s != [] {
      var x, c := s[..|s| - 1], s[|s| - 1];
      assert s == x + [c];
      assert AllDigits(x) by {
        assert forall i :: 0 <= i < |x| ==> x[i] == s[i];
      }
      ScanValue(x);
      if DecVal(x) <= MaxUint64 {
        ScanSnoc(x, c, 0, DecVal(x));
      } else {
        ScanRangeSnoc(x, c, 0);
      }
    }
  }

  /** Atoi on decimal syntax: the signed positional value when it fits in
      64 bits, otherwise a range error clamped to the bound of its sign. */
  lemma AtoiDecimal(s: string)
    requires IsDecimal(s)
    ensures var u: int := DecVal(Unsigned(s));
      if s[0] == '-' then
        Atoi(s) == (if u <= -MinInt64 then Ok(-u) else RangeError(MinInt64))
      else
        Atoi(s) == (if u <= MaxInt64 then Ok(u) else RangeError(MaxInt64))
  {
    ScanValue(Unsigned(s));
  }

  /** Atoi succeeds only on decimal syntax, and never reports a syntax
      error for it (a decimal string too large for 64 bits gives a range
      error instead). */
  lemma AtoiSyntax(s: string)
    ensures Atoi(s).Ok? ==> IsDecimal(s)
    ensures IsDecimal(s) ==> !Atoi(s).SyntaxError?
  {
    ScanOkIsDigits(Unsigned(s), 0);
  }
}
