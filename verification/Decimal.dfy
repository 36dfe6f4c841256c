/** Decimal text of integers: `strconv.Itoa`, `strconv.ParseInt(s, 10, bits)` and `strconv.Atoi`
    as the replica codec uses them, including what they return beside an error. */
module Decimal {
  import opened Wrappers

  const MAX_UINT64 := 0xFFFF_FFFF_FFFF_FFFF
  const MIN_INT32 := -0x8000_0000
  const MAX_INT32 := 0x7FFF_FFFF
  const MIN_INT64 := -0x8000_0000_0000_0000
  const MAX_INT64 := 0x7FFF_FFFF_FFFF_FFFF

  type Int32 = n: int | MIN_INT32 <= n <= MAX_INT32
  type Int64 = n: int | MIN_INT64 <= n <= MAX_INT64

  /** Two's complement truncation to 32 bits. */
  function Wrap32(n: int): (r: Int32)
    ensures (r - n) % 0x1_0000_0000 == 0
  {
    var low := n % 0x1_0000_0000;
    if low <= MAX_INT32 then low else low - 0x1_0000_0000
  }

  lemma Wrap32Identity(n: int)
    requires MIN_INT32 <= n <= MAX_INT32
    ensures Wrap32(n) == n
  {
  }

  // ----- printing -----

  function DigitChar(d: int): (c: char)
    requires 0 <= d < 10
    ensures IsDigit(c) && DigitValue(c) == d
  {
    '0' + d as char
  }

  predicate IsDigit(c: char) {
    '0' <= c <= '9'
  }

  function DigitValue(c: char): (d: int)
    requires IsDigit(c)
    ensures 0 <= d < 10
  {
    c as int - '0' as int
  }

  function Digits(n: nat): (s: string)
    ensures s != [] && forall c <- s :: IsDigit(c)
  {
    if n < 10 then [DigitChar(n)] else Digits(n / 10) + [DigitChar(n % 10)]
  }

  /** `strconv.Itoa`. */
  function Itoa(n: int): (s: string) {
    if n < 0 then "-" + Digits(-n) else Digits(n)
  }

  // ----- parsing -----

  /** What `strconv` can report: no number at all, a number too large to represent (reported as soon
      as the prefix read so far is too large, whatever follows), or the number. */
  datatype Reading = Syntax | Range(negative: bool) | Value(n: int)

  /** The digit loop of `strconv.ParseUint`, with `acc` the value of the digits read so far. */
  function ScanDigits(s: string, acc: nat): (r: Reading)
    ensures r.Value? ==> r.n >= acc
  {
    if s == [] then Value(acc)
    else if !IsDigit(s[0]) then Syntax
    else
      var next := 10 * acc + DigitValue(s[0]);
      if next > MAX_UINT64 then Range(false) else ScanDigits(s[1..], next)
  }

  function ScanUnsigned(s: string): Reading {
    if s == [] then Syntax else ScanDigits(s, 0)
  }

  /** `strconv.ParseInt(s, 10, bits)` for the signed range `[lo, hi]`. */
  function ScanInt(s: string, lo: int, hi: int): Reading
    requires lo < 0 < hi
  {
    var negative := s != [] && s[0] == '-';
    var unsigned := if s != [] && (s[0] == '-' || s[0] == '+') then s[1..] else s;
    match ScanUnsigned(unsigned)
    case Syntax => Syntax
    case Range(_) => Range(negative)
    case Value(n) =>
      var signed := if negative then -n else n;
      if signed < lo || hi < signed then Range(negative) else Value(signed)
  }

  function ParseInt32(s: string): (r: Option<Int32>) {
    match ScanInt(s, MIN_INT32, MAX_INT32)
    case Value(n) => ScanIntInRange(s, MIN_INT32, MAX_INT32); Some(n)
    case _ => None
  }

  /** `strconv.Atoi` when its error is checked. */
  function ParseInt64(s: string): (r: Option<Int64>) {
    match ScanInt(s, MIN_INT64, MAX_INT64)
    case Value(n) => ScanIntInRange(s, MIN_INT64, MAX_INT64); Some(n)
    case _ => None
  }

  /** `strconv.Atoi` when its error is dropped: 0 for no number, the nearest int for a number out of
      range. */
  function AtoiUnchecked(s: string): (n: Int64) {
    match ScanInt(s, MIN_INT64, MAX_INT64)
    case Syntax => 0
    case Range(negative) => if negative then MIN_INT64 else MAX_INT64
    case Value(n) => ScanIntInRange(s, MIN_INT64, MAX_INT64); n
  }

  lemma ScanIntInRange(s: string, lo: int, hi: int)
    requires lo < 0 < hi
    ensures var r := ScanInt(s, lo, hi); r.Value? ==> lo <= r.n <= hi
  {
  }

  // ----- what is printed parses back -----

  /** Reading one more digit continues from the value of the digits before it. */
  lemma {:induction false} ScanDigitsSnoc(s: string, c: char, acc: nat)
    ensures ScanDigits(s + [c], acc) ==
            (match ScanDigits(s, acc)
             case Value(n) => ScanDigits([c], n)
             case other => other)
  {
    if s == [] {
      assert s + [c] == [c];
    } else {
      assert (s + [c])[0] == s[0] && (s + [c])[1..] == s[1..] + [c];
      if IsDigit(s[0]) && 10 * acc + DigitValue(s[0]) <= MAX_UINT64 {
        ScanDigitsSnoc(s[1..], c, 10 * acc + DigitValue(s[0]));
      }
    }
  }

  lemma ScanOneDigit(c: char, acc: nat)
    ensures ScanDigits([c], acc) ==
            if !IsDigit(c) then Syntax
            else if 10 * acc + DigitValue(c) > MAX_UINT64 then Range(false)
            else Value(10 * acc + DigitValue(c))
  {
  }

  lemma {:induction false} ScanDigitsOfPrinted(n: nat)
    requires n <= MAX_UINT64
    ensures ScanDigits(Digits(n), 0) == Value(n)
  {
    if n < 10 {
    } else {
      ScanDigitsOfPrinted(n / 10);
      ScanDigitsSnoc(Digits(n / 10), DigitChar(n % 10), 0);
      ScanOneDigit(DigitChar(n % 10), n / 10);
    }
  }

  lemma ScanIntOfPrinted(n: int, lo: int, hi: int)
    requires -MAX_UINT64 <= lo < 0 < hi <= MAX_UINT64
    ensures ScanInt(Itoa(n), lo, hi) == Value(n) <==> lo <= n <= hi
  {
    if n < 0 {
      assert Itoa(n)[1..] == Digits(-n);
      if -n <= MAX_UINT64 { ScanDigitsOfPrinted(-n); }
    } else {
      if n <= MAX_UINT64 { ScanDigitsOfPrinted(n); }
    }
  }

  // ----- which texts are printed by some number -----

  predicate AllDigits(s: string) {
    forall c <- s :: IsDigit(c)
  }

  predicate CanonicalNatural(s: string) {
    s != [] && AllDigits(s) && (s[0] == '0' ==> |s| == 1)
  }

  /** No leading zeros, no plus sign, no minus zero. */
  predicate CanonicalDecimal(s: string) {
    CanonicalNatural(s) ||
    (s != [] && s[0] == '-' && CanonicalNatural(s[1..]) && s[1] != '0')
  }

  lemma {:induction false} DigitsAreCanonical(n: nat)
    ensures CanonicalNatural(Digits(n))
    ensures n > 0 ==> Digits(n)[0] != '0'
  {
    if n < 10 {
    } else {
      DigitsAreCanonical(n / 10);
    }
  }

  lemma ItoaIsCanonical(n: int)
    ensures CanonicalDecimal(Itoa(n))
  {
    if n < 0 {
      DigitsAreCanonical(-n);
      assert Itoa(n)[1..] == Digits(-n);
    } else {
      DigitsAreCanonical(n);
    }
  }

  /** The only text that reads as n and has no leading zero is the printed one. */
  lemma {:induction false} CanonicalNaturalIsPrinted(s: string, n: nat)
    requires CanonicalNatural(s) && ScanDigits(s, 0) == Value(n)
    ensures s == Digits(n) && (s[0] != '0' ==> n > 0)
  {
    var front, c := s[..|s| - 1], s[|s| - 1];
    assert s == front + [c] && c in s;
    ScanDigitsSnoc(front, c, 0);
    if front == [] {
      ScanOneDigit(c, 0);
      assert s == [c];
    } else {
      assert AllDigits(front) && front[0] == s[0];
      var m := ScanDigits(front, 0).n;
      ScanOneDigit(c, m);
      CanonicalNaturalIsPrinted(front, m);
      assert n / 10 == m && n % 10 == DigitValue(c);
    }
  }

  /** A text that reads as an integer is what that integer prints exactly when it is canonical. */
  lemma PrintedIffCanonical(s: string, lo: int, hi: int)
    requires lo < 0 < hi
    requires ScanInt(s, lo, hi).Value?
    ensures Itoa(ScanInt(s, lo, hi).n) == s <==> CanonicalDecimal(s)
  {
    var n := ScanInt(s, lo, hi).n;
    ItoaIsCanonical(n);
    if CanonicalDecimal(s) {
      assert CanonicalNatural(s) ==> IsDigit(s[0]) by { assert s[0] in s; }
      if s[0] == '-' {
        CanonicalNaturalIsPrinted(s[1..], -n);
        assert s == "-" + s[1..];
      } else {
        CanonicalNaturalIsPrinted(s, n);
      }
    }
  }
}
