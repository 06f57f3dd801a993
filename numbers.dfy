/**
 * The integer conversions of the C++ library that the database relies on:
 * `std::stoi`, `std::stol` and `std::stoul`. Each skips leading `isspace`
 * characters, accepts one optional sign and then needs at least one decimal digit;
 * whatever follows the digits is ignored. No digit raises `invalid_argument`
 * (modelled as `None`), and a value the target type cannot hold raises
 * `out_of_range` (also `None`). `stoul` accepts a minus sign and wraps the negated
 * magnitude modulo 2^64, as `strtoul` does.
 */
module Numbers {
  import opened Common
  import Streams

  const INT_MIN: int := -0x8000_0000
  const INT_MAX: int := 0x7FFF_FFFF
  const LONG_MIN: int := -0x8000_0000_0000_0000
  const LONG_MAX: int := 0x7FFF_FFFF_FFFF_FFFF
  const ULONG_MAX: int := 0xFFFF_FFFF_FFFF_FFFF

  /** The value of a string of decimal digits, most significant first. */
  function DigitsValue(d: string): (v: nat)
    requires forall k :: 0 <= k < |d| ==> IsDigit(d[k])
  {
    if d == [] then 0
    else
      var last := d[|d| - 1];
      assert IsDigit(last);
      DigitsValue(d[..|d| - 1]) * 10 + (last as int - '0' as int)
  }

  function DigitEnd(s: string, i: nat): (j: nat)
    requires i <= |s|
    decreases |s| - i
    ensures i <= j <= |s|
    ensures forall k :: i <= k < j ==> IsDigit(s[k])
    ensures j < |s| ==> !IsDigit(s[j])
  {
    if i == |s| || !IsDigit(s[i]) then i else DigitEnd(s, i + 1)
  }

  /** The prefix `strtol` reads, as an unbounded integer; `None` when there is no digit. */
  function ScanInteger(s: string): (r: Option<int>)
  {
    var b := Streams.SkipSpace(s, 0);
    var negative := b < |s| && s[b] == '-';
    var d := if b < |s| && (s[b] == '-' || s[b] == '+') then b + 1 else b;
    var e := DigitEnd(s, d);
    if e == d then None
    else
      var m: int := DigitsValue(s[d..e]);
      Some(if negative then -m else m)
  }

  /** `std::stoi`. */
  function Stoi(s: string): (r: Option<int>)
    ensures r.Some? <==> ScanInteger(s).Some? && INT_MIN <= ScanInteger(s).value <= INT_MAX
    ensures r.Some? ==> r == ScanInteger(s)
  {
    match ScanInteger(s)
    case None => None
    case Some(v) => if INT_MIN <= v <= INT_MAX then Some(v) else None
  }

  /** `std::stol` on a 64-bit `long`. */
  function Stol(s: string): (r: Option<int>)
    ensures r.Some? <==> ScanInteger(s).Some? && LONG_MIN <= ScanInteger(s).value <= LONG_MAX
    ensures r.Some? ==> r == ScanInteger(s)
  {
    match ScanInteger(s)
    case None => None
    case Some(v) => if LONG_MIN <= v <= LONG_MAX then Some(v) else None
  }

  /** `std::stoul` on a 64-bit `unsigned long`. */
  function Stoul(s: string): (r: Option<nat>)
    ensures r.Some? <==> ScanInteger(s).Some? && -ULONG_MAX <= ScanInteger(s).value <= ULONG_MAX
    ensures r.Some? ==> r.value <= ULONG_MAX
    ensures r.Some? && ScanInteger(s).value >= 0 ==> r.value == ScanInteger(s).value
    ensures r.Some? && ScanInteger(s).value < 0 ==> r.value == ULONG_MAX + 1 + ScanInteger(s).value
  {
    match ScanInteger(s)
    case None => None
    case Some(v) => if -ULONG_MAX <= v <= ULONG_MAX then Some(v % (ULONG_MAX + 1)) else None
  }

  lemma {:induction false} DigitsValueOfNat(n: nat)
    ensures DigitsValue(NatToString(n)) == n
  {
    var r := NatToString(n);
    if n >= 10 {
      DigitsValueOfNat(n / 10);
      assert r[..|r| - 1] == NatToString(n / 10);
    }
  }

  /** A plain run of digits scans to its value. */
  lemma ScanDigits(s: string)
    requires s != [] && forall k :: 0 <= k < |s| ==> IsDigit(s[k])
    ensures ScanInteger(s) == Some(DigitsValue(s))
  {
    assert Streams.SkipSpace(s, 0) == 0;
    DigitEndAll(s, 0);
    assert s[0..|s|] == s;
  }

  lemma ScanNat(s: string, n: nat)
    requires s == NatToString(n)
    ensures ScanInteger(s) == Some(n)
  {
    ScanDigits(s);
    DigitsValueOfNat(n);
  }

  lemma ScanNegative(s: string, n: nat)
    requires n > 0 && s == "-" + NatToString(n)
    ensures ScanInteger(s) == Some(-(n as int))
  {
    assert Streams.SkipSpace(s, 0) == 0;
    DigitEndAll(s, 1);
    assert s[1..|s|] == NatToString(n);
    DigitsValueOfNat(n);
  }

  lemma {:induction false} DigitEndAll(s: string, i: nat)
    requires i <= |s|
    requires forall k :: i <= k < |s| ==> IsDigit(s[k])
    decreases |s| - i
    ensures DigitEnd(s, i) == |s|
  {
    if i < |s| {
      DigitEndAll(s, i + 1);
    }
  }

  /** `std::stoi` reads back what `std::to_string` writes, for every `int`. */
  lemma StoiOfIntToString(i: int)
    requires INT_MIN <= i <= INT_MAX
    ensures Stoi(IntToString(i)) == Some(i)
  {
    if i < 0 {
      ScanNegative(IntToString(i), -i);
    } else {
      ScanNat(IntToString(i), i);
    }
  }

  /** `std::stoul` reads back what `std::to_string` writes, for every `unsigned long`. */
  lemma StoulOfNatToString(n: nat)
    requires n <= ULONG_MAX
    ensures Stoul(NatToString(n)) == Some(n)
  {
    ScanNat(NatToString(n), n);
  }

  /** `std::stol` reads back what `std::to_string` writes, for every `long`. */
  lemma StolOfIntToString(i: int)
    requires LONG_MIN <= i <= LONG_MAX
    ensures Stol(IntToString(i)) == Some(i)
  {
    if i < 0 {
      ScanNegative(IntToString(i), -i);
    } else {
      ScanNat(IntToString(i), i);
    }
  }

  predicate AllZeros(z: string)
  {
    forall k :: 0 <= k < |z| ==> z[k] == '0'
  }

  lemma {:induction false} DigitsValueZeros(z: string)
    requires AllZeros(z)
    ensures DigitsValue(z) == 0
  {
    if z != [] {
      DigitsValueZeros(z[..|z| - 1]);
    }
  }

  lemma {:induction false} DigitsValueLeadingZeros(z: string, d: string)
    requires AllZeros(z)
    requires forall k :: 0 <= k < |d| ==> IsDigit(d[k])
    ensures DigitsValue(z + d) == DigitsValue(d)
  {
    if d == [] {
      assert z + d == z;
      DigitsValueZeros(z);
    } else {
      assert (z + d)[..|z + d| - 1] == z + d[..|d| - 1];
      DigitsValueLeadingZeros(z, d[..|d| - 1]);
    }
  }

  /** Leading zeros are dropped: `stoul` of "000…0" followed by the decimal of n is n. */
  lemma StoulLeadingZeros(z: string, n: nat)
    requires AllZeros(z) && n <= ULONG_MAX
    ensures Stoul(z + NatToString(n)) == Some(n)
  {
    var s := z + NatToString(n);
    assert forall k :: 0 <= k < |s| ==> IsDigit(s[k]);
    ScanDigits(s);
    DigitsValueLeadingZeros(z, NatToString(n));
    DigitsValueOfNat(n);
  }

  /** Text after the digits is ignored, and text without a digit is refused. */
  lemma StoiTrailingText()
    ensures Stoi("12ab") == Some(12)
    ensures Stoi("abc") == None
  {
    var t := "12ab";
    assert Streams.SkipSpace(t, 0) == 0;
    assert DigitEnd(t, 0) == 2;
    assert t[0..2] == "12" && "12"[..1] == "1" && "1"[..0] == "";
    var u := "abc";
    assert Streams.SkipSpace(u, 0) == 0;
    assert DigitEnd(u, 0) == 0;
  }

  /** A minus sign wraps: `stoul("-1")` is the largest `unsigned long`. */
  lemma StoulMinusOne()
    ensures Stoul("-1") == Some(ULONG_MAX)
  {
    var m := "-1";
    assert Streams.SkipSpace(m, 0) == 0;
    assert DigitEnd(m, 1) == 2;
    assert m[1..2] == "1" && "1"[..0] == "";
  }
}
