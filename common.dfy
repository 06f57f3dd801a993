/**
 * Shared vocabulary: optional and fallible results, and the character classes and
 * string searches that the C++ standard library provides to the radio simulator
 * (isspace, std::string::find, C-string truncation at NUL, decimal formatting).
 */
module Common {

  datatype Option<+T> = None | Some(value: T)

  datatype Result<+T, +E> = Ok(value: T) | Err(error: E)

  /** `isspace` in the "C" locale: space, \t, \n, \v, \f, \r. */
  predicate IsSpace(c: char)
  {
    c == ' ' || c == '\t' || c == '\n' || c == '\U{000B}' || c == '\U{000C}' || c == '\r'
  }

  /** The characters that `.` does not match in an ECMAScript std::regex. */
  predicate IsLineTerminator(c: char)
  {
    c == '\n' || c == '\r'
  }

  predicate IsDigit(c: char)
  {
    '0' <= c <= '9'
  }

  predicate NoSpace(s: string)
  {
    forall i :: 0 <= i < |s| ==> !IsSpace(s[i])
  }

  predicate NoLineTerminator(s: string)
  {
    forall i :: 0 <= i < |s| ==> !IsLineTerminator(s[i])
  }

  predicate OccursAt(s: string, pat: string, p: nat)
  {
    p + |pat| <= |s| && s[p..p + |pat|] == pat
  }

  /** `s.find(pat, from)`: the first position at or after `from` where `pat` occurs. */
  function FindFrom(s: string, pat: string, from: nat): (r: Option<nat>)
    decreases |s| - from
    ensures r.Some? ==> from <= r.value && OccursAt(s, pat, r.value)
    ensures r.Some? ==> forall q :: from <= q < r.value ==> !OccursAt(s, pat, q)
    ensures r.None? ==> forall q :: from <= q ==> !OccursAt(s, pat, q)
  {
    if from + |pat| > |s| then None
    else if s[from..from + |pat|] == pat then Some(from)
    else FindFrom(s, pat, from + 1)
  }

  /** `s.find(pat)`. */
  function Find(s: string, pat: string): (r: Option<nat>)
    ensures r.Some? ==> OccursAt(s, pat, r.value)
    ensures r.Some? ==> forall q :: 0 <= q < r.value ==> !OccursAt(s, pat, q)
    ensures r.None? <==> forall q :: 0 <= q ==> !OccursAt(s, pat, q)
  {
    FindFrom(s, pat, 0)
  }

  predicate IsPrefix(pre: string, s: string)
  {
    |pre| <= |s| && s[..|pre|] == pre
  }

  /** The text a `const char*` denotes: everything before the first NUL. */
  function CString(s: string): (r: string)
    ensures IsPrefix(r, s)
    ensures forall i :: 0 <= i < |r| ==> r[i] != '\0'
    ensures |r| < |s| ==> s[|r|] == '\0'
  {
    if s == [] then []
    else if s[0] == '\0' then []
    else [s[0]] + CString(s[1..])
  }

  /** The decimal digit character of `d`. */
  function DigitChar(d: nat): (c: char)
    requires d < 10
    ensures IsDigit(c) && c as int - '0' as int == d
  {
    ('0' as int + d) as char
  }

  /** Canonical decimal text of a natural number (`std::to_string` on an unsigned value). */
  function NatToString(n: nat): (r: string)
    decreases n
    ensures |r| >= 1
    ensures forall i :: 0 <= i < |r| ==> IsDigit(r[i])
    ensures |r| > 1 ==> r[0] != '0'
    ensures n == 0 <==> r == "0"
  {
    if n < 10 then [DigitChar(n)] else NatToString(n / 10) + [DigitChar(n % 10)]
  }

  /** Canonical decimal text of an integer (`std::to_string` on a signed value). */
  function IntToString(i: int): (r: string)
    ensures |r| >= 1
    ensures i < 0 <==> r[0] == '-'
    ensures i >= 0 ==> r == NatToString(i)
    ensures i < 0 ==> r[1..] == NatToString(-i)
  {
    if i < 0 then "-" + NatToString(-i) else NatToString(i)
  }

  lemma AppendAssoc<T>(a: seq<T>, b: seq<T>, c: seq<T>)
    ensures (a + b) + c == a + (b + c)
  {
  }

  /** A non-empty sequence is its front followed by its last element. */
  lemma SplitLast<T>(s: seq<T>)
    requires s != []
    ensures s == s[..|s| - 1] + [s[|s| - 1]]
  {
  }

  /** Multiplying by a natural number keeps the order. */
  lemma {:induction false} MulMono(a: int, b: int, d: nat)
    requires a <= b
    ensures a * d <= b * d
  {
    var k := b - a;
    assert b * d == a * d + k * d;
  }

  /** Quotient and remainder are the unique q, r with x == q * d + r and 0 <= r < d. */
  lemma {:induction false} DivUnique(x: int, d: int, q: int, r: int)
    requires d > 0 && 0 <= r < d && x == q * d + r
    ensures x / d == q && x % d == r
  {
    var q', r' := x / d, x % d;
    assert x == q' * d + r';
    if q' > q {
      MulMono(q + 1, q', d);
    } else if q' < q {
      MulMono(q' + 1, q, d);
    }
  }

  /** An index below n * d lies in one of the n blocks of d. */
  lemma {:induction false} DivBelow(j: nat, n: nat, d: nat)
    requires j < n * d
    ensures d > 0 && j / d < n
  {
    if d > 0 {
      var q := j / d;
      assert j == q * d + j % d;
      if q >= n {
        MulMono(n, q, d);
      }
    }
  }

  lemma {:induction false} DivStep(x: int, d: nat)
    requires d > 0 && x >= 0
    ensures (x + d) / d == x / d + 1
  {
    var q, r := x / d, x % d;
    assert x == q * d + r;
    assert x + d == (q + 1) * d + r;
    DivUnique(x + d, d, q + 1, r);
  }

  /** Offset s of block i is position i * d + s. */
  lemma {:induction false} DivOfWindow(i: nat, d: nat, s: nat)
    requires s < d
    ensures (i * d + s) / d == i && (i * d + s) % d == s
  {
    DivUnique(i * d + s, d, i, s);
  }

  /** When d divides n, block w starts inside [0, n) exactly when w is one of the n / d blocks. */
  lemma {:induction false} BlockIndex(n: nat, d: nat, w: nat)
    requires d > 0 && n % d == 0
    ensures w * d < n <==> w < n / d
    ensures w < n / d ==> w * d + d <= n
  {
    assert n == (n / d) * d;
    if w < n / d {
      MulMono(w + 1, n / d, d);
      assert (w + 1) * d == w * d + d;
    } else {
      MulMono(n / d, w, d);
    }
  }
}
