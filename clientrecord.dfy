/**
 * The two free functions of the client that prepare a `db write` line: the force flag
 * is found and its two characters removed from a copy, trailing spaces are stripped,
 * and the record pattern `^\s*(/\S+)\s*(\S+)\s*(.+)$` splits the rest into key, type
 * and value. Because every `\s*` may match nothing, a line can split in several ways;
 * `std::regex` (ECMAScript grammar) backtracks and takes the first split its greedy
 * quantifiers try.
 */
module ClientRecord {
  import opened Common
  import opened Streams

  // ---------------------------------------------------------------- the force flag

  /** `std::regex_replace(s, std::regex(" +$"), "")`: the trailing run of spaces is removed. */
  function TrimTrailingSpaces(s: string): (r: string)
    ensures IsPrefix(r, s)
    ensures r == [] || r[|r| - 1] != ' '
    ensures forall k :: |r| <= k < |s| ==> s[k] == ' '
  {
    if s == [] || s[|s| - 1] != ' ' then s else TrimTrailingSpaces(s[..|s| - 1])
  }

  /** Stripping twice strips nothing more. */
  lemma TrimIdempotent(s: string)
    ensures TrimTrailingSpaces(TrimTrailingSpaces(s)) == TrimTrailingSpaces(s)
  {
  }

  /** The three facts of `TrimTrailingSpaces` single out its result. */
  lemma {:induction false} TrimUnique(s: string, r: string)
    requires IsPrefix(r, s) && (r == [] || r[|r| - 1] != ' ')
    requires forall k :: |r| <= k < |s| ==> s[k] == ' '
    decreases |s|
    ensures r == TrimTrailingSpaces(s)
  {
    if |r| < |s| {
      assert s[|s| - 1] == ' ';
      assert IsPrefix(r, s[..|s| - 1]) by {
        assert s[..|s| - 1][..|r|] == s[..|r|];
      }
      TrimUnique(s[..|s| - 1], r);
    } else {
      assert r == s;
    }
  }

  /**
   * The client's `checkForceAndErase` on a copy of the input: the first "-f" and
   * nothing else is erased (the space before it stays), the flag is set when it was
   * there (and otherwise keeps the caller's value), and trailing spaces go.
   */
  function ForceAndErase(input: string, force: bool): (r: (string, bool))
    ensures r.1 <==> force || Find(input, "-f").Some?
    ensures Find(input, "-f").None? ==> r.0 == TrimTrailingSpaces(input)
    ensures Find(input, "-f").Some? ==>
      var p := Find(input, "-f").value;
      r.0 == TrimTrailingSpaces(input[..p] + input[p + 2..])
    ensures r.0 == [] || r.0[|r.0| - 1] != ' '
  {
    match Find(input, "-f")
    case None => (TrimTrailingSpaces(input), force)
    case Some(p) => (TrimTrailingSpaces(input[..p] + input[p + 2..]), true)
  }

  /** Unlike the console's rule, a flag at the very start is not a fault: the rest is kept. */
  lemma ForceAtStart(rest: string)
    requires rest == [] || rest[|rest| - 1] != ' '
    ensures ForceAndErase("-f" + rest, false) == (rest, true)
  {
    var s := "-f" + rest;
    assert OccursAt(s, "-f", 0);
    assert s[..0] + s[2..] == rest;
  }

  /** The flag typed before the record, `-f <record>`, leaves a record with one leading space. */
  lemma ForceBeforeRecord(rec: string)
    requires rec != [] && rec[|rec| - 1] != ' '
    ensures ForceAndErase("-f " + rec, false) == (" " + rec, true)
  {
    var s := "-f " + rec;
    assert OccursAt(s, "-f", 0);
    assert s[..0] + s[2..] == " " + rec;
  }

  // ---------------------------------------------------------------- the record pattern

  predicate SpacesBetween(s: string, i: nat, j: nat)
    requires i <= j <= |s|
  {
    forall k :: i <= k < j ==> IsSpace(s[k])
  }

  predicate WordBetween(s: string, i: nat, j: nat)
    requires i <= j <= |s|
  {
    forall k :: i <= k < j ==> !IsSpace(s[k])
  }

  predicate NoTerminatorFrom(s: string, i: nat)
    requires i <= |s|
  {
    forall k :: i <= k < |s| ==> !IsLineTerminator(s[k])
  }

  /**
   * One way of matching the pattern: the leading `\s*` ends at `a`, the groups are
   * `[a, e)`, `[f, g)` and `[h, |s|)`, and the spaces between them are `[e, f)` and `[g, h)`.
   */
  datatype Split = Split(a: nat, e: nat, f: nat, g: nat, h: nat)

  /** Reference: `p` is a match of `^\s*(/\S+)\s*(\S+)\s*(.+)$` on `s`. */
  predicate IsSplit(s: string, p: Split)
  {
    p.a + 2 <= p.e <= p.f < p.g <= p.h < |s| &&
    SpacesBetween(s, 0, p.a) && s[p.a] == '/' && WordBetween(s, p.a, p.e) &&
    SpacesBetween(s, p.e, p.f) && WordBetween(s, p.f, p.g) &&
    SpacesBetween(s, p.g, p.h) && NoTerminatorFrom(s, p.h)
  }

  /**
   * `p` is tried no later than `q`: a longer key first, then a longer type, then a longer
   * run of spaces before the value.
   */
  predicate TriedFirst(p: Split, q: Split)
  {
    p.e > q.e || (p.e == q.e && (p.g > q.g || (p.g == q.g && p.h >= q.h)))
  }

  /** Where `\s*(.+)$` can start the value once the type ends at `g`: the furthest start that works. */
  function ValueStart(s: string, g: nat): (r: Option<nat>)
    requires g <= |s|
    ensures r.Some? ==> g <= r.value < |s| && SpacesBetween(s, g, r.value) && NoTerminatorFrom(s, r.value)
    ensures forall h :: g <= h < |s| && SpacesBetween(s, g, h) && NoTerminatorFrom(s, h) ==>
      r.Some? && h <= r.value
  {
    var m := SkipSpace(s, g);
    if m < |s| then (if NoTerminatorFrom(s, m) then Some(m) else None)
    else if g < |s| && !IsLineTerminator(s[|s| - 1]) then Some(|s| - 1)
    else None
  }

  /** The type ends at the furthest `g` in `(f, top]` after which a value can start. */
  function TypeEnd(s: string, f: nat, top: nat): (r: Option<nat>)
    requires f < top <= |s|
    decreases top
    ensures r.Some? ==> f < r.value <= top && ValueStart(s, r.value).Some?
    ensures r.Some? ==> forall g :: r.value < g <= top ==> ValueStart(s, g).None?
    ensures r.None? ==> forall g :: f < g <= top ==> ValueStart(s, g).None?
  {
    if ValueStart(s, top).Some? then Some(top)
    else if top - 1 > f then TypeEnd(s, f, top - 1)
    else None
  }

  /** Once the key ends at `e`, the type starts after the spaces and may be any prefix of the next word. */
  function TypeEndAfter(s: string, e: nat): (r: Option<nat>)
    requires e <= |s|
    ensures r.Some? ==> SkipSpace(s, e) < r.value <= TokenEnd(s, SkipSpace(s, e))
  {
    var f := SkipSpace(s, e);
    if f < |s| then TypeEnd(s, f, TokenEnd(s, f)) else None
  }

  /** The split whose key ends at `e`, when the rest of the line can follow such a key. */
  function SplitAt(s: string, a: nat, e: nat): (p: Split)
    requires e <= |s| && TypeEndAfter(s, e).Some?
  {
    var g := TypeEndAfter(s, e).value;
    Split(a, e, SkipSpace(s, e), g, ValueStart(s, g).value)
  }

  /**
   * The furthest position in `[lo, top]` that passes `ok`: a greedy quantifier gives back
   * one character at a time until the rest of the pattern can follow.
   */
  function Furthest(ok: nat -> bool, lo: nat, top: nat): (r: Option<nat>)
    requires lo <= top
    decreases top
    ensures r.Some? ==> lo <= r.value <= top && ok(r.value)
    ensures r.Some? ==> forall e :: r.value < e <= top ==> !ok(e)
    ensures r.None? ==> forall e :: lo <= e <= top ==> !ok(e)
  {
    if ok(top) then Some(top)
    else if top > lo then Furthest(ok, lo, top - 1)
    else None
  }

  /** The key may end at `e`: type and value can still follow. */
  predicate KeyCanEnd(s: string, e: nat)
  {
    e <= |s| && TypeEndAfter(s, e).Some?
  }

  function KeyCanEndIn(s: string): nat -> bool
  {
    (e: nat) => KeyCanEnd(s, e)
  }

  /** The key ends at the furthest `e` in `[a + 2, top]` that the rest of the line can follow. */
  function KeyEnd(s: string, a: nat, top: nat): (r: Option<nat>)
    requires a + 2 <= top <= |s|
    ensures r.Some? ==> a + 2 <= r.value <= top && TypeEndAfter(s, r.value).Some?
  {
    var r := Furthest(KeyCanEndIn(s), a + 2, top);
    assert r.Some? ==> KeyCanEndIn(s)(r.value);
    r
  }

  /** No key end past the one `KeyEnd` picks can be followed by the rest of the line. */
  lemma KeyEndFurthest(s: string, a: nat, top: nat)
    requires a + 2 <= top <= |s|
    ensures KeyEnd(s, a, top).Some? ==>
      forall e :: KeyEnd(s, a, top).value < e <= top ==> TypeEndAfter(s, e).None?
    ensures KeyEnd(s, a, top).None? ==> forall e :: a + 2 <= e <= top ==> TypeEndAfter(s, e).None?
  {
    var r := KeyEnd(s, a, top);
    var lo := if r.Some? then r.value + 1 else a + 2;
    forall e | lo <= e <= top
      ensures TypeEndAfter(s, e).None?
    {
      assert !KeyCanEndIn(s)(e);
    }
  }

  /** `std::regex_search` with the record pattern: the first split the backtracking tries. */
  function MatchSplit(s: string): Option<Split>
  {
    var a := SkipSpace(s, 0);
    if a < |s| && s[a] == '/' && TokenEnd(s, a) >= a + 2 then
      match KeyEnd(s, a, TokenEnd(s, a))
      case None => None
      case Some(e) => Some(SplitAt(s, a, e))
    else None
  }

  lemma {:induction false} SkipSpaceAt(s: string, i: nat, j: nat)
    requires i <= j < |s| && SpacesBetween(s, i, j) && !IsSpace(s[j])
    decreases j - i
    ensures SkipSpace(s, i) == j
  {
    if i < j {
      SkipSpaceAt(s, i + 1, j);
    }
  }

  lemma {:induction false} TokenEndCovers(s: string, i: nat, j: nat)
    requires i <= j <= |s| && WordBetween(s, i, j)
    decreases j - i
    ensures j <= TokenEnd(s, i)
  {
    if i < j {
      TokenEndCovers(s, i + 1, j);
    }
  }

  /** A split the search returns matches the pattern. */
  lemma MatchSplitSound(s: string)
    requires MatchSplit(s).Some?
    ensures IsSplit(s, MatchSplit(s).value)
  {
    var a := SkipSpace(s, 0);
    var e := KeyEnd(s, a, TokenEnd(s, a)).value;
    var f := SkipSpace(s, e);
    var g := TypeEndAfter(s, e).value;
    var p := MatchSplit(s).value;
    assert p == Split(a, e, f, g, ValueStart(s, g).value);
    assert WordBetween(s, a, e);
    assert WordBetween(s, f, g);
  }

  /**
   * Every match of the pattern is one the search reaches no earlier than its answer: the
   * search finds a split whenever there is one, and it is the first in backtracking order.
   */
  lemma MatchSplitFirst(s: string, q: Split)
    requires IsSplit(s, q)
    ensures MatchSplit(s).Some? && TriedFirst(MatchSplit(s).value, q)
  {
    var a := SkipSpace(s, 0);
    SkipSpaceAt(s, 0, q.a);
    TokenEndCovers(s, a, q.e);
    SkipSpaceAt(s, q.e, q.f);
    TokenEndCovers(s, q.f, q.g);
    assert ValueStart(s, q.g).Some? && q.h <= ValueStart(s, q.g).value;
    assert TypeEndAfter(s, q.e).Some?;
    KeyEndFurthest(s, a, TokenEnd(s, a));
    var e := KeyEnd(s, a, TokenEnd(s, a)).value;
    assert q.e <= e;
    if e == q.e {
      var g := TypeEndAfter(s, e).value;
      assert q.g <= g;
    }
  }

  /** The matched groups: key, type and value. */
  datatype Fields = Fields(key: string, valueType: string, value: string)

  function MatchRecord(s: string): Option<Fields>
  {
    match MatchSplit(s)
    case None => None
    case Some(p) =>
      MatchSplitSound(s);
      Some(Fields(s[p.a..p.e], s[p.f..p.g], s[p.h..]))
  }

  /**
   * The pattern matches iff the line splits at all, and then the groups are those of the
   * first split in backtracking order.
   */
  lemma MatchRecordMeaning(s: string)
    ensures MatchRecord(s).Some? <==> exists q :: IsSplit(s, q)
    ensures MatchRecord(s).Some? ==> (IsSplit(s, MatchSplit(s).value) &&
      forall q :: IsSplit(s, q) ==> TriedFirst(MatchSplit(s).value, q))
  {
    if MatchSplit(s).Some? {
      MatchSplitSound(s);
    }
    forall q | IsSplit(s, q)
      ensures MatchSplit(s).Some? && TriedFirst(MatchSplit(s).value, q)
    {
      MatchSplitFirst(s, q);
    }
  }

  /** Two matches start their key at the same place, and the type right after the same spaces. */
  lemma SplitsAgree(s: string, p: Split, q: Split)
    requires IsSplit(s, p) && IsSplit(s, q)
    ensures p.a == q.a && (p.e == q.e ==> p.f == q.f)
  {
    SkipSpaceAt(s, 0, p.a);
    SkipSpaceAt(s, 0, q.a);
    SkipSpaceAt(s, p.e, p.f);
    SkipSpaceAt(s, q.e, q.f);
  }

  /** A key cannot run past a space. */
  lemma KeyStops(s: string, p: Split, q: Split, e: nat)
    requires IsSplit(s, p) && IsSplit(s, q) && q.a < e < |s| && IsSpace(s[e])
    ensures p.e <= e
  {
    SplitsAgree(s, p, q);
  }

  /** The first match, when a match `q` has its key and type each followed by a space. */
  lemma FirstOfSpaced(s: string, q: Split) returns (p: Split)
    requires IsSplit(s, q) && q.e < q.f && IsSpace(s[q.e])
    ensures MatchSplit(s) == Some(p) && IsSplit(s, p)
    ensures p.a == q.a && p.e == q.e && p.f == q.f && p.g >= q.g
    ensures p.g == q.g ==> p.h >= q.h
  {
    MatchSplitFirst(s, q);
    MatchSplitSound(s);
    p := MatchSplit(s).value;
    KeyStops(s, p, q, q.e);
    SplitsAgree(s, p, q);
  }

  /** Key, type and value typed with single spaces come back as the three groups. */
  lemma TypedRecord(key: string, valueType: string, value: string)
    requires |key| >= 2 && key[0] == '/' && NoSpace(key)
    requires |valueType| > 0 && NoSpace(valueType)
    requires |value| > 0 && !IsSpace(value[0]) && NoLineTerminator(value)
    ensures MatchRecord(key + " " + valueType + " " + value) == Some(Fields(key, valueType, value))
  {
    var s := key + " " + valueType + " " + value;
    var e := |key|;
    var g := e + 1 + |valueType|;
    var q := Split(0, e, e + 1, g, g + 1);
    assert s[..e] == key && s[e + 1..g] == valueType && s[g + 1..] == value;
    assert forall k :: 0 <= k < e ==> s[k] == key[k];
    assert forall k :: e + 1 <= k < g ==> s[k] == valueType[k - e - 1];
    assert forall k :: g + 1 <= k < |s| ==> s[k] == value[k - g - 1];
    assert IsSplit(s, q);
    assert IsSpace(s[g]) && !IsSpace(s[g + 1]);
    var p := FirstOfSpaced(s, q);
  }

  /**
   * With nothing typed after the type, the pattern still matches: backtracking gives the
   * type's last character to the value.
   */
  lemma MissingValue(key: string, t: string)
    requires |key| >= 2 && key[0] == '/' && NoSpace(key)
    requires |t| >= 2 && NoSpace(t)
    ensures MatchRecord(key + " " + t) == Some(Fields(key, t[..|t| - 1], [t[|t| - 1]]))
  {
    var s := key + " " + t;
    var e := |key|;
    var g := |s| - 1;
    var q := Split(0, e, e + 1, g, g);
    assert s[..e] == key && s[e + 1..g] == t[..|t| - 1] && s[g..] == [t[|t| - 1]];
    assert forall k :: 0 <= k < e ==> s[k] == key[k];
    assert forall k :: e + 1 <= k < |s| ==> s[k] == t[k - e - 1];
    assert IsSplit(s, q);
    var p := FirstOfSpaced(s, q);
  }
}
