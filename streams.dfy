/**
 * Whitespace-token extraction from a `std::stringstream`, as the command routers of
 * the server, the database console and the client use it: `stream >> word` skips
 * `isspace` characters and reads the next maximal run of non-space characters.
 * When no token is left, the stream fails and the target keeps its previous value;
 * every later extraction on a failed stream leaves its target alone too.
 */
module Streams {
  import opened Common

  datatype Stream = Stream(text: string, pos: nat, good: bool)
  {
    predicate Valid()
    {
      pos <= |text|
    }
  }

  /** A fresh `std::stringstream` over `s`. */
  function Open(s: string): (st: Stream)
    ensures st.Valid() && st.good && st.pos == 0 && st.text == s
  {
    Stream(s, 0, true)
  }

  /** The first non-space position at or after `i`. */
  function SkipSpace(s: string, i: nat): (j: nat)
    requires i <= |s|
    decreases |s| - i
    ensures i <= j <= |s|
    ensures forall k :: i <= k < j ==> IsSpace(s[k])
    ensures j < |s| ==> !IsSpace(s[j])
  {
    if i == |s| || !IsSpace(s[i]) then i else SkipSpace(s, i + 1)
  }

  /** The end of the run of non-space characters starting at `i`. */
  function TokenEnd(s: string, i: nat): (j: nat)
    requires i <= |s|
    decreases |s| - i
    ensures i <= j <= |s|
    ensures forall k :: i <= k < j ==> !IsSpace(s[k])
    ensures j < |s| ==> IsSpace(s[j])
  {
    if i == |s| || IsSpace(s[i]) then i else TokenEnd(s, i + 1)
  }

  /** Reference definition: the whitespace-separated words of `s[i..]`, in order. */
  function TokensFrom(s: string, i: nat): seq<string>
    requires i <= |s|
    decreases |s| - i
  {
    var b := SkipSpace(s, i);
    if b == |s| then [] else
      var e := TokenEnd(s, b);
      [s[b..e]] + TokensFrom(s, e)
  }

  /** Every word is non-empty and holds no space. */
  lemma {:induction false} TokensAreWords(s: string, i: nat)
    requires i <= |s|
    decreases |s| - i
    ensures forall k :: 0 <= k < |TokensFrom(s, i)| ==> |TokensFrom(s, i)[k]| > 0 && NoSpace(TokensFrom(s, i)[k])
  {
    var b := SkipSpace(s, i);
    if b < |s| {
      TokensAreWords(s, TokenEnd(s, b));
    }
  }

  function Tokens(s: string): seq<string>
  {
    TokensFrom(s, 0)
  }

  /** The words an extraction from `st` can still deliver. */
  function Remaining(st: Stream): seq<string>
    requires st.Valid()
  {
    if st.good then TokensFrom(st.text, st.pos) else []
  }

  /** `st >> target`: the updated stream and the new value of the target. */
  function Extract(st: Stream, target: string): (r: (Stream, string))
    requires st.Valid()
    ensures r.0.Valid() && r.0.text == st.text
    ensures !st.good ==> r == (st, target)
  {
    if !st.good then (st, target)
    else
      var b := SkipSpace(st.text, st.pos);
      if b == |st.text| then (Stream(st.text, b, false), target)
      else
        var e := TokenEnd(st.text, b);
        (Stream(st.text, e, true), st.text[b..e])
  }

  /**
   * An extraction delivers the next remaining word and consumes it; when no word is
   * left it keeps the target and no word is delivered later either.
   */
  lemma ExtractNext(st: Stream, target: string)
    requires st.Valid()
    ensures var (st', t) := Extract(st, target);
      (st'.good <==> Remaining(st) != []) &&
      if Remaining(st) == [] then t == target && Remaining(st') == []
      else t == Remaining(st)[0] && Remaining(st') == Remaining(st)[1..]
  {
  }

  /** A word read from a fresh stream; the target starts out as the empty string. */
  function FirstWord(s: string): (w: string)
    ensures w == "" <==> Tokens(s) == []
    ensures Tokens(s) != [] ==> w == Tokens(s)[0]
  {
    Extract(Open(s), "").1
  }

  /**
   * `std::getline(st, target)` after earlier extractions: the rest of the current line.
   * A stream that is already failed, or at its end, leaves the target alone. The model
   * takes a good stream at its end to have eofbit set, as it has after a `>>` that ran
   * into the end of the text; `std::getline` on a good stream at its end without
   * eofbit (a fresh stream over "") would erase the target instead.
   */
  function GetLine(st: Stream, target: string): (r: (Stream, string))
    requires st.Valid()
    ensures r.0.Valid() && r.0.text == st.text
    ensures !st.good || st.pos == |st.text| ==> r.1 == target
    ensures st.good && st.pos < |st.text| ==>
      IsPrefix(r.1, st.text[st.pos..]) && forall k :: 0 <= k < |r.1| ==> r.1[k] != '\n'
    ensures st.good && st.pos < |st.text| && st.pos + |r.1| < |st.text| ==>
      st.text[st.pos + |r.1|] == '\n'
  {
    if !st.good || st.pos == |st.text| then (Stream(st.text, st.pos, false), target)
    else
      var e := LineEnd(st.text, st.pos);
      (Stream(st.text, if e < |st.text| then e + 1 else e, true), st.text[st.pos..e])
  }

  function LineEnd(s: string, i: nat): (j: nat)
    requires i <= |s|
    decreases |s| - i
    ensures i <= j <= |s|
    ensures forall k :: i <= k < j ==> s[k] != '\n'
    ensures j < |s| ==> s[j] == '\n'
  {
    if i == |s| || s[i] == '\n' then i else LineEnd(s, i + 1)
  }

  /** Words joined by single spaces, the way a user types a command. */
  function JoinWords(ws: seq<string>): string
  {
    if ws == [] then "" else if |ws| == 1 then ws[0] else ws[0] + " " + JoinWords(ws[1..])
  }

  lemma TokensAfterWord(w: string, rest: string)
    requires |w| > 0 && NoSpace(w)
    requires rest == [] || IsSpace(rest[0])
    ensures TokensFrom(w + rest, 0) == [w] + TokensFrom(rest, 0)
  {
    var s := w + rest;
    assert SkipSpace(s, 0) == 0;
    TokenEndOfWord(s, w, 0);
    assert s[0..|w|] == w;
    TokensDrop(s, |w|, 0);
    assert s[|w|..] == rest;
  }

  lemma TokenEndOfWord(s: string, w: string, i: nat)
    requires |w| > 0 && NoSpace(w) && i <= |w|
    requires |w| <= |s| && s[..|w|] == w
    requires |s| == |w| || IsSpace(s[|w|])
    decreases |w| - i
    ensures TokenEnd(s, i) == |w|
  {
    if i < |w| {
      assert s[i] == w[i];
      TokenEndOfWord(s, w, i + 1);
    }
  }

  /** A run of non-space characters from `b` that stops at `e` ends the token there. */
  lemma {:induction false} TokenEndAt(s: string, b: nat, e: nat)
    requires b <= e <= |s|
    requires NoSpace(s[b..e])
    requires e == |s| || IsSpace(s[e])
    decreases e - b
    ensures TokenEnd(s, b) == e
  {
    if b < e {
      assert s[b] == s[b..e][0];
      assert s[b + 1..e] == s[b..e][1..];
      TokenEndAt(s, b + 1, e);
    }
  }

  /** Words of a suffix: positions past `n` read the same in `s[n..]`. */
  lemma {:induction false} TokensDrop(s: string, n: nat, i: nat)
    requires n + i <= |s|
    decreases |s| - n - i
    ensures TokensFrom(s, n + i) == TokensFrom(s[n..], i)
  {
    var t := s[n..];
    SkipSpaceDrop(s, n, i);
    var b := SkipSpace(t, i);
    if b < |t| {
      TokenEndDrop(s, n, b);
      var e := TokenEnd(t, b);
      TokensDrop(s, n, e);
      assert s[n + b..n + e] == t[b..e];
    }
  }

  lemma {:induction false} SkipSpaceDrop(s: string, n: nat, i: nat)
    requires n + i <= |s|
    decreases |s| - n - i
    ensures SkipSpace(s, n + i) == n + SkipSpace(s[n..], i)
  {
    if n + i < |s| {
      assert s[n..][i] == s[n + i];
      if IsSpace(s[n + i]) {
        SkipSpaceDrop(s, n, i + 1);
      }
    }
  }

  lemma {:induction false} TokenEndDrop(s: string, n: nat, i: nat)
    requires n + i <= |s|
    decreases |s| - n - i
    ensures TokenEnd(s, n + i) == n + TokenEnd(s[n..], i)
  {
    if n + i < |s| {
      assert s[n..][i] == s[n + i];
      if !IsSpace(s[n + i]) {
        TokenEndDrop(s, n, i + 1);
      }
    }
  }

  /** Splitting a typed command into words recovers the words it was typed from. */
  lemma {:induction false} TokensOfJoin(ws: seq<string>)
    requires forall k :: 0 <= k < |ws| ==> |ws[k]| > 0 && NoSpace(ws[k])
    ensures Tokens(JoinWords(ws)) == ws
  {
    if ws == [] {
    } else if |ws| == 1 {
      TokensAfterWord(ws[0], "");
      assert ws[0] + "" == ws[0];
    } else {
      var j := JoinWords(ws[1..]);
      var rest := " " + j;
      assert JoinWords(ws) == ws[0] + rest;
      TokensAfterWord(ws[0], rest);
      assert TokensFrom(rest, 0) == TokensFrom(j, 0) by {
        assert SkipSpace(rest, 0) == SkipSpace(rest, 1);
        TokensDrop(rest, 1, 0);
        assert rest[1..] == j;
      }
      TokensOfJoin(ws[1..]);
      assert ws == [ws[0]] + ws[1..];
    }
  }
}
