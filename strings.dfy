/**
 * The few Python/JavaScript string primitives the handlers rely on, over
 * ASCII: case mapping, `startswith`, `in`, `split()` on whitespace,
 * `split(sep)` on one character, and `strip()`.
 */
module Strings {
  import opened Tally

  /**
   * Whitespace as `str.split()`, `str.strip()` and `int()` see it, restricted
   * to ASCII: space, the controls U+0009 to U+000D (tab, line feed, vertical
   * tab, form feed, carriage return) and the four separator controls U+001C
   * to U+001F.
   */
  predicate IsSpace(c: char) {
    c == ' ' || '\t' <= c <= '\r' || '\U{001C}' <= c <= '\U{001F}'
  }

  function LowerChar(c: char): char {
    if 'A' <= c <= 'Z' then (c as int + 32) as char else c
  }

  function UpperChar(c: char): char {
    if 'a' <= c <= 'z' then (c as int - 32) as char else c
  }

  /** `str.lower()` on ASCII letters; every other character is kept. */
  function Lower(s: string): (r: string)
    ensures |r| == |s|
    ensures forall i :: 0 <= i < |s| ==> r[i] == LowerChar(s[i])
  {
    seq(|s|, i requires 0 <= i < |s| => LowerChar(s[i]))
  }

  /** `str.upper()` on ASCII letters; every other character is kept. */
  function Upper(s: string): (r: string)
    ensures |r| == |s|
    ensures forall i :: 0 <= i < |s| ==> r[i] == UpperChar(s[i])
  {
    seq(|s|, i requires 0 <= i < |s| => UpperChar(s[i]))
  }

  /** `s.startswith(p)`. */
  predicate IsPrefix(p: string, s: string) {
    |p| <= |s| && s[..|p|] == p
  }

  /** `p` occurs in `s` starting at index `i`. */
  predicate OccursAt(p: string, s: string, i: int) {
    0 <= i <= |s| - |p| && s[i..i + |p|] == p
  }

  /** `p in s` for strings: `p` occurs at some position of `s`. */
  predicate Contains(p: string, s: string) {
    exists i :: 0 <= i <= |s| - |p| && OccursAt(p, s, i)
  }

  /** The length of the run of non-whitespace characters that starts `s`. */
  function WordLength(s: string): (n: nat)
    ensures n <= |s|
    ensures forall k :: 0 <= k < n ==> !IsSpace(s[k])
    ensures n < |s| ==> IsSpace(s[n])
  {
    if s == [] || IsSpace(s[0]) then 0 else 1 + WordLength(s[1..])
  }

  /** `s.split()` with no separator: the maximal whitespace-free runs of `s`, in order. */
  function Words(s: string): (ws: seq<string>)
    ensures forall w :: w in ws ==> w != [] && forall k :: 0 <= k < |w| ==> !IsSpace(w[k])
    decreases |s|
  {
    if s == [] then []
    else if IsSpace(s[0]) then Words(s[1..])
    else
      var n := WordLength(s);
      [s[..n]] + Words(s[n..])
  }

  /** A non-empty run of non-whitespace characters. */
  predicate IsWord(w: string) {
    w != [] && forall k :: 0 <= k < |w| ==> !IsSpace(w[k])
  }

  predicate AllSpace(g: string) {
    forall k :: 0 <= k < |g| ==> IsSpace(g[k])
  }

  /** The text `gaps[0] + ws[0] + gaps[1] + ... + ws[n-1] + gaps[n]`. */
  function Spaced(ws: seq<string>, gaps: seq<string>): string
    requires |gaps| == |ws| + 1
  {
    if ws == [] then gaps[0] else gaps[0] + ws[0] + Spaced(ws[1..], gaps[1..])
  }

  /** Leading whitespace produces no word. */
  lemma {:induction false} WordsSkipSpace(g: string, t: string)
    requires AllSpace(g)
    ensures Words(g + t) == Words(t)
  {
    if g != [] {
      assert (g + t)[1..] == g[1..] + t;
      WordsSkipSpace(g[1..], t);
    } else {
      assert g + t == t;
    }
  }

  lemma {:induction false} WordLengthOfRun(w: string, t: string)
    requires forall k :: 0 <= k < |w| ==> !IsSpace(w[k])
    requires t == [] || IsSpace(t[0])
    ensures WordLength(w + t) == |w|
  {
    if w != [] {
      assert (w + t)[1..] == w[1..] + t;
      WordLengthOfRun(w[1..], t);
    } else {
      assert w + t == t;
    }
  }

  /** A word followed by whitespace or the end of the text is split off whole. */
  lemma WordsOfWord(w: string, t: string)
    requires IsWord(w)
    requires t == [] || IsSpace(t[0])
    ensures Words(w + t) == [w] + Words(t)
  {
    WordLengthOfRun(w, t);
    assert (w + t)[..|w|] == w;
    assert (w + t)[|w|..] == t;
  }

  /**
   * `split()` yields exactly the maximal non-whitespace runs, in order: any
   * words separated by non-empty whitespace, with any whitespace before and
   * after, split back into those words.
   */
  lemma {:induction false} WordsOfSpaced(ws: seq<string>, gaps: seq<string>)
    requires |gaps| == |ws| + 1
    requires forall i :: 0 <= i < |ws| ==> IsWord(ws[i])
    requires forall i :: 0 <= i < |gaps| ==> AllSpace(gaps[i])
    requires forall i :: 0 < i < |ws| ==> gaps[i] != []
    ensures Words(Spaced(ws, gaps)) == ws
  {
    if ws == [] {
      WordsSkipSpace(gaps[0], []);
      assert gaps[0] + [] == gaps[0];
    } else {
      var rest := Spaced(ws[1..], gaps[1..]);
      WordsOfSpaced(ws[1..], gaps[1..]);
      SpacedStart(ws[1..], gaps[1..]);
      WordsOfGapAndWord(gaps[0], ws[0], rest);
    }
  }

  /** A spaced text after the first word starts with whitespace, or is empty. */
  lemma SpacedStart(ws: seq<string>, gaps: seq<string>)
    requires |gaps| == |ws| + 1
    requires AllSpace(gaps[0])
    requires ws != [] ==> gaps[0] != []
    ensures var t := Spaced(ws, gaps); t == [] || IsSpace(t[0])
  {
    if ws != [] {
      assert Spaced(ws, gaps)[0] == gaps[0][0];
    }
  }

  lemma WordsOfGapAndWord(g: string, w: string, rest: string)
    requires AllSpace(g) && IsWord(w)
    requires rest == [] || IsSpace(rest[0])
    ensures Words(g + w + rest) == [w] + Words(rest)
  {
    WordsOfWord(w, rest);
    assert g + w + rest == g + (w + rest);
    WordsSkipSpace(g, w + rest);
  }

  /** `s.split(sep)` for a one-character separator: the pieces between separators, empty ones kept. */
  function Split(s: string, sep: char): (pieces: seq<string>)
    ensures |pieces| == Occurrences(s, sep) + 1
    ensures forall i :: 0 <= i < |pieces| ==> sep !in pieces[i]
  {
    if s == [] then [""]
    else
      OccurrencesCons(s[0], s[1..], sep);
      assert [s[0]] + s[1..] == s;
      var rest := Split(s[1..], sep);
      if s[0] == sep then [""] + rest
      else [[s[0]] + rest[0]] + rest[1..]
  }

  /** `sep.join(pieces)`. */
  function Join(pieces: seq<string>, sep: char): string
    requires |pieces| >= 1
  {
    if |pieces| == 1 then pieces[0] else pieces[0] + [sep] + Join(pieces[1..], sep)
  }

  /** Splitting loses nothing: joining the pieces back gives the original text. */
  lemma {:induction false} JoinSplit(s: string, sep: char)
    ensures Join(Split(s, sep), sep) == s
  {
    if s != [] {
      JoinSplit(s[1..], sep);
      var rest := Split(s[1..], sep);
      SplitFirst(s, sep);
      if s[0] == sep {
        JoinEmptyFirst(rest, sep);
      } else {
        JoinPrepend(s[0], rest, sep);
      }
      assert s == [s[0]] + s[1..];
    }
  }

  /** The pieces of a non-empty text, from the pieces of its tail. */
  lemma SplitFirst(s: string, sep: char)
    requires s != []
    ensures var rest := Split(s[1..], sep);
            Split(s, sep) == if s[0] == sep then [""] + rest else [[s[0]] + rest[0]] + rest[1..]
  {
  }

  lemma JoinEmptyFirst(rest: seq<string>, sep: char)
    requires |rest| >= 1
    ensures Join([""] + rest, sep) == [sep] + Join(rest, sep)
  {
    assert ([""] + rest)[1..] == rest;
  }

  lemma JoinPrepend(c: char, rest: seq<string>, sep: char)
    requires |rest| >= 1
    ensures Join([[c] + rest[0]] + rest[1..], sep) == [c] + Join(rest, sep)
  {
    var pieces := [[c] + rest[0]] + rest[1..];
    if |rest| > 1 {
      assert pieces[1..] == rest[1..];
    }
  }

  /**
   * `p` is the text of `s` after its last `sep`: a suffix of `s` free of
   * `sep`, preceded by a `sep` when `s` has one, and all of `s` otherwise.
   */
  predicate IsLastPiece(s: string, sep: char, p: string) {
    |p| <= |s| && s[|s| - |p|..] == p && sep !in p &&
    (sep in s ==> |p| < |s| && s[|s| - |p| - 1] == sep) &&
    (sep !in s ==> p == s)
  }

  /** The last piece of `s.split(sep)` is the tail of `s` after the last separator. */
  lemma {:induction false} LastPieceIsTail(s: string, sep: char)
    ensures var pieces := Split(s, sep); IsLastPiece(s, sep, pieces[|pieces| - 1])
  {
    if s != [] {
      var t := s[1..];
      LastPieceIsTail(t, sep);
      var rest := Split(t, sep);
      var q := rest[|rest| - 1];
      assert IsLastPiece(t, sep, q);
      SplitLast(s, sep);
      assert |rest| == 1 <==> sep !in t by {
        assert |rest| == Occurrences(t, sep) + 1;
      }
      if s[0] != sep && |rest| == 1 {
        LastPieceNoSep(s, sep, q);
      } else {
        LastPieceAfterSep(s, sep, q);
      }
    }
  }

  /** The last piece of a non-empty text, from the pieces of its tail. */
  lemma SplitLast(s: string, sep: char)
    requires s != []
    ensures var pieces := Split(s, sep);
            var rest := Split(s[1..], sep);
            pieces[|pieces| - 1] ==
              if s[0] != sep && |rest| == 1 then [s[0]] + rest[0] else rest[|rest| - 1]
  {
  }

  lemma LastPieceAfterSep(s: string, sep: char, q: string)
    requires s != [] && IsLastPiece(s[1..], sep, q)
    requires s[0] == sep || sep in s[1..]
    ensures IsLastPiece(s, sep, q)
  {
    var t := s[1..];
    assert s[|s| - |q|..] == t[|t| - |q|..];
    if |q| < |t| {
      assert s[|s| - |q| - 1] == t[|t| - |q| - 1];
    }
  }

  lemma LastPieceNoSep(s: string, sep: char, q: string)
    requires s != [] && IsLastPiece(s[1..], sep, q)
    requires s[0] != sep && sep !in s[1..]
    ensures IsLastPiece(s, sep, [s[0]] + q)
  {
    assert s == [s[0]] + s[1..];
  }

  /** `s.lstrip()`: drops the leading whitespace and nothing else. */
  function TrimStart(s: string): (r: string)
    ensures |r| <= |s| && r == s[|s| - |r|..]
    ensures forall k :: 0 <= k < |s| - |r| ==> IsSpace(s[k])
    ensures r == [] || !IsSpace(r[0])
  {
    if s != [] && IsSpace(s[0]) then
      var r := TrimStart(s[1..]);
      assert forall k :: 0 < k < |s| ==> s[k] == s[1..][k - 1];
      r
    else s
  }

  /** `s.rstrip()`: drops the trailing whitespace and nothing else. */
  function TrimEnd(s: string): (r: string)
    ensures |r| <= |s| && r == s[..|r|]
    ensures forall k :: |r| <= k < |s| ==> IsSpace(s[k])
    ensures r == [] || !IsSpace(r[|r| - 1])
  {
    if s != [] && IsSpace(s[|s| - 1]) then
      var r := TrimEnd(s[..|s| - 1]);
      assert forall k :: 0 <= k < |s| - 1 ==> s[k] == s[..|s| - 1][k];
      r
    else s
  }

  /** `r` is the text of `s` from index `i` on, with only whitespace before it and after it. */
  predicate IsMiddle(s: string, i: nat, r: string) {
    i + |r| <= |s| && r == s[i..i + |r|] &&
    (forall k :: 0 <= k < i ==> IsSpace(s[k])) &&
    (forall k :: i + |r| <= k < |s| ==> IsSpace(s[k]))
  }

  /** `s.strip()`: `s` without its leading and trailing whitespace (`StripIsMiddle`). */
  function Strip(s: string): (r: string)
    ensures |r| <= |s|
  {
    TrimEnd(TrimStart(s))
  }

  /**
   * `s.strip()` is the middle of `s` that remains once the leading and the
   * trailing whitespace are dropped; it neither starts nor ends with
   * whitespace.
   */
  lemma StripIsMiddle(s: string)
    ensures |Strip(s)| <= |TrimStart(s)| <= |s|
    ensures IsMiddle(s, |s| - |TrimStart(s)|, Strip(s))
    ensures var r := Strip(s); r == [] || (!IsSpace(r[0]) && !IsSpace(r[|r| - 1]))
  {
    MiddleOfSuffix(s, TrimStart(s), TrimEnd(TrimStart(s)));
  }

  /** Stripping adds no character. */
  lemma StripKeepsOut(s: string, c: char)
    requires c !in s
    ensures c !in Strip(s)
  {
    StripIsMiddle(s);
    var i := |s| - |TrimStart(s)|;
    assert forall k :: 0 <= k < |Strip(s)| ==> Strip(s)[k] == s[i + k];
  }

  /**
   * A prefix `r` of a suffix `t` of `s`, with whitespace before `t` in `s`
   * and after `r` in `t`, is the middle of `s` between that whitespace; when
   * `t` does not start and `r` does not end with whitespace, `r` does
   * neither.
   */
  lemma MiddleOfSuffix(s: string, t: string, r: string)
    requires |t| <= |s| && t == s[|s| - |t|..]
    requires forall k :: 0 <= k < |s| - |t| ==> IsSpace(s[k])
    requires |r| <= |t| && r == t[..|r|]
    requires forall k :: |r| <= k < |t| ==> IsSpace(t[k])
    requires t == [] || !IsSpace(t[0])
    requires r == [] || !IsSpace(r[|r| - 1])
    ensures |r| <= |t| <= |s|
    ensures IsMiddle(s, |s| - |t|, r)
    ensures r == [] || (!IsSpace(r[0]) && !IsSpace(r[|r| - 1]))
  {
    if r != [] {
      assert r[0] == t[0];
    }
    var i := |s| - |t|;
    assert t[..|r|] == s[i..i + |r|];
    forall k | i + |r| <= k < |s|
      ensures IsSpace(s[k])
    {
      assert s[k] == t[k - i];
    }
  }

  lemma {:induction false} TrimStartPadded(g: string, y: string)
    requires AllSpace(g) && (y == [] || !IsSpace(y[0]))
    ensures TrimStart(g + y) == y
  {
    if g == [] {
      assert g + y == y;
    } else {
      assert (g + y)[1..] == g[1..] + y;
      TrimStartPadded(g[1..], y);
    }
  }

  lemma {:induction false} TrimEndPadded(y: string, g: string)
    requires AllSpace(g) && (y == [] || !IsSpace(y[|y| - 1]))
    ensures TrimEnd(y + g) == y
  {
    if g == [] {
      assert y + g == y;
    } else {
      assert (y + g)[..|y + g| - 1] == y + g[..|g| - 1];
      TrimEndPadded(y, g[..|g| - 1]);
    }
  }

  /** `strip()` removes exactly the whitespace around a text that has none at its ends. */
  lemma StripPadded(pre: string, x: string, post: string)
    requires AllSpace(pre) && AllSpace(post)
    requires x != [] && !IsSpace(x[0]) && !IsSpace(x[|x| - 1])
    ensures Strip(pre + x + post) == x
  {
    assert pre + x + post == pre + (x + post);
    TrimStartPadded(pre, x + post);
    TrimEndPadded(x, post);
  }

  /** A text that neither starts nor ends with whitespace is its own strip. */
  lemma StripBare(x: string)
    requires x != [] && !IsSpace(x[0]) && !IsSpace(x[|x| - 1])
    ensures Strip(x) == x
  {
    StripPadded("", x, "");
    assert "" + x + "" == x;
  }

  /** A string without whitespace is its own strip. */
  lemma StripWithoutSpace(s: string)
    requires forall c :: c in s ==> !IsSpace(c)
    ensures Strip(s) == s
  {
    assert TrimStart(s) == s;
  }
}
