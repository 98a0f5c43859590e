/** The two "make links clickable" helpers: the server's `re.sub` that wraps
    every URL of a message in an HTML anchor for the notification e-mail, and
    the dashboard's `String.prototype.split` that cuts a message into text and
    URL parts. Both use the pattern `https?://[^\s]+`; they differ only in
    what their regular-expression engine calls whitespace, so one scanner,
    parameterised by the engine, serves both. Positions are indices into the
    whole text. */
module Linkify {

  /** Whose `\s` is meant: Python's `re` (str patterns) or ECMAScript's. */
  datatype Dialect = Python | JavaScript

  /** `\s`. Python's class is `str.isspace()`, which has the information
      separators U+001C..U+001F and NEL U+0085; ECMAScript's has the byte
      order mark U+FEFF instead. The rest is common to both. */
  predicate IsSpace(d: Dialect, c: char)
  {
    || ('\t' <= c <= '\r')
    || c == ' '
    || c == '\U{A0}'
    || c == '\U{1680}'
    || ('\U{2000}' <= c <= '\U{200A}')
    || c == '\U{2028}'
    || c == '\U{2029}'
    || c == '\U{202F}'
    || c == '\U{205F}'
    || c == '\U{3000}'
    || (d == Python && (('\U{1C}' <= c <= '\U{1F}') || c == '\U{85}'))
    || (d == JavaScript && c == '\U{FEFF}')
  }

  /** `http://` starts at position `i`. */
  predicate HttpAt(s: string, i: nat)
  {
    && i + 7 <= |s|
    && s[i] == 'h' && s[i + 1] == 't' && s[i + 2] == 't' && s[i + 3] == 'p'
    && s[i + 4] == ':' && s[i + 5] == '/' && s[i + 6] == '/'
  }

  /** `https://` starts at position `i`. */
  predicate HttpsAt(s: string, i: nat)
  {
    && i + 8 <= |s|
    && s[i] == 'h' && s[i + 1] == 't' && s[i + 2] == 't' && s[i + 3] == 'p'
    && s[i + 4] == 's' && s[i + 5] == ':' && s[i + 6] == '/' && s[i + 7] == '/'
  }

  /** Length of the `https?://` starting at `i`, 0 when there is none. */
  function SchemeLength(s: string, i: nat): (k: nat)
    ensures k == 0 || k == 7 || k == 8
    ensures k > 0 ==> i + k <= |s|
  {
    if HttpAt(s, i) then 7 else if HttpsAt(s, i) then 8 else 0
  }

  /** The pattern can start a match at position `i`: a scheme followed by at
      least one non-whitespace character. */
  predicate UrlAt(d: Dialect, s: string, i: nat)
  {
    var k := SchemeLength(s, i);
    k > 0 && i + k < |s| && !IsSpace(d, s[i + k])
  }

  /** No match starts at any position of `[lo, hi)`. */
  predicate NoUrlIn(d: Dialect, s: string, lo: nat, hi: nat)
  {
    forall k :: lo <= k < hi ==> !UrlAt(d, s, k)
  }

  /** `t.match(urlPattern)` is null: no position of `t` starts a match. */
  predicate NoUrl(d: Dialect, t: string)
  {
    NoUrlIn(d, t, 0, |t|)
  }

  /** `u` is exactly one match of the pattern. */
  ghost predicate IsUrl(d: Dialect, u: string)
  {
    && UrlAt(d, u, 0)
    && forall i :: 0 <= i < |u| ==> !IsSpace(d, u[i])
  }

  /** End of the longest whitespace-free run starting at `i`. */
  function RunEnd(d: Dialect, s: string, i: nat): (j: nat)
    requires i <= |s|
    ensures i <= j <= |s|
    decreases |s| - i
  {
    if i == |s| || IsSpace(d, s[i]) then i else RunEnd(d, s, i + 1)
  }

  /** The run holds no whitespace and ends at whitespace or at the end. */
  lemma {:induction false} RunEndIsMaximal(d: Dialect, s: string, i: nat)
    requires i <= |s|
    ensures forall m :: i <= m < RunEnd(d, s, i) ==> !IsSpace(d, s[m])
    ensures RunEnd(d, s, i) == |s| || IsSpace(d, s[RunEnd(d, s, i)])
    decreases |s| - i
  {
    if i < |s| && !IsSpace(d, s[i]) {
      RunEndIsMaximal(d, s, i + 1);
    }
  }

  /** End of the greedy match of `https?://[^\s]+` starting at `i`; `i`
      itself when the pattern does not match there. */
  function MatchEnd(d: Dialect, s: string, i: nat): (j: nat)
    requires i <= |s|
    ensures i <= j <= |s|
    ensures j > i <==> UrlAt(d, s, i)
  {
    if UrlAt(d, s, i) then RunEnd(d, s, i) else i
  }

  /** The scheme's characters are not whitespace. */
  lemma SchemeIsNotSpace(d: Dialect, s: string, i: nat)
    requires SchemeLength(s, i) > 0
    ensures forall m :: i <= m < i + SchemeLength(s, i) ==> !IsSpace(d, s[m])
  {
  }

  /** A match is one whole URL and stops at whitespace or at the end. */
  lemma MatchIsMaximalUrl(d: Dialect, s: string, i: nat)
    requires i <= |s| && UrlAt(d, s, i)
    ensures MatchEnd(d, s, i) > i + SchemeLength(s, i)
    ensures IsUrl(d, s[i..MatchEnd(d, s, i)])
    ensures MatchEnd(d, s, i) == |s| || IsSpace(d, s[MatchEnd(d, s, i)])
  {
    var j := MatchEnd(d, s, i);
    var k := SchemeLength(s, i);
    SchemeIsNotSpace(d, s, i);
    RunEndIsMaximal(d, s, i);
    assert j > i + k by {
      assert forall m :: i <= m <= i + k ==> !IsSpace(d, s[m]);
    }
    var u := s[i..j];
    assert forall m :: 0 <= m < |u| ==> u[m] == s[i + m];
    assert SchemeLength(u, 0) == k;
  }

  /** A match never starts at whitespace. */
  lemma NoUrlAtSpace(d: Dialect, s: string, i: nat)
    requires i < |s| && IsSpace(d, s[i])
    ensures !UrlAt(d, s, i)
  {
  }

  /** Whether a match starts somewhere in a slice of `s` depends only on the
      slice's characters, so a match of the slice is a match of `s`. */
  lemma UrlAtSlice(d: Dialect, s: string, lo: nat, hi: nat, k: nat)
    requires lo <= k < hi <= |s| && UrlAt(d, s[lo..hi], k - lo)
    ensures UrlAt(d, s, k)
  {
    var t := s[lo..hi];
    assert forall m :: 0 <= m < |t| ==> t[m] == s[lo + m];
  }

  lemma NoUrlOfSlice(d: Dialect, s: string, lo: nat, hi: nat)
    requires lo <= hi <= |s| && NoUrlIn(d, s, lo, hi)
    ensures NoUrl(d, s[lo..hi])
  {
    forall k | 0 <= k < hi - lo
      ensures !UrlAt(d, s[lo..hi], k)
    {
      if UrlAt(d, s[lo..hi], k) {
        UrlAtSlice(d, s, lo, hi, lo + k);
      }
    }
  }

  // ---------------------------------------------------------------------
  // The dashboard's split: `text.split(/(https?:\/\/[^\s]+)/g)`

  /** The pieces that ECMA-262's `RegExp.prototype[@@split]` produces for a
      pattern with one capture group that never matches the empty string:
      `p` is where the pending text started (the end of the last match) and
      `q` the position at which a match is tried next. Each match emits the
      pending text and the URL; the end emits the remaining text. */
  function SplitFrom(d: Dialect, s: string, p: nat, q: nat): (pieces: seq<string>)
    requires p <= q <= |s|
    ensures |pieces| % 2 == 1
    decreases |s| - q
  {
    if q == |s| then [s[p..]]
    else
      var j := MatchEnd(d, s, q);
      if j > q then [s[p..q], s[q..j]] + SplitFrom(d, s, j, j)
      else SplitFrom(d, s, p, q + 1)
  }

  function Split(d: Dialect, s: string): seq<string>
  {
    SplitFrom(d, s, 0, 0)
  }

  function Concat(pieces: seq<string>): string
  {
    if pieces == [] then [] else pieces[0] + Concat(pieces[1..])
  }

  lemma ConcatSingle(t: string)
    ensures Concat([t]) == t
  {
    assert [t][1..] == [];
  }

  lemma ConcatPair(a: string, b: string, rest: seq<string>)
    ensures Concat([a, b] + rest) == a + b + Concat(rest)
  {
    assert ([a, b] + rest)[1..] == [b] + rest;
    assert ([b] + rest)[1..] == rest;
  }

  lemma {:induction false} ConcatUrlStep(d: Dialect, s: string, p: nat, q: nat)
    requires p <= q < |s| && MatchEnd(d, s, q) > q
    requires var j := MatchEnd(d, s, q); Concat(SplitFrom(d, s, j, j)) == s[j..]
    ensures Concat(SplitFrom(d, s, p, q)) == s[p..]
  {
    var j := MatchEnd(d, s, q);
    assert SplitFrom(d, s, p, q) == [s[p..q], s[q..j]] + SplitFrom(d, s, j, j);
    ConcatPair(s[p..q], s[q..j], SplitFrom(d, s, j, j));
    assert s[p..q] + s[q..j] + s[j..] == s[p..];
  }

  /** Concatenating the pieces from `p` on gives back the text from `p` on. */
  lemma {:induction false} SplitFromConcat(d: Dialect, s: string, p: nat, q: nat)
    requires p <= q <= |s|
    ensures Concat(SplitFrom(d, s, p, q)) == s[p..]
    decreases |s| - q
  {
    if q == |s| {
      assert Concat([s[p..]]) == s[p..] + Concat([]);
    } else if MatchEnd(d, s, q) > q {
      var j := MatchEnd(d, s, q);
      SplitFromConcat(d, s, j, j);
      ConcatUrlStep(d, s, p, q);
    } else {
      SplitFromConcat(d, s, p, q + 1);
      assert SplitFrom(d, s, p, q) == SplitFrom(d, s, p, q + 1);
    }
  }

  lemma SplitConcat(d: Dialect, s: string)
    ensures Concat(Split(d, s)) == s
  {
    SplitFromConcat(d, s, 0, 0);
  }

  /** The first piece begins with the pending text `s[p..q]`. */
  lemma {:induction false} FirstPieceStarts(d: Dialect, s: string, p: nat, q: nat)
    requires p <= q <= |s|
    ensures q - p <= |SplitFrom(d, s, p, q)[0]|
    ensures SplitFrom(d, s, p, q)[0][..q - p] == s[p..q]
    decreases |s| - q
  {
    if q < |s| && MatchEnd(d, s, q) == q {
      FirstPieceStarts(d, s, p, q + 1);
      assert s[p..q + 1][..q - p] == s[p..q];
    }
  }

  /** Where no match starts the scan moves on by one position. */
  lemma SplitFromSkip(d: Dialect, s: string, p: nat, q: nat)
    requires p <= q < |s| && !UrlAt(d, s, q)
    ensures SplitFrom(d, s, p, q) == SplitFrom(d, s, p, q + 1)
  {
  }

  /** A text piece other than the first follows a URL, which runs to the
      next whitespace: so it starts with whitespace, or it is the empty
      piece at the very end. */
  predicate Delimited(d: Dialect, t: string, last: bool)
  {
    (t == [] && last) || (t != [] && IsSpace(d, t[0]))
  }

  /** The pieces after a match are delimited. */
  lemma {:induction false} PiecesAfterMatch(d: Dialect, s: string, j: nat)
    requires j <= |s| && (j == |s| || IsSpace(d, s[j]))
    ensures Delimited(d, SplitFrom(d, s, j, j)[0], |SplitFrom(d, s, j, j)| == 1)
  {
    if j < |s| {
      NoUrlAtSpace(d, s, j);
      SplitFromSkip(d, s, j, j);
      FirstPieceStarts(d, s, j, j + 1);
      assert s[j..j + 1] == [s[j]];
    }
  }

  /** Whether a match starts at a position depends only on the text from
      that position on. */
  lemma UrlAtSuffix(d: Dialect, s: string, p: nat, k: nat)
    requires p <= |s|
    ensures UrlAt(d, s[p..], k) <==> UrlAt(d, s, p + k)
  {
    var t := s[p..];
    assert forall m :: 0 <= m < |t| ==> t[m] == s[p + m];
    assert SchemeLength(t, k) == SchemeLength(s, p + k);
  }

  /** Text appended after a match does not undo it. */
  lemma UrlAtExtends(d: Dialect, a: string, b: string, k: nat)
    requires UrlAt(d, a, k)
    ensures UrlAt(d, a + b, k)
  {
    assert forall m :: 0 <= m < |a| ==> (a + b)[m] == a[m];
    assert SchemeLength(a + b, k) == SchemeLength(a, k);
  }

  /** The shape of the pieces: text and URLs alternate, starting and ending
      with text; no match starts inside a text piece, read in the context of
      the text that follows it; every URL piece is one whole match; every
      URL is maximal. `AlternatingIsSplit` shows that this shape pins the
      pieces down. */
  ghost predicate Alternating(d: Dialect, pieces: seq<string>)
  {
    && |pieces| % 2 == 1
    && (forall i :: 0 <= i < |pieces| && i % 2 == 0 ==> NoUrl(d, pieces[i]))
    && (forall i :: 0 <= i < |pieces| && i % 2 == 0 ==> NoUrlIn(d, Concat(pieces[i..]), 0, |pieces[i]|))
    && (forall i :: 0 <= i < |pieces| && i % 2 == 1 ==> IsUrl(d, pieces[i]))
    && (forall i :: 0 < i < |pieces| && i % 2 == 0 ==> Delimited(d, pieces[i], i == |pieces| - 1))
  }

  lemma {:induction false} AlternatingCons(d: Dialect, t: string, u: string, rest: seq<string>)
    requires NoUrl(d, t) && IsUrl(d, u) && Alternating(d, rest)
    requires NoUrlIn(d, Concat([t, u] + rest), 0, |t|)
    requires Delimited(d, rest[0], |rest| == 1)
    ensures Alternating(d, [t, u] + rest)
  {
    var pieces := [t, u] + rest;
    assert |pieces| == |rest| + 2;
    assert pieces[0] == t && pieces[1] == u;
    forall i | 2 <= i < |pieces|
      ensures pieces[i] == rest[i - 2] && pieces[i..] == rest[i - 2..]
    {
    }
    forall i | 0 <= i < |pieces| && i % 2 == 0
      ensures NoUrl(d, pieces[i])
    {
      if i >= 2 {
        assert NoUrl(d, rest[i - 2]);
      }
    }
    forall i | 0 <= i < |pieces| && i % 2 == 0
      ensures NoUrlIn(d, Concat(pieces[i..]), 0, |pieces[i]|)
    {
      if i >= 2 {
        assert NoUrlIn(d, Concat(rest[i - 2..]), 0, |rest[i - 2]|);
      } else {
        assert pieces[i..] == pieces;
      }
    }
    forall i | 0 <= i < |pieces| && i % 2 == 1
      ensures IsUrl(d, pieces[i])
    {
      if i >= 2 {
        assert IsUrl(d, rest[i - 2]);
      }
    }
    forall i | 0 < i < |pieces| && i % 2 == 0
      ensures Delimited(d, pieces[i], i == |pieces| - 1)
    {
      assert Delimited(d, rest[i - 2], i - 2 == |rest| - 1);
    }
  }

  /** No match starts in `[p, q)` of `s` exactly when none starts in the
      first `q - p` positions of `s[p..]`. */
  lemma NoUrlInSuffix(d: Dialect, s: string, p: nat, q: nat)
    requires p <= q <= |s|
    ensures NoUrlIn(d, s, p, q) <==> NoUrlIn(d, s[p..], 0, q - p)
  {
    if NoUrlIn(d, s, p, q) {
      forall k | 0 <= k < q - p
        ensures !UrlAt(d, s[p..], k)
      {
        UrlAtSuffix(d, s, p, k);
      }
    }
    if NoUrlIn(d, s[p..], 0, q - p) {
      forall k | p <= k < q
        ensures !UrlAt(d, s, k)
      {
        UrlAtSuffix(d, s, p, k - p);
      }
    }
  }

  lemma {:induction false} SplitFromAlternates(d: Dialect, s: string, p: nat, q: nat)
    requires p <= q <= |s| && NoUrlIn(d, s, p, q)
    ensures Alternating(d, SplitFrom(d, s, p, q))
    decreases |s| - q
  {
    if q == |s| {
      NoUrlOfSlice(d, s, p, |s|);
      assert s[p..|s|] == s[p..];
      NoUrlInSuffix(d, s, p, q);
      var pieces := SplitFrom(d, s, p, q);
      assert pieces == [s[p..]] && pieces[0..] == pieces;
      ConcatSingle(s[p..]);
    } else {
      var j := MatchEnd(d, s, q);
      if j > q {
        SplitFromAlternates(d, s, j, j);
        NoUrlOfSlice(d, s, p, q);
        MatchIsMaximalUrl(d, s, q);
        PiecesAfterMatch(d, s, j);
        SplitFromConcat(d, s, p, q);
        NoUrlInSuffix(d, s, p, q);
        AlternatingCons(d, s[p..q], s[q..j], SplitFrom(d, s, j, j));
      } else {
        SplitFromAlternates(d, s, p, q + 1);
      }
    }
  }

  lemma SplitAlternates(d: Dialect, s: string)
    ensures Alternating(d, Split(d, s))
  {
    SplitFromAlternates(d, s, 0, 0);
  }

  /** A whitespace-free stretch from `i` that stops at whitespace or at the
      end is exactly the run `RunEnd` finds. */
  lemma {:induction false} RunEndAt(d: Dialect, s: string, i: nat, j: nat)
    requires i <= j <= |s|
    requires forall m :: i <= m < j ==> !IsSpace(d, s[m])
    requires j == |s| || IsSpace(d, s[j])
    ensures RunEnd(d, s, i) == j
    decreases j - i
  {
    if i < j {
      RunEndAt(d, s, i + 1, j);
    }
  }

  /** Where no match starts the scan passes over a whole stretch. */
  lemma {:induction false} SplitFromSkipRun(d: Dialect, s: string, p: nat, q: nat, r: nat)
    requires p <= q <= r <= |s| && NoUrlIn(d, s, q, r)
    ensures SplitFrom(d, s, p, q) == SplitFrom(d, s, p, r)
    decreases r - q
  {
    if q < r {
      SplitFromSkip(d, s, p, q);
      SplitFromSkipRun(d, s, p, q + 1, r);
    }
  }

  /** Dropping the first text piece and URL keeps the shape. */
  lemma AlternatingTail(d: Dialect, pieces: seq<string>)
    requires Alternating(d, pieces) && |pieces| > 1
    ensures Alternating(d, pieces[2..])
  {
    var rest := pieces[2..];
    forall i | 0 <= i < |rest|
      ensures rest[i] == pieces[i + 2] && rest[i..] == pieces[i + 2..]
    {
    }
    forall i | 0 <= i < |rest| && i % 2 == 0
      ensures NoUrl(d, rest[i]) && NoUrlIn(d, Concat(rest[i..]), 0, |rest[i]|)
    {
      assert (i + 2) % 2 == 0;
    }
    forall i | 0 <= i < |rest| && i % 2 == 1
      ensures IsUrl(d, rest[i])
    {
      assert (i + 2) % 2 == 1;
    }
    forall i | 0 < i < |rest| && i % 2 == 0
      ensures Delimited(d, rest[i], i == |rest| - 1)
    {
      assert (i + 2) % 2 == 0;
    }
  }

  /** A whole URL at `i`, followed by whitespace or by nothing, is one full
      match. */
  lemma MatchOfUrl(d: Dialect, s: string, i: nat, u: string, c: string)
    requires i <= |s| && s[i..] == u + c
    requires IsUrl(d, u) && (c == [] || IsSpace(d, c[0]))
    ensures MatchEnd(d, s, i) == i + |u|
  {
    UrlAtExtends(d, u, c, 0);
    UrlAtSuffix(d, s, i, 0);
    assert forall m :: 0 <= m < |u| ==> s[i + m] == u[m];
    if c != [] {
      assert s[i + |u|] == c[0];
    }
    RunEndAt(d, s, i, i + |u|);
  }

  /** No match in `[o, i)` and a match from `i` to `j`: the scan from `o`
      emits the text and the URL and carries on after the URL. */
  lemma SplitAfterUrl(d: Dialect, s: string, o: nat, i: nat, j: nat)
    requires o <= i < j <= |s| && NoUrlIn(d, s, o, i) && MatchEnd(d, s, i) == j
    ensures SplitFrom(d, s, o, o) == [s[o..i], s[i..j]] + SplitFrom(d, s, j, j)
  {
    SplitFromSkipRun(d, s, o, o, i);
  }

  lemma SlicesOfConcat(s: string, o: nat, t: string, u: string, c: string)
    requires o <= |s| && s[o..] == t + u + c
    ensures o + |t| + |u| <= |s|
    ensures s[o..o + |t|] == t && s[o + |t|..] == u + c
    ensures s[o + |t|..o + |t| + |u|] == u && s[o + |t| + |u|..] == c
  {
    assert s[o..][..|t|] == t;
    assert s[o..][|t|..] == u + c;
    assert (u + c)[..|u|] == u && (u + c)[|u|..] == c;
  }

  /** What the shape says about its first text piece and URL. */
  lemma HeadOfAlternating(d: Dialect, pieces: seq<string>)
    requires Alternating(d, pieces) && |pieces| > 1
    ensures var c := Concat(pieces[2..]);
      && Concat(pieces) == pieces[0] + pieces[1] + c
      && (c == [] || IsSpace(d, c[0]))
      && NoUrlIn(d, Concat(pieces), 0, |pieces[0]|)
      && IsUrl(d, pieces[1])
      && Alternating(d, pieces[2..])
  {
    var rest := pieces[2..];
    assert pieces == [pieces[0], pieces[1]] + rest;
    assert pieces[0..] == pieces;
    ConcatPair(pieces[0], pieces[1], rest);
    var c := Concat(rest);
    assert c == rest[0] + Concat(rest[1..]);
    assert Delimited(d, pieces[2], 2 == |pieces| - 1);
    if rest[0] == [] {
      assert |rest| == 1 && rest[1..] == [];
    }
    AlternatingTail(d, pieces);
  }

  /** Where the first text piece and URL of pieces spelling out `s[o..]`
      sit in `s`. */
  lemma FirstPairInText(d: Dialect, s: string, o: nat, i: nat, j: nat, pieces: seq<string>)
    requires o <= |s| && Alternating(d, pieces) && |pieces| > 1 && Concat(pieces) == s[o..]
    requires i == o + |pieces[0]| && j == i + |pieces[1]|
    ensures i < j <= |s|
    ensures NoUrlIn(d, s, o, i) && MatchEnd(d, s, i) == j
    ensures s[o..i] == pieces[0] && s[i..j] == pieces[1]
    ensures Concat(pieces[2..]) == s[j..] && Alternating(d, pieces[2..])
  {
    HeadOfAlternating(d, pieces);
    PairInText(d, s, o, pieces[0], pieces[1], Concat(pieces[2..]));
  }

  lemma PairInText(d: Dialect, s: string, o: nat, t: string, u: string, c: string)
    requires o <= |s| && s[o..] == t + u + c && NoUrlIn(d, s[o..], 0, |t|)
    requires IsUrl(d, u) && (c == [] || IsSpace(d, c[0]))
    ensures o + |t| + |u| <= |s| && |u| > 0
    ensures NoUrlIn(d, s, o, o + |t|) && MatchEnd(d, s, o + |t|) == o + |t| + |u|
    ensures s[o..o + |t|] == t && s[o + |t|..o + |t| + |u|] == u && s[o + |t| + |u|..] == c
  {
    SlicesOfConcat(s, o, t, u, c);
    NoUrlInSuffix(d, s, o, o + |t|);
    MatchOfUrl(d, s, o + |t|, u, c);
  }

  /** The step of `AlternatingIsSplitFrom`: the split emits the first
      text piece and URL, then what it emits after the URL. */
  lemma SplitOfPair(d: Dialect, s: string, o: nat, i: nat, j: nat, pieces: seq<string>)
    requires o <= i < j <= |s| && NoUrlIn(d, s, o, i) && MatchEnd(d, s, i) == j
    requires |pieces| > 1 && s[o..i] == pieces[0] && s[i..j] == pieces[1]
    requires SplitFrom(d, s, j, j) == pieces[2..]
    ensures SplitFrom(d, s, o, o) == pieces
  {
    SplitAfterUrl(d, s, o, i, j);
    assert pieces == [pieces[0], pieces[1]] + pieces[2..];
  }

  /** A lone text piece spelling out `s[o..]` is all the split emits. */
  lemma LastPieceIsRest(d: Dialect, s: string, o: nat, pieces: seq<string>)
    requires o <= |s| && Alternating(d, pieces) && |pieces| == 1 && Concat(pieces) == s[o..]
    ensures SplitFrom(d, s, o, o) == pieces
  {
    var t := pieces[0];
    assert pieces == [t] && pieces[0..] == pieces;
    ConcatSingle(t);
    NoUrlInSuffix(d, s, o, |s|);
    SplitFromSingle(d, s, o, o);
  }

  /** The partner of `SplitAlternates`, from any position: pieces of this
      shape that spell out `s[o..]` are exactly what the split emits from
      `o`. */
  lemma {:induction false} AlternatingIsSplitFrom(d: Dialect, s: string, o: nat, pieces: seq<string>)
    requires o <= |s| && Alternating(d, pieces) && Concat(pieces) == s[o..]
    ensures SplitFrom(d, s, o, o) == pieces
    decreases |pieces|
  {
    if |pieces| == 1 {
      LastPieceIsRest(d, s, o, pieces);
    } else {
      var i := o + |pieces[0]|;
      var j := i + |pieces[1]|;
      FirstPairInText(d, s, o, i, j, pieces);
      AlternatingIsSplitFrom(d, s, j, pieces[2..]);
      SplitOfPair(d, s, o, i, j, pieces);
    }
  }

  /** Pieces of this shape are exactly what splitting their concatenation
      gives, so the shape says all there is to say about the split. */
  lemma AlternatingIsSplit(d: Dialect, pieces: seq<string>)
    requires Alternating(d, pieces)
    ensures Split(d, Concat(pieces)) == pieces
  {
    var s := Concat(pieces);
    assert s[0..] == s;
    AlternatingIsSplitFrom(d, s, 0, pieces);
  }

  /** A single piece comes back exactly when no match starts from `q` on,
      and then it is the whole pending text. */
  lemma {:induction false} SplitFromSingle(d: Dialect, s: string, p: nat, q: nat)
    requires p <= q <= |s|
    ensures |SplitFrom(d, s, p, q)| == 1 <==> NoUrlIn(d, s, q, |s|)
    ensures NoUrlIn(d, s, q, |s|) ==> SplitFrom(d, s, p, q) == [s[p..]]
    decreases |s| - q
  {
    if q < |s| && MatchEnd(d, s, q) == q {
      SplitFromSingle(d, s, p, q + 1);
    }
  }

  lemma SplitSingleIffNoUrl(d: Dialect, s: string)
    ensures |Split(d, s)| == 1 <==> NoUrl(d, s)
    ensures NoUrl(d, s) ==> Split(d, s) == [s]
  {
    SplitFromSingle(d, s, 0, 0);
    assert s[0..] == s;
  }

  /** One part of the rendered message: plain text, or an anchor whose
      target and displayed text are both the URL. */
  datatype Part = Plain(text: string) | Anchor(href: string)

  function PartText(p: Part): string
  {
    match p
    case Plain(t) => t
    case Anchor(h) => h
  }

  /** What a reader sees: the text of every part, anchors by their text. */
  function Flatten(parts: seq<Part>): string
  {
    if parts == [] then [] else PartText(parts[0]) + Flatten(parts[1..])
  }

  /** The text of each part, in order. */
  function Texts(parts: seq<Part>): (ts: seq<string>)
    ensures |ts| == |parts|
    ensures forall i :: 0 <= i < |ts| ==> ts[i] == PartText(parts[i])
  {
    seq(|parts|, i requires 0 <= i < |parts| => PartText(parts[i]))
  }

  /** Render each piece the pattern matches as an anchor, every other piece
      as text. */
  function RenderParts(pieces: seq<string>): (parts: seq<Part>)
    ensures |parts| == |pieces|
    ensures forall i :: 0 <= i < |parts| ==> PartText(parts[i]) == pieces[i]
  {
    seq(|pieces|, i requires 0 <= i < |pieces| =>
          if NoUrl(JavaScript, pieces[i]) then Plain(pieces[i]) else Anchor(pieces[i]))
  }

  lemma {:induction false} FlattenRendersPieces(pieces: seq<string>, parts: seq<Part>)
    requires |parts| == |pieces|
    requires forall i :: 0 <= i < |parts| ==> PartText(parts[i]) == pieces[i]
    ensures Flatten(parts) == Concat(pieces)
    decreases |parts|
  {
    if parts != [] {
      FlattenRendersPieces(pieces[1..], parts[1..]);
    }
  }

  /** The parts alternate text and anchors; each anchor is a whole URL; a
      single text part comes back exactly when the text holds no URL. */
  lemma RenderedSplitShape(text: string)
    ensures var parts := RenderParts(Split(JavaScript, text));
      && Flatten(parts) == text
      && |parts| % 2 == 1
      && (forall i :: 0 <= i < |parts| && i % 2 == 0 ==> parts[i].Plain?)
      && (forall i :: 0 <= i < |parts| && i % 2 == 1 ==>
            parts[i].Anchor? && IsUrl(JavaScript, parts[i].href))
      && (parts == [Plain(text)] <==> NoUrl(JavaScript, text))
  {
    var pieces := Split(JavaScript, text);
    var parts := RenderParts(pieces);
    SplitAlternates(JavaScript, text);
    SplitSingleIffNoUrl(JavaScript, text);
    FlattenRendersPieces(pieces, parts);
    SplitConcat(JavaScript, text);
    forall i | 0 <= i < |parts| && i % 2 == 0
      ensures parts[i].Plain?
    {
      assert NoUrl(JavaScript, pieces[i]);
    }
    forall i | 0 <= i < |parts| && i % 2 == 1
      ensures parts[i].Anchor? && IsUrl(JavaScript, parts[i].href)
    {
      assert IsUrl(JavaScript, pieces[i]);
      assert !NoUrl(JavaScript, pieces[i]) by {
        assert UrlAt(JavaScript, pieces[i], 0);
      }
    }
    if parts == [Plain(text)] {
      assert |pieces| == 1;
    }
  }

  /** The dashboard's `makeLinksClickable`: split, then render each piece
      that the pattern matches as an anchor and every other piece as text. */
  function MakeLinksClickable(text: string): (parts: seq<Part>)
    ensures Flatten(parts) == text
    ensures |parts| % 2 == 1
    ensures forall i :: 0 <= i < |parts| && i % 2 == 0 ==> parts[i].Plain?
    ensures forall i :: 0 <= i < |parts| && i % 2 == 1 ==>
              parts[i].Anchor? && IsUrl(JavaScript, parts[i].href)
    ensures parts == [Plain(text)] <==> NoUrl(JavaScript, text)
    ensures Alternating(JavaScript, Texts(parts))
  {
    RenderedSplitShape(text);
    RenderedTexts(text);
    RenderParts(Split(JavaScript, text))
  }

  lemma RenderedTexts(text: string)
    ensures Alternating(JavaScript, Texts(RenderParts(Split(JavaScript, text))))
  {
    var pieces := Split(JavaScript, text);
    SplitAlternates(JavaScript, text);
    assert Texts(RenderParts(pieces)) == pieces;
  }

  /** Only the dashboard's rendering has that shape: parts that read back as
      the text, plain at even and anchors at odd positions, whose texts
      alternate as the split's pieces do, are `MakeLinksClickable` of the
      text. So no URL is left inside a plain part. */
  lemma ClickableIsDetermined(text: string, parts: seq<Part>)
    requires Flatten(parts) == text
    requires forall i :: 0 <= i < |parts| && i % 2 == 0 ==> parts[i].Plain?
    requires forall i :: 0 <= i < |parts| && i % 2 == 1 ==> parts[i].Anchor?
    requires Alternating(JavaScript, Texts(parts))
    ensures parts == MakeLinksClickable(text)
  {
    var pieces := Texts(parts);
    FlattenRendersPieces(pieces, parts);
    AlternatingIsSplit(JavaScript, pieces);
    forall i | 0 <= i < |parts|
      ensures RenderParts(pieces)[i] == parts[i]
    {
      if i % 2 == 1 {
        assert !NoUrl(JavaScript, pieces[i]) by {
          assert UrlAt(JavaScript, pieces[i], 0);
        }
      }
    }
  }

  lemma SplitUrlStep(d: Dialect, s: string, pieces: seq<string>, p: nat, q: nat)
    requires p <= q < |s| && MatchEnd(d, s, q) > q
    requires Split(d, s) == pieces + SplitFrom(d, s, p, q)
    ensures var j := MatchEnd(d, s, q);
      Split(d, s) == (pieces + [s[p..q], s[q..j]]) + SplitFrom(d, s, j, j)
  {
    var j := MatchEnd(d, s, q);
    assert SplitFrom(d, s, p, q) == [s[p..q], s[q..j]] + SplitFrom(d, s, j, j);
  }

  lemma SplitCharStep(d: Dialect, s: string, pieces: seq<string>, p: nat, q: nat)
    requires p <= q < |s| && MatchEnd(d, s, q) == q
    requires Split(d, s) == pieces + SplitFrom(d, s, p, q)
    ensures Split(d, s) == pieces + SplitFrom(d, s, p, q + 1)
  {
  }

  lemma SplitLastStep(d: Dialect, s: string, pieces: seq<string>, p: nat)
    requires p <= |s|
    requires Split(d, s) == pieces + SplitFrom(d, s, p, |s|)
    ensures Split(d, s) == pieces + [s[p..]]
  {
  }

  /** The same split written as the engine's loop. */
  method SplitByUrls(d: Dialect, s: string) returns (pieces: seq<string>)
    ensures pieces == Split(d, s)
    ensures Concat(pieces) == s
  {
    pieces := [];
    var p, q := 0, 0;
    while q < |s|
      invariant 0 <= p <= q <= |s|
      invariant Split(d, s) == pieces + SplitFrom(d, s, p, q)
      decreases |s| - q
    {
      var j := MatchEnd(d, s, q);
      if j > q {
        SplitUrlStep(d, s, pieces, p, q);
        pieces := pieces + [s[p..q], s[q..j]];
        p, q := j, j;
      } else {
        SplitCharStep(d, s, pieces, p, q);
        q := q + 1;
      }
    }
    SplitLastStep(d, s, pieces, p);
    pieces := pieces + [s[p..]];
    SplitConcat(d, s);
  }

  // ---------------------------------------------------------------------
  // The server's `re.sub(r'(https?://[^\s]+)', r'<a href="\1">\1</a>', text)`

  function AnchorHtml(url: string): string
  {
    "<a href=\"" + url + "\">" + url + "</a>"
  }

  /** `re.sub` from position `i`: where a match starts, replace it by its
      anchor and resume after it; elsewhere copy one character. */
  function LinkifyFrom(s: string, i: nat): string
    requires i <= |s|
    decreases |s| - i
  {
    if i == |s| then []
    else
      var j := MatchEnd(Python, s, i);
      if j > i then AnchorHtml(s[i..j]) + LinkifyFrom(s, j)
      else [s[i]] + LinkifyFrom(s, i + 1)
  }

  lemma LinkifyUrlLength(s: string, i: nat)
    requires i < |s| && MatchEnd(Python, s, i) > i
    requires |LinkifyFrom(s, MatchEnd(Python, s, i))| >= |s| - MatchEnd(Python, s, i)
    ensures |LinkifyFrom(s, i)| > |s| - i
    ensures !NoUrlIn(Python, s, i, |s|)
  {
    var j := MatchEnd(Python, s, i);
    assert LinkifyFrom(s, i) == AnchorHtml(s[i..j]) + LinkifyFrom(s, j);
    assert |AnchorHtml(s[i..j])| == 2 * (j - i) + 15;
    assert UrlAt(Python, s, i);
  }

  lemma LinkifyCharLength(s: string, i: nat)
    requires i < |s| && MatchEnd(Python, s, i) == i
    ensures LinkifyFrom(s, i) == [s[i]] + LinkifyFrom(s, i + 1)
    ensures NoUrlIn(Python, s, i, |s|) <==> NoUrlIn(Python, s, i + 1, |s|)
    ensures s[i..] == [s[i]] + s[i + 1..]
  {
    assert !UrlAt(Python, s, i);
  }

  /** Without a match from `i` on the text is copied; each match makes it
      longer, since an anchor holds its URL twice. */
  lemma {:induction false} LinkifyFromLength(s: string, i: nat)
    requires i <= |s|
    ensures |LinkifyFrom(s, i)| >= |s| - i
    ensures NoUrlIn(Python, s, i, |s|) ==> LinkifyFrom(s, i) == s[i..]
    ensures !NoUrlIn(Python, s, i, |s|) ==> |LinkifyFrom(s, i)| > |s| - i
    decreases |s| - i
  {
    if i < |s| {
      if MatchEnd(Python, s, i) > i {
        LinkifyFromLength(s, MatchEnd(Python, s, i));
        LinkifyUrlLength(s, i);
      } else {
        LinkifyFromLength(s, i + 1);
        LinkifyCharLength(s, i);
      }
    }
  }

  /** `make_links_clickable`. */
  function MakeLinksClickableHtml(text: string): (html: string)
    ensures NoUrl(Python, text) <==> html == text
    ensures |html| >= |text|
  {
    LinkifyFromLength(text, 0);
    assert text[0..] == text;
    LinkifyFrom(text, 0)
  }

  /** How the e-mail renders split pieces: text verbatim, URLs as anchors. */
  function RenderHtml(pieces: seq<string>): string
  {
    if |pieces| < 2 then Concat(pieces)
    else pieces[0] + AnchorHtml(pieces[1]) + RenderHtml(pieces[2..])
  }

  lemma RenderHtmlPair(t: string, u: string, rest: seq<string>)
    ensures RenderHtml([t, u] + rest) == t + AnchorHtml(u) + RenderHtml(rest)
  {
    assert ([t, u] + rest)[2..] == rest;
  }

  lemma {:induction false} LinkifyUrlStep(s: string, p: nat, q: nat)
    requires p <= q < |s| && MatchEnd(Python, s, q) > q
    requires var j := MatchEnd(Python, s, q);
      RenderHtml(SplitFrom(Python, s, j, j)) == LinkifyFrom(s, j)
    ensures RenderHtml(SplitFrom(Python, s, p, q)) == s[p..q] + LinkifyFrom(s, q)
  {
    var j := MatchEnd(Python, s, q);
    var rest := SplitFrom(Python, s, j, j);
    assert SplitFrom(Python, s, p, q) == [s[p..q], s[q..j]] + rest;
    assert LinkifyFrom(s, q) == AnchorHtml(s[q..j]) + LinkifyFrom(s, j);
    RenderHtmlPair(s[p..q], s[q..j], rest);
  }

  lemma LinkifyCharStep(s: string, p: nat, q: nat)
    requires p <= q < |s| && MatchEnd(Python, s, q) == q
    requires RenderHtml(SplitFrom(Python, s, p, q + 1)) == s[p..q + 1] + LinkifyFrom(s, q + 1)
    ensures RenderHtml(SplitFrom(Python, s, p, q)) == s[p..q] + LinkifyFrom(s, q)
  {
    assert SplitFrom(Python, s, p, q) == SplitFrom(Python, s, p, q + 1);
    assert LinkifyFrom(s, q) == [s[q]] + LinkifyFrom(s, q + 1);
    assert s[p..q + 1] == s[p..q] + [s[q]];
  }

  lemma {:induction false} LinkifyFromMatchesSplit(s: string, p: nat, q: nat)
    requires p <= q <= |s|
    ensures RenderHtml(SplitFrom(Python, s, p, q)) == s[p..q] + LinkifyFrom(s, q)
    decreases |s| - q
  {
    if q == |s| {
      assert Concat([s[p..]]) == s[p..] + Concat([]);
      assert s[p..q] == s[p..];
    } else if MatchEnd(Python, s, q) > q {
      var j := MatchEnd(Python, s, q);
      LinkifyFromMatchesSplit(s, j, j);
      assert s[j..j] == "";
      LinkifyUrlStep(s, p, q);
    } else {
      LinkifyFromMatchesSplit(s, p, q + 1);
      LinkifyCharStep(s, p, q);
    }
  }

  /** The server's anchors sit exactly on the URL pieces the dashboard's
      split finds when both use the same whitespace: the e-mail is the split
      text with each URL piece wrapped. */
  lemma HtmlMatchesSplit(text: string)
    ensures MakeLinksClickableHtml(text) == RenderHtml(Split(Python, text))
  {
    LinkifyFromMatchesSplit(text, 0, 0);
    assert text[0..0] == "";
  }
}
