/** Tag tokenisation: the raw tag string of a request is trimmed and then
    split on runs of whitespace, as `tags.trim().split(/\s+/)` does in
    JavaScript. */
module Tokens {

  /** The characters that JavaScript's `trim` removes and that `\s` matches:
      the ECMAScript WhiteSpace and LineTerminator characters. */
  predicate IsWs(c: char) {
    || c == '\t' || c == '\n' || c == '\U{000B}' || c == '\U{000C}' || c == '\r'
    || c == ' ' || c == '\U{00A0}' || c == '\U{1680}'
    || ('\U{2000}' <= c <= '\U{200A}')
    || c == '\U{2028}' || c == '\U{2029}' || c == '\U{202F}' || c == '\U{205F}'
    || c == '\U{3000}' || c == '\U{FEFF}'
  }

  /** No character of `s` is whitespace. */
  predicate NoWs(s: string) {
    forall i :: 0 <= i < |s| ==> !IsWs(s[i])
  }

  /** Every character of `s` is whitespace (vacuously so for ""). */
  predicate AllWs(s: string) {
    forall i :: 0 <= i < |s| ==> IsWs(s[i])
  }

  /** Every character of `s` at a position in `[lo, hi)` is whitespace. */
  predicate AllWsIn(s: string, lo: nat, hi: nat)
    requires lo <= hi <= |s|
  {
    forall i :: lo <= i < hi ==> IsWs(s[i])
  }

  /** `s` neither starts nor ends with whitespace. */
  predicate NoEdgeWs(s: string) {
    s == [] || (!IsWs(s[0]) && !IsWs(s[|s| - 1]))
  }

  /** The end of the whitespace run of `s` that begins at position `i`:
      the first position from `i` on that is not whitespace, or `|s|`. */
  function WsRunEnd(s: string, i: nat): (e: nat)
    requires i <= |s|
    ensures i <= e <= |s| && AllWsIn(s, i, e)
    ensures e == |s| || !IsWs(s[e])
    decreases |s| - i
  {
    if i < |s| && IsWs(s[i]) then WsRunEnd(s, i + 1) else i
  }

  /** The start of the whitespace run of `s` that ends at position `j`,
      looking no further back than `lo`. */
  function WsRunStart(s: string, lo: nat, j: nat): (b: nat)
    requires lo <= j <= |s|
    ensures lo <= b <= j && AllWsIn(s, b, j)
    ensures b == lo || !IsWs(s[b - 1])
    decreases j
  {
    if j > lo && IsWs(s[j - 1]) then WsRunStart(s, lo, j - 1) else j
  }

  /** `String.prototype.trimStart`: drops the leading whitespace run, so
      the result is a suffix of `s` that does not start with whitespace and
      what it drops is whitespace. */
  function TrimStart(s: string): (r: string)
    ensures |r| <= |s| && r == s[|s| - |r|..]
    ensures AllWsIn(s, 0, |s| - |r|)
    ensures r == [] || !IsWs(r[0])
    ensures |s| > 0 && IsWs(s[0]) ==> |r| < |s|
  {
    s[WsRunEnd(s, 0)..]
  }

  /** `String.prototype.trim`: the slice of `s` between its leading and its
      trailing whitespace run. The result has no whitespace at either end,
      everything dropped is whitespace, and the result is empty exactly when
      `s` is all whitespace. */
  function Trim(s: string): (r: string)
    ensures |r| <= |s| - WsRunEnd(s, 0)
    ensures r == s[WsRunEnd(s, 0)..WsRunEnd(s, 0) + |r|]
    ensures AllWsIn(s, WsRunEnd(s, 0) + |r|, |s|)
    ensures NoEdgeWs(r)
    ensures r == [] <==> AllWs(s)
  {
    var lo := WsRunEnd(s, 0);
    var hi := WsRunStart(s, lo, |s|);
    s[lo..hi]
  }

  /** `s.split(/\s+/)`: the pieces between maximal whitespace runs. As in
      JavaScript, a leading or trailing run yields an empty piece and the
      empty string yields `[""]`, so the result is never empty. */
  function SplitWs(s: string): (r: seq<string>)
    ensures |r| >= 1
    decreases |s|
  {
    if s == [] then [""]
    else if IsWs(s[0]) then
      [""] + SplitWs(TrimStart(s))
    else
      var rest := SplitWs(s[1..]);
      [[s[0]] + rest[0]] + rest[1..]
  }

  /** The tag tokenisation of both the create and the patch handler. */
  function Tokenize(tags: string): (r: seq<string>)
    ensures |r| >= 1
  {
    SplitWs(Trim(tags))
  }

  // ---------------------------------------------------------------------
  // Reference definitions used to characterise the tokenisation

  /** The non-whitespace characters of `s`, in order. */
  function RemoveWs(s: string): string {
    if s == [] then [] else (if IsWs(s[0]) then [] else [s[0]]) + RemoveWs(s[1..])
  }

  /** The concatenation of all tokens. */
  function Concat(ts: seq<string>): string {
    if ts == [] then [] else ts[0] + Concat(ts[1..])
  }

  /** The tokens joined by single spaces, `ts.join(" ")`. */
  function JoinSpace(ts: seq<string>): string
    requires |ts| >= 1
  {
    if |ts| == 1 then ts[0] else ts[0] + " " + JoinSpace(ts[1..])
  }

  /** A well-formed token list: at least one token, every token non-empty
      and free of whitespace. */
  predicate WellFormedTokens(ts: seq<string>) {
    |ts| >= 1 && forall k :: 0 <= k < |ts| ==> ts[k] != [] && NoWs(ts[k])
  }

  // ---------------------------------------------------------------------
  // Properties of SplitWs

  /** Every piece of a split is free of whitespace; the first piece is empty
      exactly when `s` is empty or starts with whitespace; and when `s` does
      not end with whitespace, every later piece is non-empty. */
  lemma {:induction false} SplitWsPieces(s: string)
    ensures forall k :: 0 <= k < |SplitWs(s)| ==> NoWs(SplitWs(s)[k])
    ensures SplitWs(s)[0] == [] <==> (s == [] || IsWs(s[0]))
    ensures s == [] || !IsWs(s[|s| - 1]) ==>
              forall k :: 1 <= k < |SplitWs(s)| ==> SplitWs(s)[k] != []
    decreases |s|
  {
    if s == [] {
    } else if IsWs(s[0]) {
      var t := TrimStart(s);
      SplitWsPieces(t);
      if !IsWs(s[|s| - 1]) {
        assert t[|t| - 1] == s[|s| - 1];
      }
    } else {
      var rest := SplitWs(s[1..]);
      SplitWsPieces(s[1..]);
      var first := [s[0]] + rest[0];
      assert NoWs(first) by {
        forall i | 0 <= i < |first| ensures !IsWs(first[i]) {
          if i > 0 { assert first[i] == rest[0][i - 1]; }
        }
      }
      if |s| > 1 && !IsWs(s[|s| - 1]) {
        assert s[1..][|s| - 2] == s[|s| - 1];
      }
    }
  }

  /** Splitting loses no non-whitespace character and reorders none. */
  lemma {:induction false} SplitWsConcat(s: string)
    ensures Concat(SplitWs(s)) == RemoveWs(s)
    decreases |s|
  {
    if s == [] {
    } else if IsWs(s[0]) {
      var t := TrimStart(s);
      SplitWsConcat(t);
      RemoveWsSkipsLeading(s, |s| - |t|);
      ConcatCons("", SplitWs(t));
    } else {
      SplitWsConcat(s[1..]);
      SplitWsConcatWord(s);
    }
  }

  lemma ConcatCons(w: string, ts: seq<string>)
    ensures Concat([w] + ts) == w + Concat(ts)
  {
    assert ([w] + ts)[1..] == ts;
  }

  lemma {:induction false} SplitWsConcatWord(s: string)
    requires s != [] && !IsWs(s[0])
    ensures Concat(SplitWs(s)) == [s[0]] + Concat(SplitWs(s[1..]))
  {
    var rest, x := SplitWs(s[1..]), SplitWs(s);
    var more := Concat(rest[1..]);
    assert x[0] == [s[0]] + rest[0] && x[1..] == rest[1..];
    assert Concat(x) == x[0] + more;
    assert Concat(rest) == rest[0] + more;
    assert ([s[0]] + rest[0]) + more == [s[0]] + (rest[0] + more);
  }

  lemma {:induction false} RemoveWsSkipsLeading(s: string, n: nat)
    requires n <= |s| && AllWsIn(s, 0, n)
    ensures RemoveWs(s) == RemoveWs(s[n..])
    decreases n
  {
    if n > 0 {
      assert IsWs(s[0]);
      assert AllWsIn(s[1..], 0, n - 1) by {
        forall i | 0 <= i < n - 1 ensures IsWs(s[1..][i]) { assert s[1..][i] == s[i + 1]; }
      }
      RemoveWsSkipsLeading(s[1..], n - 1);
      assert s[1..][n - 1..] == s[n..];
    }
  }

  lemma {:induction false} RemoveWsAppend(a: string, b: string)
    ensures RemoveWs(a + b) == RemoveWs(a) + RemoveWs(b)
    decreases |a|
  {
    if a == [] {
      assert a + b == b;
    } else {
      assert (a + b)[1..] == a[1..] + b;
      RemoveWsAppend(a[1..], b);
    }
  }

  lemma {:induction false} RemoveWsOfAllWs(s: string)
    requires AllWs(s)
    ensures RemoveWs(s) == []
    decreases |s|
  {
    if s != [] {
      assert AllWs(s[1..]) by {
        forall i | 0 <= i < |s[1..]| ensures IsWs(s[1..][i]) { assert s[1..][i] == s[i + 1]; }
      }
      RemoveWsOfAllWs(s[1..]);
    }
  }

  // ---------------------------------------------------------------------
  // Properties of Trim

  /** Trimming drops only whitespace: the non-whitespace characters of the
      trimmed string are those of the input. */
  lemma TrimKeepsContent(s: string)
    ensures RemoveWs(Trim(s)) == RemoveWs(s)
  {
    var r := Trim(s);
    var lo := WsRunEnd(s, 0);
    var hi := lo + |r|;
    RemoveWsSkipsLeading(s, lo);
    assert s[lo..] == r + s[hi..];
    RemoveWsAppend(r, s[hi..]);
    assert AllWs(s[hi..]) by {
      forall i | 0 <= i < |s| - hi ensures IsWs(s[hi..][i]) { assert s[hi..][i] == s[hi + i]; }
    }
    RemoveWsOfAllWs(s[hi..]);
  }

  /** A string without whitespace at its ends is left as it is by trim. */
  lemma TrimNoEdge(s: string)
    requires NoEdgeWs(s)
    ensures Trim(s) == s
  {
  }

  // ---------------------------------------------------------------------
  // Properties of Tokenize

  /** When the trimmed input is empty (the input is empty or all
      whitespace) the tokenisation is exactly `[""]`; otherwise every token
      is non-empty and free of whitespace. Either way the array has at
      least one element, so a `length` test on it is always true. */
  lemma TokenizeShape(tags: string)
    ensures AllWs(tags) ==> Tokenize(tags) == [""]
    ensures !AllWs(tags) ==> WellFormedTokens(Tokenize(tags))
  {
    if AllWs(tags) {
      TokenizeAllWs(tags);
    } else {
      TokenizeNotAllWs(tags);
    }
  }

  lemma TokenizeAllWs(tags: string)
    requires AllWs(tags)
    ensures Tokenize(tags) == [""]
  {
    assert Trim(tags) == [];
  }

  lemma TokenizeNotAllWs(tags: string)
    requires !AllWs(tags)
    ensures WellFormedTokens(Tokenize(tags))
  {
    SplitWsWellFormed(Trim(tags));
  }

  /** A non-empty string without whitespace at its ends splits into
      well-formed tokens. */
  lemma SplitWsWellFormed(t: string)
    requires t != [] && NoEdgeWs(t)
    ensures WellFormedTokens(SplitWs(t))
  {
    SplitWsPieces(t);
    var r := SplitWs(t);
    forall k | 0 <= k < |r| ensures r[k] != [] && NoWs(r[k]) {
      if k == 0 { assert !IsWs(t[0]); }
    }
  }

  /** The tokens, concatenated, are the non-whitespace characters of the
      input in their original order. */
  lemma TokenizeConcat(tags: string)
    ensures Concat(Tokenize(tags)) == RemoveWs(tags)
  {
    SplitWsConcat(Trim(tags));
    TrimKeepsContent(tags);
  }

  lemma {:induction false} SplitWsWordPrefix(w: string, s: string)
    requires NoWs(w)
    ensures SplitWs(w + s) == [w + SplitWs(s)[0]] + SplitWs(s)[1..]
    decreases |w|
  {
    if w == [] {
      assert w + s == s;
      assert SplitWs(s) == [SplitWs(s)[0]] + SplitWs(s)[1..];
      assert w + SplitWs(s)[0] == SplitWs(s)[0];
    } else {
      assert (w + s)[0] == w[0];
      assert (w + s)[1..] == w[1..] + s;
      assert NoWs(w[1..]) by {
        forall i | 0 <= i < |w[1..]| ensures !IsWs(w[1..][i]) { assert w[1..][i] == w[i + 1]; }
      }
      SplitWsWordPrefix(w[1..], s);
      assert [w[0]] + (w[1..] + SplitWs(s)[0]) == w + SplitWs(s)[0];
    }
  }

  /** Tokenisation inverts joining with single spaces: a well-formed token
      list survives `join(" ")` followed by tokenisation unchanged. */
  lemma {:induction false} TokenizeJoin(ts: seq<string>)
    requires WellFormedTokens(ts)
    ensures Tokenize(JoinSpace(ts)) == ts
  {
    JoinSpaceEdges(ts);
    TrimNoEdge(JoinSpace(ts));
    SplitWsJoin(ts);
  }

  lemma {:induction false} JoinSpaceEdges(ts: seq<string>)
    requires WellFormedTokens(ts)
    ensures JoinSpace(ts) != [] && NoEdgeWs(JoinSpace(ts))
    ensures JoinSpace(ts)[0] == ts[0][0]
    decreases |ts|
  {
    assert !IsWs(ts[0][0]);
    if |ts| > 1 {
      var tail := ts[1..];
      assert WellFormedTokens(tail) by {
        forall k | 0 <= k < |tail| ensures tail[k] != [] && NoWs(tail[k]) { assert tail[k] == ts[k + 1]; }
      }
      JoinSpaceEdges(tail);
      var j := JoinSpace(tail);
      assert JoinSpace(ts) == ts[0] + (" " + j);
      assert JoinSpace(ts)[|JoinSpace(ts)| - 1] == j[|j| - 1];
    } else {
      var w := ts[0];
      assert !IsWs(w[|w| - 1]);
    }
  }

  lemma {:induction false} SplitWsJoin(ts: seq<string>)
    requires WellFormedTokens(ts)
    ensures SplitWs(JoinSpace(ts)) == ts
    decreases |ts|
  {
    var w := ts[0];
    if |ts| == 1 {
      SplitWsWordPrefix(w, "");
      assert w + "" == w;
    } else {
      var tail := ts[1..];
      assert WellFormedTokens(tail) by {
        forall k | 0 <= k < |tail| ensures tail[k] != [] && NoWs(tail[k]) { assert tail[k] == ts[k + 1]; }
      }
      var j := JoinSpace(tail);
      JoinSpaceEdges(tail);
      SplitWsJoin(tail);
      var u := " " + j;
      assert JoinSpace(ts) == w + u;
      SplitWsWordPrefix(w, u);
      TrimStartRun(" ", j);
      assert SplitWs(u) == [""] + ts[1..];
      assert w + "" == w;
    }
  }

  // ---------------------------------------------------------------------
  // Concrete cases

  /** A whitespace run followed by a word start contributes one empty
      piece and nothing else. */
  lemma SplitWsRun(run: string, u: string)
    requires run != [] && AllWs(run) && (u == [] || !IsWs(u[0]))
    ensures SplitWs(run + u) == [""] + SplitWs(u)
  {
    assert (run + u)[0] == run[0];
    TrimStartRun(run, u);
  }

  lemma TrimStartRun(run: string, u: string)
    requires AllWs(run) && (u == [] || !IsWs(u[0]))
    ensures TrimStart(run + u) == u
  {
    WsRunEndRun(run, u, 0);
    assert (run + u)[|run|..] == u;
  }

  lemma {:induction false} WsRunEndRun(run: string, u: string, i: nat)
    requires AllWs(run) && (u == [] || !IsWs(u[0])) && i <= |run|
    ensures WsRunEnd(run + u, i) == |run|
    decreases |run| - i
  {
    if i < |run| {
      assert (run + u)[i] == run[i];
      WsRunEndRun(run, u, i + 1);
    } else if u != [] {
      assert (run + u)[i] == u[0];
    }
  }

  /** A word, a whitespace run and a tokenisable rest: the word becomes the
      first token. */
  lemma SplitWsWordThenRun(w: string, run: string, u: string)
    requires w != [] && NoWs(w) && run != [] && AllWs(run) && (u == [] || !IsWs(u[0]))
    ensures SplitWs(w + run + u) == [w] + SplitWs(u)
  {
    SplitWsRun(run, u);
    SplitWsWordPrefix(w, run + u);
    assert w + run + u == w + (run + u);
    assert w + "" == w;
  }

  /** Three words separated by whitespace runs tokenise to the three
      words. */
  lemma TokenizeThreeWords(w1: string, run1: string, w2: string, run2: string, w3: string)
    requires w1 != [] && NoWs(w1) && w2 != [] && NoWs(w2) && w3 != [] && NoWs(w3)
    requires run1 != [] && AllWs(run1) && run2 != [] && AllWs(run2)
    ensures Tokenize(w1 + run1 + w2 + run2 + w3) == [w1, w2, w3]
  {
    var s := w1 + run1 + (w2 + run2 + w3);
    assert s == w1 + run1 + w2 + run2 + w3;
    assert s[0] == w1[0] && s[|s| - 1] == w3[|w3| - 1];
    TrimNoEdge(s);
    SplitWsWordPrefix(w3, "");
    assert w3 + "" == w3;
    SplitWsWordThenRun(w2, run2, w3);
    assert (w2 + run2 + w3)[0] == w2[0];
    SplitWsWordThenRun(w1, run1, w2 + run2 + w3);
  }

  /** `"a b  c"` tokenises to `["a", "b", "c"]`. */
  lemma TokenizeWords()
    ensures Tokenize("a b  c") == ["a", "b", "c"]
  {
    TokenizeThreeWords("a", " ", "b", "  ", "c");
    assert "a" + " " + "b" + "  " + "c" == "a b  c";
  }

  /** `"x y"` tokenises to `["x", "y"]`. */
  lemma TokenizeTwoWords()
    ensures Tokenize("x y") == ["x", "y"]
  {
    TokenizeJoin(["x", "y"]);
    assert JoinSpace(["x", "y"]) == "x y";
  }

  /** `""` and `"  "` both tokenise to `[""]`, not to an empty list. */
  lemma TokenizeBlank()
    ensures Tokenize("") == [""]
    ensures Tokenize("  ") == [""]
  {
    TokenizeShape("");
    TokenizeShape("  ");
  }
}
