/**
 * strtok with a single-character delimiter set, as a pure function.
 *
 * The shell calls strtok twice: on the command line with " " (parsecmd) and on
 * the search-path variable with ":" (get_cmd_path). Both calls mean the same
 * thing: the tokens are the maximal runs of non-delimiter characters, in order;
 * runs of delimiters are skipped, so no token is empty.
 */
module Tokenize {

  /** No character of `s` is the delimiter. */
  predicate NoDelim(s: string, d: char) {
    forall i :: 0 <= i < |s| ==> s[i] != d
  }

  /** Every character of `s` is the delimiter (the empty string included). */
  predicate AllDelim(s: string, d: char) {
    forall i :: 0 <= i < |s| ==> s[i] == d
  }

  /** Where strtok's scan from `i` finds the next non-delimiter (or the end of `s`). */
  function SkipFrom(s: string, i: nat, d: char): (j: nat)
    requires i <= |s|
    ensures i <= j <= |s|
    ensures forall k :: i <= k < j ==> s[k] == d
    ensures j == |s| || s[j] != d
    decreases |s| - i
  {
    if i < |s| && s[i] == d then SkipFrom(s, i + 1, d) else i
  }

  /** Where the token starting at `j` ends: the next delimiter (or the end of `s`). */
  function RunEnd(s: string, j: nat, d: char): (e: nat)
    requires j <= |s|
    ensures j <= e <= |s|
    ensures forall k :: j <= k < e ==> s[k] != d
    ensures e == |s| || s[e] == d
    decreases |s| - j
  {
    if j < |s| && s[j] != d then RunEnd(s, j + 1, d) else j
  }

  /** SkipFrom is the only position its contract allows. */
  lemma {:induction false} SkipFromUnique(s: string, i: nat, d: char, j: nat)
    requires i <= j <= |s|
    requires forall k :: i <= k < j ==> s[k] == d
    requires j == |s| || s[j] != d
    ensures SkipFrom(s, i, d) == j
    decreases j - i
  {
    if i < j {
      SkipFromUnique(s, i + 1, d, j);
    }
  }

  /** RunEnd is the only position its contract allows. */
  lemma {:induction false} RunEndUnique(s: string, j: nat, d: char, e: nat)
    requires j <= e <= |s|
    requires forall k :: j <= k < e ==> s[k] != d
    requires e == |s| || s[e] == d
    ensures RunEnd(s, j, d) == e
    decreases e - j
  {
    if j < e {
      RunEndUnique(s, j + 1, d, e);
    }
  }

  /**
   * The successive results of strtok(s, d), strtok(NULL, d), ... up to NULL,
   * defined one character at a time: a delimiter is dropped, and any other
   * character either starts a token or extends the token that follows it.
   */
  function Tokens(s: string, d: char): seq<string>
    decreases |s|
  {
    if s == [] then []
    else
      var rest := Tokens(s[1..], d);
      if s[0] == d then rest
      else if |s| > 1 && s[1] != d && rest != [] then [[s[0]] + rest[0]] + rest[1..]
      else [[s[0]]] + rest
  }

  /** Every token is non-empty and free of the delimiter. */
  predicate WellFormedTokens(ts: seq<string>, d: char) {
    forall i :: 0 <= i < |ts| ==> ts[i] != [] && NoDelim(ts[i], d)
  }

  /** strtok never returns an empty token, nor one holding the delimiter. */
  lemma {:induction false} TokensWellFormed(s: string, d: char)
    ensures WellFormedTokens(Tokens(s, d), d)
    decreases |s|
  {
    if s != [] {
      TokensWellFormed(s[1..], d);
    }
  }

  /** gaps[0] + toks[0] + gaps[1] + ... + toks[n-1] + gaps[n]. */
  function Weave(gaps: seq<string>, toks: seq<string>): string
    requires |gaps| == |toks| + 1
    decreases |toks|
  {
    if toks == [] then gaps[0] else gaps[0] + toks[0] + Weave(gaps[1..], toks[1..])
  }

  /**
   * `toks` are the maximal delimiter-free runs of `s`, left to right, and `gaps`
   * the delimiter runs around them: the inner gaps are non-empty, the two outer
   * ones may be empty.
   */
  ghost predicate MaximalRuns(s: string, d: char, gaps: seq<string>, toks: seq<string>) {
    && |gaps| == |toks| + 1
    && WellFormedTokens(toks, d)
    && (forall i :: 0 <= i < |gaps| ==> AllDelim(gaps[i], d))
    && (forall i :: 0 < i < |toks| ==> gaps[i] != [])
    && s == Weave(gaps, toks)
  }

  /** Items separated by `sep`, with nothing before the first or after the last. */
  function Join(ts: seq<string>, sep: string): string
    decreases |ts|
  {
    if ts == [] then []
    else if |ts| == 1 then ts[0]
    else ts[0] + sep + Join(ts[1..], sep)
  }

  /** Joining a non-empty list behind a first item puts one separator between them. */
  lemma JoinCons(r: string, ts: seq<string>, sep: string)
    requires ts != []
    ensures Join([r] + ts, sep) == r + sep + Join(ts, sep)
  {
    assert ([r] + ts)[1..] == ts;
  }

  /** A line with no leading, trailing or repeated delimiter. */
  predicate Canonical(s: string, d: char) {
    && (|s| > 0 ==> s[0] != d && s[|s| - 1] != d)
    && (forall i :: 0 <= i < |s| - 1 ==> s[i] != d || s[i + 1] != d)
  }

  /** Leading delimiters never change the tokens. */
  lemma {:induction false} TokensSkipPrefix(g: string, x: string, d: char)
    requires AllDelim(g, d)
    ensures Tokens(g + x, d) == Tokens(x, d)
    decreases |g|
  {
    if g == [] {
      assert g + x == x;
    } else {
      assert (g + x)[0] == d;
      assert (g + x)[1..] == g[1..] + x;
      TokensSkipPrefix(g[1..], x, d);
    }
  }

  /** A non-empty delimiter-free prefix followed by a delimiter (or by nothing) is the first token. */
  lemma {:induction false} TokensCons(r: string, y: string, d: char)
    requires r != [] && NoDelim(r, d)
    requires y == [] || y[0] == d
    ensures Tokens(r + y, d) == [r] + Tokens(y, d)
    decreases |r|
  {
    var s := r + y;
    assert s[0] == r[0];
    assert s[1..] == r[1..] + y;
    if |r| == 1 {
      assert s[1..] == y;
      assert [r[0]] == r;
    } else {
      TokensCons(r[1..], y, d);
      assert s[1] == r[1];
      assert [r[0]] + r[1..] == r;
    }
  }

  /**
   * One strtok call from position `pos`: skip the delimiters, return the run
   * that follows, and continue after it. This is how the character-level
   * definition unfolds one token at a time.
   */
  lemma StrtokStep(s: string, pos: nat, d: char)
    requires pos <= |s|
    ensures var j := SkipFrom(s, pos, d);
      Tokens(s[pos..], d) ==
        if j == |s| then [] else [s[j..RunEnd(s, j, d)]] + Tokens(s[RunEnd(s, j, d)..], d)
  {
    var j := SkipFrom(s, pos, d);
    SkipDelims(s, pos, d);
    if j < |s| {
      TakeRun(s, j, d);
    }
  }

  /** strtok's skip over leading delimiters loses no token. */
  lemma SkipDelims(s: string, pos: nat, d: char)
    requires pos <= |s|
    ensures Tokens(s[pos..], d) == Tokens(s[SkipFrom(s, pos, d)..], d)
  {
    var j := SkipFrom(s, pos, d);
    assert s[pos..] == s[pos..j] + s[j..];
    TokensSkipPrefix(s[pos..j], s[j..], d);
  }

  /** From a non-delimiter, the run up to the next delimiter is the first token. */
  lemma TakeRun(s: string, j: nat, d: char)
    requires j < |s| && s[j] != d
    ensures Tokens(s[j..], d) == [s[j..RunEnd(s, j, d)]] + Tokens(s[RunEnd(s, j, d)..], d)
  {
    var e := RunEnd(s, j, d);
    assert s[j..] == s[j..e] + s[e..];
    TokensCons(s[j..e], s[e..], d);
  }

  /** A line yields no token exactly when it is empty or made only of delimiters. */
  lemma {:induction false} NoTokensIffAllDelim(s: string, d: char)
    ensures Tokens(s, d) == [] <==> AllDelim(s, d)
    decreases |s|
  {
    if s != [] {
      NoTokensIffAllDelim(s[1..], d);
      if s[0] == d {
        assert AllDelim(s, d) <==> AllDelim(s[1..], d) by {
          if AllDelim(s[1..], d) {
            forall i | 0 <= i < |s| ensures s[i] == d {
              if i > 0 { assert s[i] == s[1..][i - 1]; }
            }
          }
        }
      }
    }
  }

  /** Lengthening the first gap lengthens the woven string at the front. */
  lemma WeaveGrowFirstGap(x: string, gaps: seq<string>, toks: seq<string>)
    requires |gaps| == |toks| + 1
    ensures Weave([x + gaps[0]] + gaps[1..], toks) == x + Weave(gaps, toks)
  {
    var gaps' := [x + gaps[0]] + gaps[1..];
    assert gaps'[1..] == gaps[1..];
    if toks != [] {
      assert Weave(gaps', toks) == (x + gaps[0]) + toks[0] + Weave(gaps[1..], toks[1..]);
    }
  }

  /** With no leading gap, lengthening the first token lengthens the woven string at the front. */
  lemma WeaveGrowFirstToken(c: char, gaps: seq<string>, toks: seq<string>)
    requires |gaps| == |toks| + 1 && toks != [] && gaps[0] == []
    ensures Weave(gaps, [[c] + toks[0]] + toks[1..]) == [c] + Weave(gaps, toks)
  {
    var toks' := [[c] + toks[0]] + toks[1..];
    assert toks'[1..] == toks[1..];
    PrependToEmptyGap(c, gaps[0], toks[0], Weave(gaps[1..], toks[1..]));
  }

  /** The string identity behind WeaveGrowFirstToken. */
  lemma PrependToEmptyGap(c: char, g: string, t: string, w: string)
    requires g == []
    ensures g + ([c] + t) + w == [c] + (g + t + w)
  {
  }

  /** A woven string starts with its first gap, or with its first token when that gap is empty. */
  lemma WeaveStart(gaps: seq<string>, toks: seq<string>)
    requires |gaps| == |toks| + 1
    ensures gaps[0] <= Weave(gaps, toks)
    ensures gaps[0] == [] && toks != [] ==> toks[0] <= Weave(gaps, toks)
  {
  }

  /** A delimiter in front of a decomposed string joins its first gap. */
  lemma MaximalRunsAddDelim(s: string, d: char, g: seq<string>, ts: seq<string>)
    requires MaximalRuns(s, d, g, ts)
    ensures MaximalRuns([d] + s, d, [[d] + g[0]] + g[1..], ts)
  {
    var gaps := [[d] + g[0]] + g[1..];
    WeaveGrowFirstGap([d], g, ts);
    forall i | 0 < i < |gaps| ensures gaps[i] == g[i] {
    }
    assert AllDelim(gaps[0], d) by {
      forall k | 0 <= k < |gaps[0]| ensures gaps[0][k] == d {
        if k > 0 { assert gaps[0][k] == g[0][k - 1]; }
      }
    }
  }

  /** A non-delimiter in front of a string that starts with a token extends that token. */
  lemma MaximalRunsExtendToken(c: char, s: string, d: char, g: seq<string>, ts: seq<string>)
    requires MaximalRuns(s, d, g, ts)
    requires c != d && ts != [] && g[0] == []
    ensures MaximalRuns([c] + s, d, g, [[c] + ts[0]] + ts[1..])
  {
    var toks := [[c] + ts[0]] + ts[1..];
    WeaveGrowFirstToken(c, g, ts);
    forall i | 0 <= i < |toks| ensures toks[i] != [] && NoDelim(toks[i], d) {
      if i > 0 {
        assert toks[i] == ts[i];
      } else {
        forall k | 0 <= k < |toks[0]| ensures toks[0][k] != d {
          if k > 0 { assert toks[0][k] == ts[0][k - 1]; }
        }
      }
    }
  }

  /** A non-delimiter in front of a string that starts with a delimiter (or is empty) is a token of its own. */
  lemma MaximalRunsNewToken(c: char, s: string, d: char, g: seq<string>, ts: seq<string>)
    requires MaximalRuns(s, d, g, ts)
    requires c != d && (ts != [] ==> g[0] != [])
    ensures MaximalRuns([c] + s, d, [[]] + g, [[c]] + ts)
  {
    var gaps := [[]] + g;
    var toks := [[c]] + ts;
    assert gaps[1..] == g && toks[1..] == ts;
    assert Weave(gaps, toks) == [c] + Weave(g, ts);
    forall i | 0 < i < |gaps| ensures gaps[i] == g[i - 1] {
    }
    forall i | 0 < i < |toks| ensures toks[i] == ts[i - 1] {
    }
  }

  /** The tokens are the maximal runs: a decomposition around them exists. */
  lemma {:induction false} TokensAreMaximalRuns(s: string, d: char)
    ensures exists gaps :: MaximalRuns(s, d, gaps, Tokens(s, d))
    decreases |s|
  {
    if s == [] {
      assert Tokens(s, d) == [];
      assert MaximalRuns(s, d, [[]], Tokens(s, d));
    } else {
      var s' := s[1..];
      assert s == [s[0]] + s';
      TokensAreMaximalRuns(s', d);
      var ts := Tokens(s', d);
      var g :| MaximalRuns(s', d, g, ts);
      WeaveStart(g, ts);
      if s[0] == d {
        MaximalRunsAddDelim(s', d, g, ts);
        assert MaximalRuns(s, d, [[d] + g[0]] + g[1..], Tokens(s, d));
      } else if |s| > 1 && s[1] != d && ts != [] {
        assert g[0] == [];
        MaximalRunsExtendToken(s[0], s', d, g, ts);
        assert MaximalRuns(s, d, g, Tokens(s, d));
      } else {
        assert ts != [] ==> g[0] != [];
        MaximalRunsNewToken(s[0], s', d, g, ts);
        assert MaximalRuns(s, d, [[]] + g, Tokens(s, d));
      }
    }
  }

  /** ... and any such decomposition names exactly the tokens strtok returns. */
  lemma {:induction false} MaximalRunsAreTokens(s: string, d: char, gaps: seq<string>, toks: seq<string>)
    requires MaximalRuns(s, d, gaps, toks)
    ensures toks == Tokens(s, d)
    decreases |toks|
  {
    if toks == [] {
      TokensSkipPrefix(gaps[0], [], d);
      assert gaps[0] + [] == gaps[0];
    } else {
      var w := Weave(gaps[1..], toks[1..]);
      assert s == gaps[0] + (toks[0] + w);
      TokensSkipPrefix(gaps[0], toks[0] + w, d);
      WeaveStart(gaps[1..], toks[1..]);
      assert w == [] || w[0] == d by {
        if |toks| > 1 {
          assert gaps[1..][0] == gaps[1] && gaps[1] != [];
        }
      }
      TokensCons(toks[0], w, d);
      assert MaximalRuns(w, d, gaps[1..], toks[1..]) by {
        forall i | 0 < i < |toks| - 1
          ensures gaps[1..][i] != []
        {
          assert gaps[1..][i] == gaps[i + 1];
        }
      }
      MaximalRunsAreTokens(w, d, gaps[1..], toks[1..]);
    }
  }

  /** Joining delimiter-free tokens with one delimiter and splitting again gives them back. */
  lemma {:induction false} TokensOfJoin(ts: seq<string>, d: char)
    requires WellFormedTokens(ts, d)
    ensures Tokens(Join(ts, [d]), d) == ts
    decreases |ts|
  {
    if |ts| == 1 {
      TokensCons(ts[0], [], d);
      assert ts[0] + [] == ts[0];
    } else if |ts| > 1 {
      var j := Join(ts[1..], [d]);
      assert Join(ts, [d]) == ts[0] + ([d] + j);
      TokensCons(ts[0], [d] + j, d);
      TokensSkipPrefix([d], j, d);
      TokensOfJoin(ts[1..], d);
      assert ts == [ts[0]] + ts[1..];
    }
  }

  /** What follows the first token and its delimiter in a canonical line is canonical and non-empty. */
  lemma CanonicalTail(s: string, k: nat, d: char)
    requires Canonical(s, d) && k < |s| && s[k] == d
    ensures s[k + 1..] != [] && s[k + 1] != d && Canonical(s[k + 1..], d)
  {
    var s' := s[k + 1..];
    assert k < |s| - 1;
    assert s'[0] == s[k + 1];
    forall i | 0 <= i < |s'| - 1
      ensures s'[i] != d || s'[i + 1] != d
    {
      assert s'[i] == s[k + 1 + i] && s'[i + 1] == s[k + 1 + i + 1];
    }
    assert s'[|s'| - 1] == s[|s| - 1];
  }

  /** A canonical line is rebuilt by joining its tokens with single delimiters. */
  lemma {:induction false} JoinOfTokens(s: string, d: char)
    requires Canonical(s, d)
    ensures Join(Tokens(s, d), [d]) == s
    decreases |s|
  {
    if s != [] {
      var e := RunEnd(s, 0, d);
      if e == |s| {
        assert s[..e] == s;
        TokensCons(s, [], d);
        assert s + [] == s;
      } else {
        CanonicalTail(s, e, d);
        var s' := s[e + 1..];
        JoinOfTokens(s', d);
        assert s == s[..e] + [d] + s';
        JoinStep(s, s[..e], s', d);
      }
    }
  }

  /** The inductive step of JoinOfTokens: first token, one delimiter, then the rest. */
  lemma JoinStep(s: string, r: string, s': string, d: char)
    requires r != [] && NoDelim(r, d)
    requires s == r + [d] + s'
    requires s' != [] && s'[0] != d
    requires Join(Tokens(s', d), [d]) == s'
    ensures Join(Tokens(s, d), [d]) == s
  {
    TokensAfterDelim(s, r, s', d);
    var ts' := Tokens(s', d);
    assert ts' != [];
    JoinCons(r, ts', [d]);
  }

  /** A first run followed by one delimiter: that run, then the tokens of the rest. */
  lemma TokensAfterDelim(s: string, r: string, s': string, d: char)
    requires r != [] && NoDelim(r, d)
    requires s == r + [d] + s'
    ensures Tokens(s, d) == [r] + Tokens(s', d)
  {
    assert s == r + ([d] + s');
    TokensCons(r, [d] + s', d);
    TokensSkipPrefix([d], s', d);
  }
}
