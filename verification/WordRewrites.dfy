/**
 Rewriting whole words: what a global replacement of \b(re)\b does, said of the maximal runs of
 word characters that a text consists of.
 */
module WordRewrites {
  import opened Regex

  /** How many word characters `s` has from `i` on. */
  function WordEnd(s: string, i: nat): (r: nat)
    requires i <= |s|
    ensures i <= r <= |s|
    ensures forall k :: i <= k < r ==> IsWord(s[k])
    ensures r < |s| ==> !IsWord(s[r])
    decreases |s| - i
  {
    if i < |s| && IsWord(s[i]) then WordEnd(s, i + 1) else i
  }

  /** Every maximal word rewritten by `f`, everything else as it is. */
  function PerWord(s: string, f: string -> string, i: nat := 0): string
    requires i <= |s|
    decreases |s| - i
  {
    if i == |s| then ""
    else if !IsWord(s[i]) then [s[i]] + PerWord(s, f, i + 1)
    else
      assert WordEnd(s, i) > i;
      f(s[i..WordEnd(s, i)]) + PerWord(s, f, WordEnd(s, i))
  }

  predicate AllWord(w: string) { w != "" && forall k :: 0 <= k < |w| ==> IsWord(w[k]) }

  /** `re` matches exactly the words that are `good`. */
  ghost predicate MatchesWords(re: Re, s: string, good: string -> bool) {
    forall i, j :: 0 <= i <= j <= |s| ==>
      (Matches(re, s, i, j) <==> good(s[i..j]) && AllWord(s[i..j]))
  }

  function If(good: string -> bool, f: string -> string): string -> string {
    w => if good(w) then f(w) else w
  }

  /** No word continues at `i`. */
  predicate BetweenWords(s: string, i: nat) { !(WordAt(s, i - 1) && WordAt(s, i)) }

  lemma WholeWordMatches(re: Re, s: string, good: string -> bool, i: nat, j: int)
    requires MatchesWords(re, s, good) && i < |s|
    ensures Matches(Cat(Boundary, Cat(re, Boundary)), s, i, j)
      <==> IsWord(s[i]) && BetweenWords(s, i) && j == WordEnd(s, i) && good(s[i..WordEnd(s, i)])
  {
    var inner := Cat(re, Boundary);
    if i <= j <= |s| {
      assert Matches(Boundary, s, i, i) <==> AtBoundary(s, i);
      assert Matches(Boundary, s, j, j) <==> AtBoundary(s, j);
      assert Matches(inner, s, i, j) <==> Matches(re, s, i, j) && AtBoundary(s, j);
      assert Matches(Cat(Boundary, inner), s, i, j) <==> AtBoundary(s, i) && Matches(inner, s, i, j);
      hide Matches;
      if AllWord(s[i..j]) {
        assert s[i..j][0] == s[i];
        assert forall k :: i <= k < j ==> s[k] == s[i..j][k - i] && IsWord(s[k]);
        RunsToItsEnd(s, i, j);
      }
      if j == WordEnd(s, i) && IsWord(s[i]) {
        assert j > i by { RunIsNotEmpty(s, i); }
        assert AllWord(s[i..j]);
      }
    }
  }

  lemma RunIsNotEmpty(s: string, i: nat)
    requires i < |s| && IsWord(s[i])
    ensures WordEnd(s, i) > i
  {
  }

  lemma WordEndStep(s: string, i: nat)
    requires i < |s| && IsWord(s[i])
    ensures WordEnd(s, i + 1) == WordEnd(s, i)
  {
  }

  lemma Chunk(s: string, i: nat, e: nat, rest: string)
    requires i < e <= |s|
    ensures [s[i]] + (s[i + 1..e] + rest) == s[i..e] + rest
  {
    assert [s[i]] + s[i + 1..e] == s[i..e];
  }

  lemma Slice(s: string, i: nat, a: nat, b: nat)
    requires i <= a <= b <= |s|
    ensures s[i..][a - i..b - i] == s[a..b] && (a < b ==> s[i..][a - i] == s[a])
  {
  }

  lemma RunsToItsEnd(s: string, i: nat, j: nat)
    requires i < j <= |s| && forall k :: i <= k < j ==> IsWord(s[k])
    ensures !WordAt(s, j) <==> j == WordEnd(s, i)
  {
    assert WordEnd(s, i) >= j;
  }

  /** Where the first match at `i` ends. */
  lemma WholeWordAt(re: Re, s: string, good: string -> bool, i: nat)
    requires MatchesWords(re, s, good) && i < |s|
    ensures
      var j := MatchAt(Cat(Boundary, Cat(re, Boundary)), s, i);
      if IsWord(s[i]) && BetweenWords(s, i) && good(s[i..WordEnd(s, i)]) then j == WordEnd(s, i) > i else j == -1
  {
    var whole := Cat(Boundary, Cat(re, Boundary));
    hide Matches, MatchAt, MatchesWords, WordEnd;
    MatchAtIsMatch(whole, s, i);
    WholeWordMatches(re, s, good, i, MatchAt(whole, s, i));
    WholeWordMatches(re, s, good, i, WordEnd(s, i));
    if IsWord(s[i]) { RunIsNotEmpty(s, i); }
  }

  /** Inside a word nothing is replaced. */
  lemma {:induction false} ReplaceCopiesWord(re: Re, s: string, good: string -> bool, f: string -> string, i: nat)
    requires MatchesWords(re, s, good) && 0 < i <= |s| && IsWord(s[i - 1])
    ensures
      var whole := Cat(Boundary, Cat(re, Boundary));
      ReplaceAll(whole, s, f, i) == s[i..WordEnd(s, i)] + ReplaceAll(whole, s, f, WordEnd(s, i))
    decreases |s| - i
  {
    hide Matches, MatchAt, MatchesWords;
    if i < |s| && IsWord(s[i]) {
      WholeWordAt(re, s, good, i);
      ReplaceCopiesWord(re, s, good, f, i + 1);
      assert [s[i]] + s[i + 1..WordEnd(s, i)] == s[i..WordEnd(s, i)];
    } else {
      assert s[i..i] == "";
    }
  }

  /** A word that is not good is copied. */
  lemma ReplaceSkipsWord(re: Re, s: string, good: string -> bool, f: string -> string, i: nat)
    requires MatchesWords(re, s, good) && i < |s| && IsWord(s[i]) && !good(s[i..WordEnd(s, i)])
    ensures
      var whole := Cat(Boundary, Cat(re, Boundary));
      ReplaceAll(whole, s, f, i) == s[i..WordEnd(s, i)] + ReplaceAll(whole, s, f, WordEnd(s, i))
  {
    hide Matches, MatchAt, MatchesWords, WordEnd;
    RunIsNotEmpty(s, i);
    WholeWordAt(re, s, good, i);
    var whole := Cat(Boundary, Cat(re, Boundary));
    assert ReplaceAll(whole, s, f, i) == [s[i]] + ReplaceAll(whole, s, f, i + 1);
    hide ReplaceAll;
    ReplaceCopiesWord(re, s, good, f, i + 1);
    WordEndStep(s, i);
    Chunk(s, i, WordEnd(s, i), ReplaceAll(whole, s, f, WordEnd(s, i)));
  }

  lemma {:induction false} ReplaceWholeWords(re: Re, s: string, good: string -> bool, f: string -> string, i: nat := 0)
    requires MatchesWords(re, s, good) && i <= |s| && BetweenWords(s, i)
    ensures ReplaceAll(Cat(Boundary, Cat(re, Boundary)), s, f, i) == PerWord(s, If(good, f), i)
    decreases |s| - i
  {
    hide Matches, MatchAt, MatchesWords, WordEnd;
    if i < |s| {
      WholeWordAt(re, s, good, i);
      if !IsWord(s[i]) {
        ReplaceWholeWords(re, s, good, f, i + 1);
      } else {
        RunIsNotEmpty(s, i);
        ReplaceWholeWords(re, s, good, f, WordEnd(s, i));
        if !good(s[i..WordEnd(s, i)]) { ReplaceSkipsWord(re, s, good, f, i); }
      }
    }
  }

  // --- rewriting piece by piece ---

  /** No word runs from `a` into `b`. */
  predicate Apart(a: string, b: string) { !(WordAt(a, |a| - 1) && WordAt(b, 0)) }

  lemma {:induction false} WordEndOfSuffix(s: string, i: nat, k: nat)
    requires i <= k <= |s|
    ensures WordEnd(s, k) == i + WordEnd(s[i..], k - i)
    decreases |s| - k
  {
    if k < |s| && IsWord(s[k]) {
      assert s[i..][k - i] == s[k];
      WordEndOfSuffix(s, i, k + 1);
    }
  }

  lemma PerWordStep(s: string, f: string -> string, i: nat)
    requires i < |s|
    ensures PerWord(s, f, i) ==
      if IsWord(s[i]) then f(s[i..WordEnd(s, i)]) + PerWord(s, f, WordEnd(s, i)) else [s[i]] + PerWord(s, f, i + 1)
  {
  }

  lemma PerWordEnds(s: string, f: string -> string)
    ensures PerWord(s, f, |s|) == ""
  {
  }

  lemma {:induction false} PerWordOfSuffix(s: string, f: string -> string, i: nat, k: nat)
    requires i <= k <= |s|
    ensures PerWord(s, f, k) == PerWord(s[i..], f, k - i)
    decreases |s| - k
  {
    hide WordEnd, IsWord, PerWord;
    if k == |s| {
      PerWordEnds(s, f);
      PerWordEnds(s[i..], f);
    } else {
      Slice(s, i, k, k + 1);
      PerWordStep(s, f, k);
      PerWordStep(s[i..], f, k - i);
      if IsWord(s[k]) {
        WordEndOfSuffix(s, i, k);
        RunIsNotEmpty(s, k);
        Slice(s, i, k, WordEnd(s, k));
        PerWordOfSuffix(s, f, i, WordEnd(s, k));
      } else {
        PerWordOfSuffix(s, f, i, k + 1);
      }
    }
  }

  lemma {:induction false} WordEndOfConcat(a: string, b: string, i: nat)
    requires i <= |a| && Apart(a, b) && (i == |a| ==> WordAt(a, i - 1))
    ensures WordEnd(a + b, i) == WordEnd(a, i)
    decreases |a| - i
  {
    if i < |a| && IsWord(a[i]) { WordEndOfConcat(a, b, i + 1); }
  }

  lemma {:induction false} PerWordOfConcatFrom(a: string, b: string, f: string -> string, i: nat)
    requires i <= |a| && Apart(a, b)
    ensures PerWord(a + b, f, i) == PerWord(a, f, i) + PerWord(b, f)
    decreases |a| - i
  {
    var s := a + b;
    if i == |a| {
      PerWordOfSuffix(s, f, i, i);
      assert s[i..] == b;
    } else if IsWord(a[i]) {
      WordEndOfConcat(a, b, i);
      RunIsNotEmpty(a, i);
      assert s[i..WordEnd(a, i)] == a[i..WordEnd(a, i)];
      PerWordOfConcatFrom(a, b, f, WordEnd(a, i));
    } else {
      PerWordOfConcatFrom(a, b, f, i + 1);
    }
  }

  lemma PerWordOfConcat(a: string, b: string, f: string -> string)
    requires Apart(a, b)
    ensures PerWord(a + b, f) == PerWord(a, f) + PerWord(b, f)
  {
    PerWordOfConcatFrom(a, b, f, 0);
  }

  lemma {:induction false} WordEndOfWord(w: string, i: nat)
    requires i <= |w| && forall k :: 0 <= k < |w| ==> IsWord(w[k])
    ensures WordEnd(w, i) == |w|
    decreases |w| - i
  {
    if i < |w| { WordEndOfWord(w, i + 1); }
  }

  /** A word is rewritten as a whole. */
  lemma PerWordOfWord(w: string, f: string -> string)
    requires AllWord(w)
    ensures PerWord(w, f) == f(w)
  {
    WordEndOfWord(w, 0);
    assert w[0..|w|] == w;
    assert PerWord(w, f, |w|) == "";
  }

  /** Text without word characters stays as it is. */
  lemma {:induction false} PerWordOfGap(g: string, f: string -> string, i: nat := 0)
    requires i <= |g| && forall k :: 0 <= k < |g| ==> !IsWord(g[k])
    ensures PerWord(g, f, i) == g[i..]
    decreases |g| - i
  {
    if i < |g| {
      PerWordOfGap(g, f, i + 1);
      assert [g[i]] + g[i + 1..] == g[i..];
    }
  }

  lemma {:induction false} PerWordSame(s: string, f: string -> string, g: string -> string, i: nat := 0)
    requires i <= |s| && forall w :: AllWord(w) ==> f(w) == g(w)
    ensures PerWord(s, f, i) == PerWord(s, g, i)
    decreases |s| - i
  {
    if i < |s| {
      if IsWord(s[i]) {
        RunIsNotEmpty(s, i);
        assert AllWord(s[i..WordEnd(s, i)]);
        PerWordSame(s, f, g, WordEnd(s, i));
      } else {
        PerWordSame(s, f, g, i + 1);
      }
    }
  }

  // --- the words a pattern matches ---

  lemma {:induction false} TextMatches(t: string, s: string, i: int, j: int)
    ensures Matches(Text(t), s, i, j) <==> 0 <= i <= j <= |s| && s[i..j] == t
  {
    if t == "" {
      if 0 <= i <= j <= |s| { assert s[i..j] == "" <==> i == j; }
    } else {
      TextMatches(t[1..], s, i + 1, j);
      assert Matches(Text(t), s, i, j) <==>
        0 <= i < j <= |s| && Matches(Chr(Lit(t[0])), s, i, i + 1) && Matches(Text(t[1..]), s, i + 1, j);
      hide Text, Matches;
      if 0 <= i < j <= |s| {
        assert s[i..j] == [s[i]] + s[i + 1..j];
        assert t == [t[0]] + t[1..];
        assert s[i..j] == t ==> s[i..j][0] == t[0] && s[i..j][1..] == t[1..];
        OneCharMatches(t[0], s, i);
      }
    }
  }

  lemma OneCharMatches(c: char, s: string, i: nat)
    requires i < |s|
    ensures Matches(Chr(Lit(c)), s, i, i + 1) <==> s[i] == c
  {
  }

  lemma {:induction false} OneOfMatches(ts: seq<string>, s: string, i: int, j: int)
    requires ts != []
    ensures Matches(OneOf(ts), s, i, j) <==> 0 <= i <= j <= |s| && s[i..j] in ts
  {
    TextMatches(ts[0], s, i, j);
    if |ts| > 1 {
      OneOfMatches(ts[1..], s, i, j);
      assert Matches(OneOf(ts), s, i, j) <==> Matches(Text(ts[0]), s, i, j) || Matches(OneOf(ts[1..]), s, i, j);
    }
  }
}
