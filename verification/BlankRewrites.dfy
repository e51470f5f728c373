/** Rewriting white space: what the global replacements of blank runs and of padded marks compute. */
module BlankRewrites {
  import opened Regex
  import opened WordRewrites
  import opened ContactInfoDetector

  /** How many characters of a class a text starts with. */
  function Lead(k: Class, s: string): (r: nat)
    ensures r <= |s|
  {
    if s != "" && In(s[0], k) then 1 + Lead(k, s[1..]) else 0
  }

  function Without(k: Class, s: string): string { s[Lead(k, s)..] }

  lemma {:induction false} LeadIsAll(k: Class, s: string)
    ensures forall n :: 0 <= n < Lead(k, s) ==> In(s[n], k)
    ensures Lead(k, s) < |s| ==> !In(s[Lead(k, s)], k)
  {
    if s != "" && In(s[0], k) {
      LeadIsAll(k, s[1..]);
      assert forall n :: 0 < n < |s| ==> s[n] == s[1..][n - 1];
    }
  }

  /** Repetition is greedy. */
  lemma {:induction false} StarIsGreedy(k: Class, s: string, i: nat)
    requires i <= |s|
    ensures Ends(Star(Chr(k)), s, i) != [] && Ends(Star(Chr(k)), s, i)[0] == i + Lead(k, s[i..])
    decreases |s| - i
  {
    if i < |s| && In(s[i], k) {
      StarIsGreedy(k, s, i + 1);
      assert s[i..][1..] == s[i + 1..];
      assert Ends(Chr(k), s, i) == [i + 1] && Above([i + 1], i) == [i + 1];
      assert EndsAfter(Star(Chr(k)), s, [i + 1], i + 1) == Ends(Star(Chr(k)), s, i + 1) + [];
    } else if i < |s| {
      assert Ends(Chr(k), s, i) == [] && Above([], i) == [];
    }
  }

  lemma PlusIsGreedy(k: Class, s: string, i: nat)
    requires i < |s|
    ensures MatchAt(Plus(Chr(k)), s, i) == if In(s[i], k) then i + Lead(k, s[i..]) else -1
  {
    assert Ends(Plus(Chr(k)), s, i) == EndsAfter(Star(Chr(k)), s, Ends(Chr(k), s, i), i);
    if In(s[i], k) {
      StarIsGreedy(k, s, i + 1);
      assert s[i..][1..] == s[i + 1..];
      assert Ends(Chr(k), s, i) == [i + 1];
      assert EndsAfter(Star(Chr(k)), s, [i + 1], i) == Ends(Star(Chr(k)), s, i + 1) + [];
    }
  }

  lemma EndsAfterFirst(re: Re, s: string, starts: seq<nat>, lo: nat)
    requires lo <= |s| && starts != [] && forall j :: j in starts ==> lo <= j <= |s|
    requires starts[0] in starts && Ends(re, s, starts[0]) != []
    ensures EndsAfter(re, s, starts, lo) != [] && EndsAfter(re, s, starts, lo)[0] == Ends(re, s, starts[0])[0]
  {
  }

  /** A mark and the blanks after it. */
  lemma MarkEnds(c: char, s: string, e: nat)
    requires e < |s| && s[e] == c
    ensures
      var ends := Ends(Cat(Chr(Lit(c)), Star(Chr(Space))), s, e);
      ends != [] && ends[0] == e + 1 + Lead(Space, s[e + 1..])
  {
    StarIsGreedy(Space, s, e + 1);
    assert Ends(Chr(Lit(c)), s, e) == [e + 1];
    assert EndsAfter(Star(Chr(Space)), s, [e + 1], e) == Ends(Star(Chr(Space)), s, e + 1) + [];
  }

  /** \s*c\s* takes all the blanks around its mark. */
  lemma PaddedMatch(c: char, s: string, i: nat)
    requires i <= |s| && !IsSpace(c)
    ensures
      var e := i + Lead(Space, s[i..]);
      MatchAt(Padded(c), s, i) == if e < |s| && s[e] == c then e + 1 + Lead(Space, s[e + 1..]) else -1
  {
    var e := i + Lead(Space, s[i..]);
    var starts := Ends(Star(Chr(Space)), s, i);
    StarIsGreedy(Space, s, i);
    assert starts[0] in starts;
    if e < |s| && s[e] == c {
      MarkEnds(c, s, e);
      hide Lead;
      EndsAfterFirst(Cat(Chr(Lit(c)), Star(Chr(Space))), s, starts, i);
    } else {
      NoMarkNoMatch(c, s, i);
    }
  }

  lemma NoMarkNoMatch(c: char, s: string, i: nat)
    requires i <= |s| && !IsSpace(c)
    requires var e := i + Lead(Space, s[i..]); e == |s| || s[e] != c
    ensures MatchAt(Padded(c), s, i) == -1
  {
    var e := i + Lead(Space, s[i..]);
    LeadIsAll(Space, s[i..]);
    MatchAtIsMatch(Padded(c), s, i);
    forall j
      ensures !Matches(Padded(c), s, i, j)
    {
      forall m | i <= m <= |s|
        ensures !(Matches(Star(Chr(Space)), s, i, m) && Matches(Cat(Chr(Lit(c)), Star(Chr(Space))), s, m, j))
      {
        StarMatches(Space, s, i, m);
        MarkFirst(c, s, m, j);
      }
    }
  }

  lemma MarkFirst(c: char, s: string, m: nat, j: int)
    requires m <= |s|
    ensures Matches(Cat(Chr(Lit(c)), Star(Chr(Space))), s, m, j) ==> m < |s| && s[m] == c
  {
    EndsAreMatches(Cat(Chr(Lit(c)), Star(Chr(Space))), s, m);
    if m == |s| || s[m] != c {
      assert Ends(Chr(Lit(c)), s, m) == [];
      assert Ends(Cat(Chr(Lit(c)), Star(Chr(Space))), s, m) == [];
    }
  }

  /** The first thing in the text that is not blank is the mark. */
  predicate Marked(s: string, c: char) { Lead(Space, s) < |s| && s[Lead(Space, s)] == c }

  /** What follows the mark and the blanks around it. */
  function After(s: string, c: char): (r: string)
    requires Marked(s, c)
    ensures |r| < |s|
  {
    Without(Space, s[Lead(Space, s) + 1..])
  }

  /** Every mark loses the blanks around it. */
  function Tighten(s: string, c: char): string {
    if s == "" then ""
    else if Marked(s, c) then [c] + Tighten(After(s, c), c)
    else [s[0]] + Tighten(s[1..], c)
  }

  lemma CutTwice(s: string, i: nat, n: nat)
    requires i + n <= |s|
    ensures s[i..][n..] == s[i + n..] && (i + n < |s| ==> s[i..][n] == s[i + n])
  {
  }

  lemma SuffixStep(s: string, i: nat)
    requires i < |s|
    ensures s[i..] != "" && s[i..][0] == s[i] && s[i..][1..] == s[i + 1..]
  {
  }

  /** The end of a padded mark, as a cut of the text. */
  lemma PaddedCut(c: char, s: string, i: nat)
    requires i <= |s| && !IsSpace(c)
    ensures
      var j := MatchAt(Padded(c), s, i);
      if Marked(s[i..], c) then j > i && s[j..] == After(s[i..], c) else j == -1
  {
    hide MatchAt, Padded;
    PaddedMatch(c, s, i);
    var e := Lead(Space, s[i..]);
    hide Lead;
    CutTwice(s, i, e);
    if i + e < |s| && s[i + e] == c {
      CutTwice(s, i, e + 1);
      CutTwice(s, i + e + 1, Lead(Space, s[i + e + 1..]));
    }
  }

  lemma {:induction false} ReplacePadded(s: string, c: char, i: nat := 0)
    requires i <= |s| && !IsSpace(c)
    ensures ReplaceAll(Padded(c), s, Always([c]), i) == Tighten(s[i..], c)
    decreases |s| - i
  {
    hide MatchAt, Marked, After, Padded;
    if i < |s| {
      PaddedCut(c, s, i);
      SuffixStep(s, i);
      ReplacePadded(s, c, if Marked(s[i..], c) then MatchAt(Padded(c), s, i) else i + 1);
    }
  }

  /** Every run of blanks becomes one blank. */
  function OneBlank(s: string): string {
    if s == "" then ""
    else if In(s[0], BlankOnly) then " " + OneBlank(Without(BlankOnly, s[1..]))
    else [s[0]] + OneBlank(s[1..])
  }

  lemma {:induction false} ReplaceBlanks(s: string, i: nat := 0)
    requires i <= |s|
    ensures ReplaceAll(Plus(Chr(BlankOnly)), s, Always(" "), i) == OneBlank(s[i..])
    decreases |s| - i
  {
    if i < |s| {
      PlusIsGreedy(BlankOnly, s, i);
      assert s[i..][1..] == s[i + 1..];
      if In(s[i], BlankOnly) {
        var n := Lead(BlankOnly, s[i..]);
        assert n == 1 + Lead(BlankOnly, s[i + 1..]);
        hide MatchAt, Plus, Lead;
        assert Without(BlankOnly, s[i + 1..]) == s[i + n..];
        ReplaceBlanks(s, i + n);
      } else {
        hide MatchAt, Plus, Lead;
        ReplaceBlanks(s, i + 1);
      }
    }
  }

  // --- piece by piece ---

  lemma {:induction false} LeadOfConcat(k: Class, a: string, b: string)
    requires b == "" || !In(b[0], k)
    ensures Lead(k, a + b) == Lead(k, a) && Without(k, a + b) == Without(k, a) + b
  {
    if a == "" {
      assert a + b == b;
    } else {
      TailOfConcat(a, b);
      if In(a[0], k) {
        hide In;
        LeadOfConcat(k, a[1..], b);
      }
    }
  }

  lemma TailOfConcat(a: string, b: string)
    requires a != ""
    ensures a + b != "" && (a + b)[0] == a[0] && (a + b)[1..] == a[1..] + b
  {
  }

  lemma DropOfConcat(a: string, b: string, n: nat)
    requires n <= |a|
    ensures (a + b)[n..] == a[n..] + b && (n < |a| ==> (a + b)[n] == a[n])
  {
  }

  lemma LeadOfBlank(b: string)
    requires b == "" || !IsSpace(b[0])
    ensures b == "" || (!In(b[0], Space) && !In(b[0], BlankOnly))
  {
  }

  lemma MarkedOfConcat(a: string, b: string, c: char)
    requires a != "" && (b == "" || (!IsSpace(b[0]) && b[0] != c))
    ensures Marked(a + b, c) <==> Marked(a, c)
    ensures Marked(a, c) ==> After(a + b, c) == After(a, c) + b
  {
    LeadOfBlank(b);
    hide Lead, In, IsSpace;
    LeadOfConcat(Space, a, b);
    var e := Lead(Space, a);
    DropOfConcat(a, b, e);
    if e < |a| {
      DropOfConcat(a, b, e + 1);
      LeadOfConcat(Space, a[e + 1..], b);
    }
  }

  lemma Regroup(a: string, b: string, c: string)
    ensures a + (b + c) == a + b + c
  {
  }

  /** Where a text continues with neither blank nor mark, both parts are tightened by themselves. */
  lemma {:induction false} TightenOfConcat(a: string, b: string, c: char)
    requires b == "" || (!IsSpace(b[0]) && b[0] != c)
    ensures Tighten(a + b, c) == Tighten(a, c) + Tighten(b, c)
    decreases |a|
  {
    if a == "" {
      assert a + b == b;
    } else {
      MarkedOfConcat(a, b, c);
      TailOfConcat(a, b);
      hide Marked, After, IsSpace;
      var rest := if Marked(a, c) then After(a, c) else a[1..];
      TightenOfConcat(rest, b, c);
      Regroup(if Marked(a, c) then [c] else [a[0]], Tighten(rest, c), Tighten(b, c));
    }
  }

  lemma {:induction false} TightenNone(s: string, c: char)
    requires c !in s
    ensures Tighten(s, c) == s
  {
    if s != "" {
      assert forall x :: x in s[1..] ==> x in s;
      TightenNone(s[1..], c);
      assert [s[0]] + s[1..] == s;
    }
  }

  /** Text without blanks and marks in front is copied. */
  lemma {:induction false} TightenPlain(w: string, t: string, c: char)
    requires forall k :: 0 <= k < |w| ==> !IsSpace(w[k]) && w[k] != c
    ensures Tighten(w + t, c) == w + Tighten(t, c)
  {
    if w == "" {
      assert w + t == t;
    } else {
      TailOfConcat(w, t);
      assert !Marked(w + t, c) by { assert Lead(Space, w + t) == 0; }
      hide Marked, After, IsSpace;
      TightenPlain(w[1..], t, c);
      Regroup([w[0]], w[1..], Tighten(t, c));
      assert [w[0]] + w[1..] == w;
    }
  }

  predicate AllBlank(b: string) { forall n :: 0 <= n < |b| ==> IsSpace(b[n]) }

  lemma {:induction false} LeadOfBlanks(b: string)
    requires AllBlank(b)
    ensures Lead(Space, b) == |b|
  {
    if b != "" { LeadOfBlanks(b[1..]); }
  }

  lemma TightenMark(b: string, c: char, b': string)
    requires AllBlank(b) && AllBlank(b') && !IsSpace(c)
    ensures Tighten(b + [c] + b', c) == [c]
  {
    var s := b + [c] + b';
    LeadOfBlanks(b);
    LeadOfBlanks(b');
    assert !In(c, Space);
    hide Lead, In, AllBlank;
    LeadOfConcat(Space, b, [c] + b');
    assert s == b + ([c] + b');
    assert s[|b|] == c && s[|b| + 1..] == b';
    assert Without(Space, b') == "";
  }

  lemma AfterEnds(s: string, c: char)
    requires Marked(s, c)
    ensures After(s, c) != "" ==> After(s, c)[|After(s, c)| - 1] == s[|s| - 1]
  {
    hide Lead;
  }

  /** A text that ends, or starts, outside of words still does. */
  lemma {:induction false} TightenEdges(s: string, c: char)
    requires !IsWord(c)
    ensures
      var t := Tighten(s, c);
      && (t == "" <==> s == "")
      && (s != "" && !IsWord(s[|s| - 1]) ==> !IsWord(t[|t| - 1]))
      && (s != "" && !IsWord(s[0]) ==> !IsWord(t[0]))
    decreases |s|
  {
    if s != "" {
      if Marked(s, c) { AfterEnds(s, c); }
      hide Marked, After, IsWord;
      TightenEdges(if Marked(s, c) then After(s, c) else s[1..], c);
    }
  }

  lemma {:induction false} OneBlankOfConcat(a: string, b: string)
    requires b == "" || !IsSpace(b[0])
    ensures OneBlank(a + b) == OneBlank(a) + OneBlank(b)
    decreases |a|
  {
    if a == "" {
      assert a + b == b;
    } else {
      LeadOfBlank(b);
      hide Lead, In, IsSpace;
      assert (a + b)[1..] == a[1..] + b;
      if In(a[0], BlankOnly) {
        LeadOfConcat(BlankOnly, a[1..], b);
        OneBlankOfConcat(Without(BlankOnly, a[1..]), b);
      } else {
        OneBlankOfConcat(a[1..], b);
      }
    }
  }

  lemma {:induction false} OneBlankPlain(w: string, t: string)
    requires forall k :: 0 <= k < |w| ==> !IsSpace(w[k])
    ensures OneBlank(w + t) == w + OneBlank(t)
  {
    if w == "" {
      assert w + t == t;
    } else {
      assert (w + t)[1..] == w[1..] + t;
      OneBlankPlain(w[1..], t);
    }
  }

  lemma {:induction false} OneBlankEdges(s: string)
    ensures
      var t := OneBlank(s);
      && (t == "" <==> s == "")
      && (s != "" && !IsWord(s[|s| - 1]) ==> !IsWord(t[|t| - 1]))
      && (s != "" && !IsWord(s[0]) ==> !IsWord(t[0]))
    decreases |s|
  {
    assert !IsWord(' ');
    hide Lead, IsWord;
    if s != "" {
      if In(s[0], BlankOnly) {
        var rest := Without(BlankOnly, s[1..]);
        assert rest != "" ==> rest[|rest| - 1] == s[|s| - 1];
        OneBlankEdges(rest);
      } else {
        OneBlankEdges(s[1..]);
      }
    }
  }
}
