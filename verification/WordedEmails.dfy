/** What the rewriting of "at" and "dot" computes, and that no address spelled out with them gets through. */
module WordedEmails {
  import opened Regex
  import opened WordRewrites
  import opened BlankRewrites
  import opened ContactInfoDetector
  import opened ContactPatterns

  // --- the rewriting, law by law ---

  function AtSign(w: string): string { if w == "at" then "@" else w }

  function DotSign(w: string): string { if w == "dot" then "." else w }

  lemma WordLaw(t: string, s: string, mark: string)
    requires AllWord(t)
    ensures ReplaceAll(WholeWord(Text(t)), s, Always(mark)) == PerWord(s, w => if w == t then mark else w)
  {
    var good := (w: string) => w == t;
    var f := (w: string) => if w == t then mark else w;
    forall i, j | 0 <= i <= j <= |s|
      ensures Matches(Text(t), s, i, j) <==> good(s[i..j]) && AllWord(s[i..j])
    {
      TextMatches(t, s, i, j);
    }
    hide Matches, Text, AllWord;
    ReplaceWholeWords(Text(t), s, good, Always(mark));
    PerWordSame(s, If(good, Always(mark)), f);
  }

  lemma AtLaw(s: string)
    ensures ReplaceAll(WholeWord(Text("at")), s, Always("@")) == PerWord(s, AtSign)
  {
    var f := (w: string) => if w == "at" then "@" else w;
    assert AllWord("at");
    hide Text, AllWord, PerWord, ReplaceAll;
    WordLaw("at", s, "@");
    PerWordSame(s, f, AtSign);
  }

  lemma DotLaw(s: string)
    ensures ReplaceAll(WholeWord(Text("dot")), s, Always(".")) == PerWord(s, DotSign)
  {
    var f := (w: string) => if w == "dot" then "." else w;
    assert AllWord("dot");
    hide Text, AllWord, PerWord, ReplaceAll;
    WordLaw("dot", s, ".");
    PerWordSame(s, f, DotSign);
  }

  /** Lower-cased, with the words at and dot as signs. */
  function Signed(content: string): string { PerWord(PerWord(Lower(content), AtSign), DotSign) }

  function Tight(s: string): string { OneBlank(Tighten(Tighten(s, '@'), '.')) }

  /**
   Each word "at" or "dot" becomes its sign, each `@` and each dot loses the blanks around it, and each
   run of blanks within a line becomes one.
   */
  lemma AtDotLaw(content: string)
    ensures NormalizeAtDot(content) == Tight(Signed(content))
  {
    var l := Lower(content);
    var at := PerWord(l, AtSign);
    var dot := Signed(content);
    hide PerWord, ReplaceAll, Text, Padded, Tighten, OneBlank, Plus;
    AtLaw(l);
    DotLaw(at);
    ReplacePadded(dot, '@');
    assert dot[0..] == dot;
    var tight := Tighten(dot, '@');
    ReplacePadded(tight, '.');
    assert tight[0..] == tight;
    var tighter := Tighten(tight, '.');
    ReplaceBlanks(tighter);
    assert tighter[0..] == tighter;
  }

  // --- spelled-out addresses ---

  /** A word, or a sign, in between blanks: in any letter case, and apart from other words. */
  predicate Spells(before: string, sign: string, after: string, word: string, c: char) {
    && AllBlank(before) && AllBlank(after)
    && (sign == [c] || (Lower(sign) == word && before != "" && after != ""))
  }

  /** A word that is neither of the two. */
  predicate Name(w: string) { AllWord(w) && Lower(w) != "at" && Lower(w) != "dot" }

  predicate TopName(t: string) { Name(t) && |t| >= 2 && forall k :: 0 <= k < |t| ==> AlphaChar(t[k]) }

  lemma SignsKeepWords(w: string)
    requires Name(w)
    ensures AllWord(Lower(w)) && Signed(w) == Lower(w)
  {
    var l := Lower(w);
    assert AllWord(l);
    hide AllWord, PerWord, Lower;
    PerWordOfWord(l, AtSign);
    PerWordOfWord(l, DotSign);
  }

  lemma SignedEdges(s: string)
    ensures WordAt(s, 0) || !WordAt(Signed(s), 0)
    ensures WordAt(s, |s| - 1) || !WordAt(Signed(s), |Signed(s)| - 1)
    ensures WordAt(s, 0) || !WordAt(PerWord(Lower(s), AtSign), 0)
    ensures WordAt(s, |s| - 1) || !WordAt(PerWord(Lower(s), AtSign), |PerWord(Lower(s), AtSign)| - 1)
  {
    var l := Lower(s);
    assert WordAt(l, 0) == WordAt(s, 0) && WordAt(l, |l| - 1) == WordAt(s, |s| - 1);
    hide PerWord, Lower;
    NoWordAtEdges(l, AtSign);
    NoWordAtEdges(PerWord(l, AtSign), DotSign);
  }

  lemma {:induction false} NoWordAtEdges(s: string, f: string -> string, i: nat := 0)
    requires i <= |s| && forall w :: AllWord(w) ==> f(w) != ""
    ensures
      var t := PerWord(s, f, i);
      && (t == "" <==> i == |s|)
      && (i < |s| && !IsWord(s[i]) ==> t[0] == s[i])
      && (i < |s| && !IsWord(s[|s| - 1]) ==> t[|t| - 1] == s[|s| - 1])
    decreases |s| - i
  {
    if i < |s| {
      if IsWord(s[i]) {
        RunIsNotEmpty(s, i);
        assert AllWord(s[i..WordEnd(s, i)]);
        NoWordAtEdges(s, f, WordEnd(s, i));
      } else {
        NoWordAtEdges(s, f, i + 1);
      }
    }
  }

  lemma SignedOfConcat(a: string, b: string)
    requires !WordAt(a, |a| - 1) || !WordAt(b, 0)
    ensures Signed(a + b) == Signed(a) + Signed(b)
  {
    var x, y := Lower(a), Lower(b);
    assert Lower(a + b) == x + y;
    assert WordAt(x, |x| - 1) == WordAt(a, |a| - 1) && WordAt(y, 0) == WordAt(b, 0);
    hide PerWord, Lower;
    PerWordOfConcat(x, y, AtSign);
    SignedEdges(a);
    SignedEdges(b);
    PerWordOfConcat(PerWord(x, AtSign), PerWord(y, AtSign), DotSign);
  }

  lemma SignedBlank(b: string)
    requires AllBlank(b)
    ensures Signed(b) == b
  {
    assert Lower(b) == b;
    hide Lower, PerWord;
    PerWordOfGap(b, AtSign);
    PerWordOfGap(b, DotSign);
  }

  lemma SignedSign(sign: string, word: string, c: char)
    requires (word == "at" && c == '@') || (word == "dot" && c == '.')
    requires sign == [c] || Lower(sign) == word
    ensures Signed(sign) == [c]
  {
    var l := Lower(sign);
    if sign == [c] {
      assert l == [c];
      hide Lower, PerWord;
      PerWordOfGap(l, AtSign);
      PerWordOfGap(l, DotSign);
    } else {
      assert AllWord(l);
      hide Lower, PerWord;
      PerWordOfWord(l, AtSign);
      if word == "at" { PerWordOfGap("@", DotSign); } else { PerWordOfWord(l, DotSign); }
    }
  }

  lemma BlankEdges(b: string)
    requires AllBlank(b)
    ensures !WordAt(b, 0) && !WordAt(b, |b| - 1)
  {
  }

  /** A sign with its blanks, whichever way it is written. */
  lemma SignedSpells(before: string, sign: string, after: string, word: string, c: char)
    requires (word == "at" && c == '@') || (word == "dot" && c == '.')
    requires Spells(before, sign, after, word, c)
    ensures Signed(before + sign + after) == before + [c] + after
    ensures !WordAt(before + sign + after, 0) && !WordAt(before + sign + after, |before + sign + after| - 1)
  {
    BlankEdges(before);
    BlankEdges(after);
    hide Signed, AllBlank, Lower;
    SignedBlank(before);
    SignedBlank(after);
    SignedSign(sign, word, c);
    SignedOfConcat(before, sign);
    SignedOfConcat(before + sign, after);
  }

  /** Text without word characters at the seams. */
  predicate Alone(p: string, q: string) { !WordAt(p, |p| - 1) && !WordAt(q, 0) }

  lemma NameEdges(w: string)
    requires AllWord(w)
    ensures w != "" && WordAt(w, 0) && WordAt(w, |w| - 1)
  {
  }

  lemma SignedTail(g: string, d: string, w: string, q: string)
    requires Name(w) && !WordAt(q, 0) && Signed(g) == d && !WordAt(g, |g| - 1)
    ensures Signed(g + (w + q)) == d + (Lower(w) + Signed(q))
  {
    SignsKeepWords(w);
    NameEdges(w);
    hide Signed, Name, Lower;
    SignedOfConcat(w, q);
    SignedOfConcat(g, w + q);
  }

  /** The whole text with its words and signs put in place. */
  lemma SignedWhole(p: string, u: string, at: string, a: string, h: string, dot: string, d: string, t: string, q: string)
    requires Alone(p, q) && Name(u) && Name(h) && Name(t) && Signed(at) == a && Signed(dot) == d
    requires at != "" && !WordAt(at, 0) && !WordAt(at, |at| - 1) && dot != "" && !WordAt(dot, 0) && !WordAt(dot, |dot| - 1)
    ensures Signed(p + (u + (at + (h + (dot + (t + q))))))
         == Signed(p) + (Lower(u) + (a + (Lower(h) + (d + (Lower(t) + Signed(q))))))
  {
    hide Signed, Name, Lower;
    SignedTail(dot, d, t, q);
    SignedTail(at, a, h, dot + (t + q));
    SignedTail(p, Signed(p), u, at + (h + (dot + (t + q))));
  }

  predicate PlainText(w: string) { w != "" && forall k :: 0 <= k < |w| ==> !IsSpace(w[k]) && w[k] != '@' && w[k] != '.' }

  lemma LowerNameIsPlain(w: string)
    requires Name(w)
    ensures PlainText(Lower(w)) && AllWord(Lower(w))
  {
  }

  /** A padded sign and a word after it, of which the sign is the one looked for. */
  lemma TightenSign(b: string, c: char, b': string, w: string, q: string)
    requires AllBlank(b) && AllBlank(b') && !IsSpace(c) && PlainText(w) && c in "@."
    ensures Tighten(b + [c] + b' + (w + q), c) == [c] + (w + Tighten(q, c))
  {
    hide Tighten, AllBlank;
    TightenOfConcat(b + [c] + b', w + q, c);
    TightenMark(b, c, b');
    TightenPlain(w, q, c);
  }

  /** A padded sign and a word after it, of which the sign is not the one looked for. */
  lemma TightenOther(d: string, c: char, w: string, q: string)
    requires c !in d && PlainText(w) && c in "@."
    ensures Tighten(d + (w + q), c) == d + (w + Tighten(q, c))
  {
    hide Tighten;
    TightenOfConcat(d, w + q, c);
    TightenNone(d, c);
    TightenPlain(w, q, c);
  }

  lemma TightenFront(p: string, w: string, q: string, c: char)
    requires w != "" && forall k :: 0 <= k < |w| ==> !IsSpace(w[k]) && w[k] != c
    ensures Tighten(p + (w + q), c) == Tighten(p, c) + (w + Tighten(q, c))
  {
    hide Tighten;
    TightenOfConcat(p, w + q, c);
    TightenPlain(w, q, c);
  }

  lemma NoAtIn(b: string, b': string)
    requires AllBlank(b) && AllBlank(b')
    ensures '@' !in b + "." + b'
  {
  }

  lemma AddressIsPlain(u: string, h: string, t: string)
    requires PlainText(u) && PlainText(h) && PlainText(t)
    ensures forall k :: 0 <= k < |u + "@" + h| ==> !IsSpace((u + "@" + h)[k]) && (u + "@" + h)[k] != '.'
    ensures forall k :: 0 <= k < |u + "@" + h + "." + t| ==> !IsSpace((u + "@" + h + "." + t)[k])
  {
    var s := u + "@" + h;
    forall k | 0 <= k < |s|
      ensures !IsSpace(s[k]) && s[k] != '.'
    {
      if k < |u| { assert s[k] == u[k]; } else if k > |u| { assert s[k] == h[k - |u| - 1]; }
    }
    var r := s + "." + t;
    forall k | 0 <= k < |r|
      ensures !IsSpace(r[k])
    {
      if k < |s| { assert r[k] == s[k]; } else if k > |s| { assert r[k] == t[k - |s| - 1]; }
    }
  }

  lemma TightensTheAt(p: string, u: string, b: string, b': string, h: string, d: string, t: string, q: string)
    requires AllBlank(b) && AllBlank(b') && PlainText(u) && PlainText(h) && PlainText(t) && '@' !in d
    ensures Tighten(p + (u + (b + "@" + b' + (h + (d + (t + q))))), '@')
         == Tighten(p, '@') + (u + "@" + h + (d + (t + Tighten(q, '@'))))
  {
    var rest := d + (t + q);
    var rest' := d + (t + Tighten(q, '@'));
    TightenOther(d, '@', t, q);
    TightenSign(b, '@', b', h, rest);
    TightenFront(p, u, b + "@" + b' + (h + rest), '@');
    hide Tighten, AllBlank, PlainText;
    assert u + ("@" + (h + rest')) == u + "@" + h + rest';
  }

  lemma TightensTheDot(p: string, ad: string, b: string, b': string, t: string, q: string)
    requires AllBlank(b) && AllBlank(b') && ad != "" && PlainText(t)
    requires forall k :: 0 <= k < |ad| ==> !IsSpace(ad[k]) && ad[k] != '.'
    ensures Tighten(p + (ad + (b + "." + b' + (t + q))), '.') == Tighten(p, '.') + (ad + "." + t + Tighten(q, '.'))
  {
    TightenSign(b, '.', b', t, q);
    TightenFront(p, ad, b + "." + b' + (t + q), '.');
    hide Tighten, AllBlank, PlainText;
    assert ad + ("." + (t + Tighten(q, '.'))) == ad + "." + t + Tighten(q, '.');
  }

  lemma OneBlankAround(p: string, ad: string, q: string)
    requires ad != "" && forall k :: 0 <= k < |ad| ==> !IsSpace(ad[k])
    ensures OneBlank(p + (ad + q)) == OneBlank(p) + (ad + OneBlank(q))
  {
    hide OneBlank;
    OneBlankOfConcat(p, ad + q);
    OneBlankPlain(ad, q);
  }

  lemma TightWhole(p: string, u: string, b: string, b': string, h: string, e: string, e': string, t: string, q: string)
    requires AllBlank(b) && AllBlank(b') && AllBlank(e) && AllBlank(e') && PlainText(u) && PlainText(h) && PlainText(t)
    ensures Tight(p + (u + (b + "@" + b' + (h + (e + "." + e' + (t + q)))))) == Tight(p) + (u + "@" + h + "." + t + Tight(q))
  {
    AddressIsPlain(u, h, t);
    hide Tighten, OneBlank, AllBlank, PlainText;
    NoAtIn(e, e');
    TightensTheAt(p, u, b, b', h, e + "." + e', t, q);
    TightensTheDot(Tighten(p, '@'), u + "@" + h, e, e', t, Tighten(q, '@'));
    OneBlankAround(Tighten(Tighten(p, '@'), '.'), u + "@" + h + "." + t, Tighten(Tighten(q, '@'), '.'));
  }

  lemma TightEdges(s: string)
    ensures WordAt(s, 0) || !WordAt(Tight(s), 0)
    ensures WordAt(s, |s| - 1) || !WordAt(Tight(s), |Tight(s)| - 1)
  {
    assert !IsWord('@') && !IsWord('.');
    hide Tighten, OneBlank, IsWord;
    TightenEdges(s, '@');
    TightenEdges(Tighten(s, '@'), '.');
    OneBlankEdges(Tighten(Tighten(s, '@'), '.'));
  }

  /** An address between texts that leave it alone is an address. */
  lemma AddressIsFound(p: string, u: string, h: string, t: string, q: string)
    requires AllWord(u) && AllWord(h) && |t| >= 2 && (forall k :: 0 <= k < |t| ==> AlphaChar(t[k])) && Alone(p, q)
    ensures
      var i, a := |p|, |p| + |u|;
      EmailAt(p + (u + "@" + h + "." + t + q), i, a, a + 1 + |h|, a + 2 + |h| + |t|)
  {
    var s := p + (u + "@" + h + "." + t + q);
    var i, a, d, j := |p|, |p| + |u|, |p| + |u| + 1 + |h|, |p| + |u| + 2 + |h| + |t|;
    assert s[i..a] == u && s[a] == '@' && s[a + 1..d] == h && s[d] == '.' && s[d + 1..j] == t && s[j..] == q;
    assert forall k :: i <= k < a ==> s[k] == u[k - i];
    assert forall k :: a < k < d ==> s[k] == h[k - a - 1];
    assert forall k :: d < k < j ==> s[k] == t[k - d - 1];
    assert i > 0 ==> s[i - 1] == p[i - 1];
    assert j < |s| ==> s[j] == q[0];
  }

  /**
   Every "user at host dot com" is blocked: in any letter case, with any blanks, with words and signs mixed,
   wherever no word runs into it.
   */
  lemma WordedEmailIsBlocked(p: string, u: string, b: string, at: string, b': string,
                             h: string, e: string, dot: string, e': string, t: string, q: string)
    requires Alone(p, q) && Name(u) && Name(h) && TopName(t)
    requires Spells(b, at, b', "at", '@') && Spells(e, dot, e', "dot", '.')
    ensures Blocked(p + (u + (b + at + b' + (h + (e + dot + e' + (t + q))))))
  {
    var content := p + (u + (b + at + b' + (h + (e + dot + e' + (t + q)))));
    TopStays(t);
    LowerNameIsPlain(u);
    LowerNameIsPlain(h);
    AddressReads(p, u, b, at, b', h, e, dot, e', t, q);
    StaysAlone(p, q);
    hide *;
    ReadAddressIsBlocked(content, Tight(Signed(p)), Lower(u), Lower(h), Lower(t), Tight(Signed(q)));
  }

  lemma ReadAddressIsBlocked(content: string, p: string, u: string, h: string, t: string, q: string)
    requires AllWord(u) && AllWord(h) && |t| >= 2 && (forall k :: 0 <= k < |t| ==> AlphaChar(t[k])) && Alone(p, q)
    requires NormalizeAtDot(content) == p + (u + "@" + h + "." + t + q)
    ensures Blocked(content)
  {
    AddressIsFound(p, u, h, t, q);
    hide *;
    var a := |p| + |u|;
    NormalizedAddressIsBlocked(content, |p|, a, a + 1 + |h|, a + 2 + |h| + |t|);
  }

  lemma StaysAlone(p: string, q: string)
    requires Alone(p, q)
    ensures Alone(Tight(Signed(p)), Tight(Signed(q)))
  {
    hide Signed, Tight;
    SignedEdges(p);
    SignedEdges(q);
    TightEdges(Signed(p));
    TightEdges(Signed(q));
  }

  /** What the rewriting makes of a spelled-out address. */
  lemma AddressReads(p: string, u: string, b: string, at: string, b': string,
                     h: string, e: string, dot: string, e': string, t: string, q: string)
    requires Alone(p, q) && Name(u) && Name(h) && Name(t)
    requires Spells(b, at, b', "at", '@') && Spells(e, dot, e', "dot", '.')
    ensures NormalizeAtDot(p + (u + (b + at + b' + (h + (e + dot + e' + (t + q))))))
         == Tight(Signed(p)) + (Lower(u) + "@" + Lower(h) + "." + Lower(t) + Tight(Signed(q)))
  {
    SignedSpells(b, at, b', "at", '@');
    SignedSpells(e, dot, e', "dot", '.');
    LowerNameIsPlain(u);
    LowerNameIsPlain(h);
    LowerNameIsPlain(t);
    SpelledNotEmpty(b, at, b', "at", '@');
    SpelledNotEmpty(e, dot, e', "dot", '.');
    SpellsBlank(b, at, b', "at", '@');
    SpellsBlank(e, dot, e', "dot", '.');
    hide Signed, Tight, Spells, Name, Lower, AllBlank, PlainText, AllWord, Alone, WordAt;
    SignedWhole(p, u, b + at + b', b + "@" + b', h, e + dot + e', e + "." + e', t, q);
    TightWhole(Signed(p), Lower(u), b, b', Lower(h), e, e', Lower(t), Signed(q));
    AtDotLaw(p + (u + (b + at + b' + (h + (e + dot + e' + (t + q))))));
  }

  lemma TopStays(t: string)
    requires TopName(t)
    ensures Name(t) && |Lower(t)| >= 2 && forall k :: 0 <= k < |Lower(t)| ==> AlphaChar(Lower(t)[k])
  {
  }

  lemma SpelledNotEmpty(b: string, sign: string, b': string, word: string, c: char)
    requires Spells(b, sign, b', word, c) && word != ""
    ensures b + sign + b' != ""
  {
  }

  lemma SpellsBlank(b: string, sign: string, b': string, word: string, c: char)
    requires Spells(b, sign, b', word, c)
    ensures AllBlank(b) && AllBlank(b')
  {
  }

  lemma NormalizedAddressIsBlocked(content: string, i: int, a: int, d: int, j: int)
    requires EmailAt(NormalizeAtDot(content), i, a, d, j)
    ensures Blocked(content)
  {
    assert i >= 0 && j >= 0;
    hide EmailAt, NormalizeAtDot, EMAIL, Blocked, PlainPhone, PlainKeyword;
    EmailMatches(NormalizeAtDot(content), i, j);
    assert Found(EMAIL, NormalizeAtDot(content));
    BlockedIsPlain(content);
  }
}
