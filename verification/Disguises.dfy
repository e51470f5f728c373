/**
 What the detector's rewrites of number words and look-alike letters compute, and that no phone
 number gets through by being spelled out.
 */
module Disguises {
  import opened Regex
  import opened SeparatorCollapse
  import opened WordRewrites
  import opened ContactInfoDetector

  // --- number words ---

  /** A lower-case word as a figure, if it is one of the eleven number words. */
  function Figure(w: string): string {
    if w == "zero" || w == "oh" then "0"
    else if w == "one" then "1"
    else if w == "two" then "2"
    else if w == "three" then "3"
    else if w == "four" then "4"
    else if w == "five" then "5"
    else if w == "six" then "6"
    else if w == "seven" then "7"
    else if w == "eight" then "8"
    else if w == "nine" then "9"
    else w
  }

  predicate IsNumberWord(w: string) { w in NUMBER_WORDS }

  lemma NumberWordsAreWords()
    ensures forall t :: t in NUMBER_WORDS ==> AllWord(t)
  {
  }

  lemma FigureIsWordDigit(w: string)
    ensures If(IsNumberWord, WordDigit)(w) == Figure(w)
  {
    assert If(IsNumberWord, WordDigit)(w) == if IsNumberWord(w) then WordDigit(w) else w;
    IsOneOfEleven(w);
  }

  lemma IsOneOfEleven(w: string)
    ensures IsNumberWord(w) <==>
      w == "zero" || w == "oh" || w == "one" || w == "two" || w == "three" || w == "four" || w == "five" || w == "six"
      || w == "seven" || w == "eight" || w == "nine"
  {
    var ws := NUMBER_WORDS;
    assert |ws| == 11 && ws[0] == "zero" && ws[1] == "oh" && ws[2] == "one" && ws[3] == "two" && ws[4] == "three" && ws[5] == "four";
    assert ws[6] == "five" && ws[7] == "six" && ws[8] == "seven" && ws[9] == "eight" && ws[10] == "nine";
  }

  /** Each maximal word that is one of the eleven becomes its figure; everything else is only lower-cased. */
  lemma NumberWordsLaw(content: string)
    ensures WordsToDigits(content) == PerWord(Lower(content), Figure)
  {
    var s := Lower(content);
    NumberWordsAreWords();
    forall i, j | 0 <= i <= j <= |s|
      ensures Matches(OneOf(NUMBER_WORDS), s, i, j) <==> IsNumberWord(s[i..j]) && AllWord(s[i..j])
    {
      OneOfMatches(NUMBER_WORDS, s, i, j);
    }
    hide Matches, OneOf, IsNumberWord, Figure, WordDigit;
    ReplaceWholeWords(OneOf(NUMBER_WORDS), s, IsNumberWord, WordDigit);
    forall w
      ensures If(IsNumberWord, WordDigit)(w) == Figure(w)
    {
      FigureIsWordDigit(w);
    }
    PerWordSame(s, If(IsNumberWord, WordDigit), Figure);
  }

  // --- look-alikes ---

  predicate LooksLikeDigit(c: char) { '0' <= c <= '9' || c == 'O' || c == 'o' || c == 'l' || c == 'I' }

  /** Two to four characters that all look like digits, one of them a digit. */
  predicate IsToken(w: string) {
    2 <= |w| <= 4 && (forall k :: 0 <= k < |w| ==> LooksLikeDigit(w[k])) && exists k :: 0 <= k < |w| && '0' <= w[k] <= '9'
  }

  function DigitFor(c: char): char {
    if c == 'O' || c == 'o' then '0' else if c == 'I' || c == 'l' then '1' else c
  }

  function TokenFigures(w: string): string {
    if IsToken(w) then seq(|w|, k requires 0 <= k < |w| => DigitFor(w[k])) else w
  }

  predicate IsLookalike(w: string) { 2 <= |w| <= 4 && forall k :: 0 <= k < |w| ==> In(w[k], DigitLike) }

  lemma TokenMatches(s: string, i: int, j: int)
    ensures Matches(LOOKALIKE_TOKEN, s, i, j)
      <==> 0 <= i <= j <= |s| && 2 <= j - i <= 4 && forall k :: i <= k < j ==> In(s[k], DigitLike)
  {
    var one := Chr(DigitLike);
    var last := Opt(one);
    var more := Opt(Cat(one, last));
    var tail := Cat(one, more);
    assert forall a, b :: Matches(one, s, a, b) <==> 0 <= a < |s| && b == a + 1 && In(s[a], DigitLike);
    assert forall a, b :: Matches(last, s, a, b) <==> 0 <= a <= b <= |s| && (a == b || Matches(one, s, a, b));
    assert Matches(LOOKALIKE_TOKEN, s, i, j) <==> Matches(one, s, i, i + 1) && Matches(tail, s, i + 1, j);
    assert Matches(tail, s, i + 1, j) <==> Matches(one, s, i + 1, i + 2) && Matches(more, s, i + 2, j);
    MoreMatches(s, i + 2, j);
  }

  lemma MoreMatches(s: string, i: int, j: int)
    ensures Matches(Opt(Cat(Chr(DigitLike), Opt(Chr(DigitLike)))), s, i, j)
      <==> 0 <= i <= j <= |s| && j - i <= 2 && forall k :: i <= k < j ==> In(s[k], DigitLike)
  {
    var one := Chr(DigitLike);
    var two := Cat(one, Opt(one));
    if 0 <= i < j <= |s| {
      assert Matches(two, s, i, j) <==> Matches(one, s, i, i + 1) && Matches(Opt(one), s, i + 1, j);
      assert Matches(Opt(one), s, i + 1, j) <==> i + 1 == j || Matches(one, s, i + 1, j);
    }
  }

  lemma LookalikesLaw(content: string)
    ensures SubstituteLookalikes(content) == PerWord(content, TokenFigures)
  {
    var s := content;
    forall i, j | 0 <= i <= j <= |s|
      ensures Matches(LOOKALIKE_TOKEN, s, i, j) <==> IsLookalike(s[i..j]) && AllWord(s[i..j])
    {
      TokenMatches(s, i, j);
      hide Matches, LOOKALIKE_TOKEN;
      assert forall k :: i <= k < j ==> s[k] == s[i..j][k - i];
    }
    hide Matches, LOOKALIKE_TOKEN;
    ReplaceWholeWords(LOOKALIKE_TOKEN, s, IsLookalike, FixToken);
    forall w
      ensures If(IsLookalike, FixToken)(w) == TokenFigures(w)
    {
      TokenIsLookalike(w);
    }
    PerWordSame(s, If(IsLookalike, FixToken), TokenFigures);
  }

  lemma TokenIsLookalike(w: string)
    ensures If(IsLookalike, FixToken)(w) == TokenFigures(w)
  {
    assert If(IsLookalike, FixToken)(w) == if IsLookalike(w) then FixToken(w) else w;
    assert forall k :: 0 <= k < |w| ==> (In(w[k], DigitLike) <==> LooksLikeDigit(w[k]));
    assert forall k :: 0 <= k < |w| ==> FixLookalike(w[k]) == DigitFor(w[k]);
    assert (exists k :: 0 <= k < |w| && IsDigit(w[k])) <==> (exists k :: 0 <= k < |w| && '0' <= w[k] <= '9');
  }

  // --- both rewrites, piece by piece ---

  ghost predicate KeepsWords(f: string -> string) { forall w :: AllWord(w) ==> AllWord(f(w)) }

  lemma FigureKeepsWords()
    ensures KeepsWords(Figure)
  {
  }

  lemma {:induction false} PerWordEdges(s: string, f: string -> string, i: nat := 0)
    requires KeepsWords(f) && i <= |s|
    ensures
      var t := PerWord(s, f, i);
      && (t == "" <==> i == |s|)
      && (i < |s| ==> (IsWord(t[0]) <==> IsWord(s[i])) && (IsWord(t[|t| - 1]) <==> IsWord(s[|s| - 1])))
      && (i < |s| && !IsWord(s[|s| - 1]) ==> t[|t| - 1] == s[|s| - 1])
      && (i < |s| && !IsWord(s[i]) ==> t[0] == s[i])
    decreases |s| - i
  {
    if i < |s| {
      if IsWord(s[i]) {
        RunIsNotEmpty(s, i);
        var w := s[i..WordEnd(s, i)];
        assert w[0] == s[i] && w[|w| - 1] == s[WordEnd(s, i) - 1] && AllWord(w);
        assert AllWord(f(w));
        PerWordEdges(s, f, WordEnd(s, i));
      } else {
        PerWordEdges(s, f, i + 1);
      }
    }
  }

  lemma LowerOfConcat(a: string, b: string)
    ensures Lower(a + b) == Lower(a) + Lower(b)
  {
  }

  lemma LowerKeepsWords(s: string)
    ensures forall i :: WordAt(Lower(s), i) <==> WordAt(s, i)
    ensures AllWord(s) ==> AllWord(Lower(s))
  {
  }

  lemma UndisguisedIsTwoLaws(s: string)
    ensures Undisguised(s) == PerWord(PerWord(Lower(s), Figure), TokenFigures)
  {
    hide WordsToDigits, SubstituteLookalikes, PerWord, Lower, Figure, TokenFigures;
    NumberWordsLaw(s);
    LookalikesLaw(WordsToDigits(s));
  }

  lemma UndisguisedOfConcat(a: string, b: string)
    requires Apart(a, b)
    ensures Undisguised(a + b) == Undisguised(a) + Undisguised(b)
  {
    var x, y := Lower(a), Lower(b);
    LowerKeepsWords(a);
    LowerKeepsWords(b);
    hide Undisguised, PerWord, Figure, TokenFigures, KeepsWords, Lower;
    UndisguisedIsTwoLaws(a);
    UndisguisedIsTwoLaws(b);
    UndisguisedIsTwoLaws(a + b);
    LowerOfConcat(a, b);
    PerWordOfConcat(x, y, Figure);
    FigureKeepsWords();
    PerWordEdges(x, Figure);
    PerWordEdges(y, Figure);
    PerWordOfConcat(PerWord(x, Figure), PerWord(y, Figure), TokenFigures);
  }

  lemma UndisguisedWord(w: string)
    requires AllWord(w)
    ensures Undisguised(w) == TokenFigures(Figure(Lower(w)))
  {
    LowerKeepsWords(w);
    FigureKeepsWords();
    assert AllWord(Figure(Lower(w)));
    hide Undisguised, PerWord, Figure, TokenFigures, Lower;
    UndisguisedIsTwoLaws(w);
    PerWordOfWord(Lower(w), Figure);
    PerWordOfWord(Figure(Lower(w)), TokenFigures);
  }

  /** Between words nothing changes. */
  lemma UndisguisedGap(g: string)
    requires forall k :: 0 <= k < |g| ==> !IsWord(g[k])
    ensures Undisguised(g) == g
  {
    assert Lower(g) == g;
    hide Undisguised, PerWord, Figure, TokenFigures, Lower;
    UndisguisedIsTwoLaws(g);
    PerWordOfGap(g, Figure);
    PerWordOfGap(g, TokenFigures);
  }

  // --- spelled-out numbers ---

  /** A token of a spelled-out number: figures, or a number word in any letter case. */
  datatype Token = Figures(run: string) | Spoken(word: string, figure: char)

  datatype Spelling = Last(token: Token) | More(token: Token, gap: string, rest: Spelling)

  predicate Says(word: string, figure: char) {
    || (word == "zero" && figure == '0') || (word == "oh" && figure == '0') || (word == "one" && figure == '1')
    || (word == "two" && figure == '2') || (word == "three" && figure == '3') || (word == "four" && figure == '4')
    || (word == "five" && figure == '5') || (word == "six" && figure == '6') || (word == "seven" && figure == '7')
    || (word == "eight" && figure == '8') || (word == "nine" && figure == '9')
  }

  predicate ValidToken(t: Token) {
    match t
    case Figures(run) => run != "" && forall k :: 0 <= k < |run| ==> '0' <= run[k] <= '9'
    case Spoken(word, figure) => Says(Lower(word), figure)
  }

  /** Blanks, tabs, line ends, dots and dashes. */
  predicate IsGap(g: string) {
    forall k :: 0 <= k < |g| ==> g[k] == ' ' || '\t' <= g[k] <= '\r' || g[k] == '.' || g[k] == '-'
  }

  predicate ValidSpelling(sp: Spelling) {
    match sp
    case Last(t) => ValidToken(t)
    case More(t, gap, rest) => ValidToken(t) && gap != "" && IsGap(gap) && ValidSpelling(rest)
  }

  function TokenText(t: Token): string { if t.Figures? then t.run else t.word }

  function TokenDigits(t: Token): string { if t.Figures? then t.run else [t.figure] }

  /** As it is written. */
  function Spelled(sp: Spelling): string {
    match sp
    case Last(t) => TokenText(t)
    case More(t, gap, rest) => TokenText(t) + gap + Spelled(rest)
  }

  function SpelledDigits(sp: Spelling): string {
    match sp
    case Last(t) => TokenDigits(t)
    case More(t, _, rest) => TokenDigits(t) + SpelledDigits(rest)
  }

  /** Every token in figures. */
  function InFigures(sp: Spelling): string {
    match sp
    case Last(t) => TokenDigits(t)
    case More(t, gap, rest) => TokenDigits(t) + gap + InFigures(rest)
  }

  lemma SaysIsFigure(l: string, c: char)
    requires Says(l, c)
    ensures IsNumberWord(l) && Figure(l) == [c] && IsDigit(c)
  {
    IsOneOfEleven(l);
  }

  lemma SpokenIsWord(w: string, c: char)
    requires Says(Lower(w), c)
    ensures AllWord(w) && IsDigit(c) && Figure(Lower(w)) == [c]
  {
    hide Says, Figure, IsNumberWord;
    SaysIsFigure(Lower(w), c);
    NumberWordsAreWords();
    LowerKeepsWords(w);
    AllWordOfLower(w);
  }

  lemma AllWordOfLower(w: string)
    requires IsNumberWord(Lower(w))
    ensures AllWord(w)
  {
    NumberWordsAreWords();
    LowerKeepsWords(w);
    hide Lower;
    assert forall k :: 0 <= k < |w| ==> IsWord(Lower(w)[k]) && WordAt(Lower(w), k);
  }

  lemma RunIsWord(run: string)
    requires run != "" && forall k :: 0 <= k < |run| ==> '0' <= run[k] <= '9'
    ensures AllWord(run) && Lower(run) == run && Figure(run) == run
  {
    assert run[0] != 'z' && run[0] != 'o' && run[0] != 't' && run[0] != 'f' && run[0] != 's' && run[0] != 'e' && run[0] != 'n';
  }

  lemma TokenIsWord(t: Token)
    requires ValidToken(t)
    ensures AllWord(TokenText(t)) && TokenDigits(t) != "" && forall k :: 0 <= k < |TokenDigits(t)| ==> IsDigit(TokenDigits(t)[k])
    ensures Undisguised(TokenText(t)) == TokenDigits(t)
  {
    hide Undisguised, Figure, Lower, TokenFigures, Says;
    if t.Spoken? { SpokenIsWord(t.word, t.figure); } else { RunIsWord(t.run); }
    UndisguisedWord(TokenText(t));
    FiguresStay(TokenDigits(t));
  }

  lemma FiguresStay(w: string)
    requires forall k :: 0 <= k < |w| ==> IsDigit(w[k])
    ensures TokenFigures(w) == w
  {
  }

  lemma GapIsBetweenWords(g: string)
    requires IsGap(g)
    ensures forall k :: 0 <= k < |g| ==> !IsWord(g[k]) && IsSeparator(g[k])
  {
  }

  /** The text starts and ends within a word, the figures with a digit. */
  ghost predicate Written(text: string, figures: string) {
    && Undisguised(text) == figures
    && text != "" && IsWord(text[0]) && IsWord(text[|text| - 1])
    && figures != "" && IsDigit(figures[0]) && IsDigit(figures[|figures| - 1])
    && forall k :: 0 <= k < |figures| ==> InRun(figures[k])
  }

  lemma TokenIsWritten(t: Token)
    requires ValidToken(t)
    ensures Written(TokenText(t), TokenDigits(t))
  {
    hide Undisguised, ValidToken;
    TokenIsWord(t);
  }

  lemma WrittenTogether(a: string, x: string, gap: string, b: string, y: string)
    requires Written(a, x) && Written(b, y) && gap != "" && IsGap(gap)
    ensures Written(a + gap + b, x + gap + y)
  {
    hide Undisguised;
    GapIsBetweenWords(gap);
    hide IsGap;
    UndisguisedGap(gap);
    UndisguisedOfConcat(gap, b);
    UndisguisedOfConcat(a, gap + b);
    assert a + gap + b == a + (gap + b) && x + gap + y == x + (gap + y);
  }

  lemma {:induction false} SpellingIsWritten(sp: Spelling)
    requires ValidSpelling(sp)
    ensures Written(Spelled(sp), InFigures(sp))
  {
    hide Written, ValidToken, IsGap, TokenText, TokenDigits;
    TokenIsWritten(sp.token);
    if sp.More? {
      SpellingIsWritten(sp.rest);
      WrittenTogether(TokenText(sp.token), TokenDigits(sp.token), sp.gap, Spelled(sp.rest), InFigures(sp.rest));
    }
  }

  lemma TokenDigitsAre(t: Token)
    requires ValidToken(t)
    ensures DigitsOf(TokenDigits(t)) == TokenDigits(t)
  {
    hide Undisguised, ValidToken, DigitsOf;
    TokenIsWord(t);
    OnlyDigits(TokenDigits(t));
  }

  lemma {:induction false} DigitsOfSpelling(sp: Spelling)
    requires ValidSpelling(sp)
    ensures DigitsOf(InFigures(sp)) == SpelledDigits(sp)
  {
    hide ValidToken, DigitsOf, TokenDigits;
    var d := TokenDigits(sp.token);
    TokenDigitsAre(sp.token);
    if sp.More? {
      GapIsBetweenWords(sp.gap);
      hide IsGap;
      DigitsOfSeparators(sp.gap);
      DigitsOfSpelling(sp.rest);
      DigitsOfConcat(d, sp.gap);
      DigitsOfConcat(d + sp.gap, InFigures(sp.rest));
    }
  }

  lemma {:induction false} OnlyDigits(d: string)
    requires forall k :: 0 <= k < |d| ==> IsDigit(d[k])
    ensures DigitsOf(d) == d
  {
    if d != "" {
      assert d == [d[0]] + d[1..];
      OnlyDigits(d[1..]);
      DigitsOfOne(d, 0);
      DigitsOfConcat([d[0]], d[1..]);
      assert d[0..1] == [d[0]];
    }
  }

  // --- what stands around them ---

  /** A word that the rewrites only lower-case. */
  predicate NoNumber(w: string) {
    AllWord(w) && Lower(w) !in {"zero", "oh", "one", "two", "three", "four", "five", "six", "seven", "eight", "nine"} && !IsToken(Lower(w))
  }

  /** Text that ends apart from a number: nothing, or neither in a word nor a gap, or in a word that is no number. */
  predicate EndsClear(p: string, w: string, g: string) {
    && IsGap(g)
    && (if w == "" then p == "" || (!IsWord(p[|p| - 1]) && !IsGap(p[|p| - 1..]))
        else NoNumber(w) && !IsDigit(w[|w| - 1]) && Apart(p, w) && g != "")
  }

  predicate StartsClear(g: string, w: string, p: string) {
    && IsGap(g)
    && (if w == "" then p == "" || (!IsWord(p[0]) && !IsGap(p[..1]))
        else NoNumber(w) && !IsDigit(w[0]) && Apart(w, p) && g != "")
  }

  lemma NoNumberStays(w: string)
    requires NoNumber(w)
    ensures Undisguised(w) == Lower(w)
  {
    IsOneOfEleven(Lower(w));
    assert Figure(Lower(w)) == Lower(w);
    hide Undisguised, Figure;
    UndisguisedWord(w);
  }

  lemma LowerKeepsDigits(s: string)
    ensures forall k :: 0 <= k < |s| ==> (IsDigit(Lower(s)[k]) <==> IsDigit(s[k])) && (IsWord(Lower(s)[k]) <==> IsWord(s[k]))
    ensures forall k :: 0 <= k < |s| && !IsWord(s[k]) ==> Lower(s)[k] == s[k]
  {
  }

  /** Rewriting keeps what a text starts and ends with, unless that is a word. */
  lemma UndisguisedEdges(s: string)
    ensures
      var u := Undisguised(s);
      && (u == "" <==> s == "")
      && (s != "" && !IsWord(s[|s| - 1]) ==> u[|u| - 1] == s[|s| - 1])
      && (s != "" && !IsWord(s[0]) ==> u[0] == s[0])
      && (s != "" ==> (IsWord(u[0]) <==> IsWord(s[0])) && (IsWord(u[|u| - 1]) <==> IsWord(s[|s| - 1])))
  {
    var l := Lower(s);
    LowerKeepsDigits(s);
    assert |l| == |s|;
    hide Undisguised, PerWord, Figure, TokenFigures, Lower, KeepsWords;
    UndisguisedIsTwoLaws(s);
    FigureKeepsWords();
    TokenFiguresKeepWords();
    PerWordEdges(l, Figure);
    PerWordEdges(PerWord(l, Figure), TokenFigures);
  }

  lemma TokenFiguresKeepWords()
    ensures KeepsWords(TokenFigures)
  {
  }

  /** No digit of `a` reaches its end over digits and separators, and no word does. */
  ghost predicate Closed(a: string) {
    && !WordAt(a, |a| - 1)
    && forall k :: 0 <= k < |a| && IsDigit(a[k]) ==> exists m :: k < m < |a| && !InRun(a[m])
  }

  ghost predicate Opened(b: string) {
    && !WordAt(b, 0)
    && forall k :: 0 <= k < |b| && IsDigit(b[k]) ==> exists m :: 0 <= m < k && !InRun(b[m])
  }

  lemma ClosedByLast(u: string, g: string)
    requires u == "" || !InRun(u[|u| - 1])
    requires forall k :: 0 <= k < |g| ==> !IsWord(g[k])
    requires g != "" || !WordAt(u, |u| - 1)
    ensures Closed(u + g)
  {
    var a := u + g;
    forall k | 0 <= k < |a| && IsDigit(a[k])
      ensures exists m :: k < m < |a| && !InRun(a[m])
    {
      assert k < |u|;
      assert a[|u| - 1] == u[|u| - 1];
    }
  }

  lemma OpenedByFirst(g: string, u: string)
    requires u == "" || !InRun(u[0])
    requires forall k :: 0 <= k < |g| ==> !IsWord(g[k])
    requires g != "" || !WordAt(u, 0)
    ensures Opened(g + u)
  {
    var b := g + u;
    forall k | 0 <= k < |b| && IsDigit(b[k])
      ensures exists m :: 0 <= m < k && !InRun(b[m])
    {
      assert k >= |g|;
      assert b[|g|] == u[0];
    }
  }

  lemma NotInRun(c: char)
    requires !IsWord(c) && !IsGap([c])
    ensures !InRun(c)
  {
    assert [c][0] == c;
  }

  lemma EndAfterText(p: string, g: string)
    requires IsGap(g) && (p == "" || (!IsWord(p[|p| - 1]) && !IsGap(p[|p| - 1..])))
    ensures Closed(Undisguised(p + g)) && !WordAt(p + g, |p + g| - 1)
  {
    GapIsBetweenWords(g);
    hide Undisguised, IsGap, Closed;
    UndisguisedGap(g);
    UndisguisedOfConcat(p, g);
    UndisguisedEdges(p);
    if p != "" {
      assert p[|p| - 1..] == [p[|p| - 1]];
      NotInRun(p[|p| - 1]);
    }
    ClosedByLast(Undisguised(p), g);
  }

  lemma EndAfterWord(p: string, w: string, g: string)
    requires IsGap(g) && NoNumber(w) && !IsDigit(w[|w| - 1]) && Apart(p, w) && g != ""
    ensures Closed(Undisguised(p + w + g)) && !WordAt(p + w + g, |p + w + g| - 1)
  {
    GapIsBetweenWords(g);
    NoNumberIsWord(w);
    NoNumberStays(w);
    LowerKeepsDigits(w);
    WordNotInRun(Lower(w)[|w| - 1]);
    hide Undisguised, IsGap, Lower, NoNumber, Closed;
    UndisguisedGap(g);
    UndisguisedOfConcat(p + w, g);
    UndisguisedOfConcat(p, w);
    var u := Undisguised(p) + Lower(w);
    assert u[|u| - 1] == Lower(w)[|w| - 1];
    ClosedByLast(u, g);
  }

  lemma EndIsClear(p: string, w: string, g: string)
    requires EndsClear(p, w, g)
    ensures Closed(Undisguised(p + w + g)) && !WordAt(p + w + g, |p + w + g| - 1)
  {
    hide Undisguised, IsGap, NoNumber, Closed, IsWord, IsDigit;
    if w == "" {
      assert p + w == p;
      EndAfterText(p, g);
    } else {
      EndAfterWord(p, w, g);
    }
  }

  lemma WordNotInRun(c: char)
    requires IsWord(c) && !IsDigit(c)
    ensures !InRun(c)
  {
  }

  lemma NoNumberIsWord(w: string)
    requires NoNumber(w)
    ensures AllWord(w) && |Lower(w)| == |w| > 0
  {
  }

  lemma StartBeforeText(g: string, p: string)
    requires IsGap(g) && (p == "" || (!IsWord(p[0]) && !IsGap(p[..1])))
    ensures Opened(Undisguised(g + p)) && !WordAt(g + p, 0)
  {
    GapIsBetweenWords(g);
    hide Undisguised, IsGap, Opened;
    UndisguisedGap(g);
    UndisguisedOfConcat(g, p);
    UndisguisedEdges(p);
    if p != "" {
      assert p[..1] == [p[0]];
      NotInRun(p[0]);
    }
    OpenedByFirst(g, Undisguised(p));
  }

  lemma StartBeforeWord(g: string, w: string, p: string)
    requires IsGap(g) && NoNumber(w) && !IsDigit(w[0]) && Apart(w, p) && g != ""
    ensures Opened(Undisguised(g + (w + p))) && !WordAt(g + (w + p), 0)
  {
    GapIsBetweenWords(g);
    NoNumberIsWord(w);
    NoNumberStays(w);
    LowerKeepsDigits(w);
    WordNotInRun(Lower(w)[0]);
    hide Undisguised, IsGap, Lower, NoNumber, Opened;
    UndisguisedGap(g);
    UndisguisedOfConcat(g, w + p);
    UndisguisedOfConcat(w, p);
    OpenedByFirst(g, Lower(w) + Undisguised(p));
  }

  lemma StartIsClear(g: string, w: string, p: string)
    requires StartsClear(g, w, p)
    ensures Opened(Undisguised(g + w + p)) && !WordAt(g + w + p, 0)
  {
    hide Undisguised, IsGap, NoNumber, Opened, IsWord, IsDigit;
    assert g + w + p == g + (w + p);
    if w == "" {
      assert w + p == p;
      StartBeforeText(g, p);
    } else {
      StartBeforeWord(g, w, p);
    }
  }

  lemma ClosedOpensRun(a: string, rest: string)
    requires Closed(a)
    ensures OpensRun(a + rest, |a|) && !WordAt(a + rest, |a| - 1)
  {
    var s := a + rest;
    hide InRun, IsDigit, IsWord;
    forall k | 0 <= k < |a| && IsDigit(s[k])
      ensures exists n :: k < n < |a| && !InRun(s[n])
    {
      assert s[k] == a[k];
      var n :| k < n < |a| && !InRun(a[n]);
      assert s[n] == a[n];
    }
  }

  lemma OpenedClosesRun(rest: string, b: string)
    requires Opened(b)
    ensures ClosesRun(rest + b, |rest|) && !WordAt(rest + b, |rest|)
  {
    var s, j := rest + b, |rest|;
    hide InRun, IsDigit, IsWord;
    forall k | j <= k < |s| && IsDigit(s[k])
      ensures exists n :: j <= n < k && !InRun(s[n])
    {
      assert s[k] == b[k - j];
      var n :| 0 <= n < k - j && !InRun(b[n]);
      assert s[j + n] == b[n];
    }
  }

  lemma RunBetween(a: string, m: string, b: string)
    requires Closed(a) && Opened(b) && PhoneDigits(DigitsOf(m))
    requires m != "" && IsDigit(m[0]) && IsDigit(m[|m| - 1]) && forall k :: 0 <= k < |m| ==> InRun(m[k])
    ensures SpacedPhone(a + m + b, |a|, |a| + |m|)
  {
    hide *;
    assert a + m + b == a + (m + b) && |a| + |m| == |a + m|;
    ClosedOpensRun(a, m + b);
    OpenedClosesRun(a + m, b);
    RunIsCut(a, m, b);
    RunIsSpaced(a + m + b, |a|, |a| + |m|);
  }

  lemma RunIsCut(a: string, m: string, b: string)
    requires m != "" && IsDigit(m[0]) && IsDigit(m[|m| - 1]) && forall k :: 0 <= k < |m| ==> InRun(m[k])
    ensures
      var s, i, j := a + m + b, |a|, |a| + |m|;
      i < j <= |s| && s[i..j] == m && IsDigit(s[i]) && IsDigit(s[j - 1]) && forall k :: i <= k < j ==> InRun(s[k])
  {
    var s, i, j := a + m + b, |a|, |a| + |m|;
    hide InRun, IsDigit;
    assert s[i..j] == m;
    assert forall k :: i <= k < j ==> s[k] == m[k - i];
  }

  lemma RunIsSpaced(s: string, i: nat, j: nat)
    requires i < j <= |s| && IsDigit(s[i]) && IsDigit(s[j - 1]) && forall k :: i <= k < j ==> InRun(s[k])
    requires OpensRun(s, i) && ClosesRun(s, j) && !WordAt(s, i - 1) && !WordAt(s, j) && PhoneDigits(DigitsOf(s[i..j]))
    ensures SpacedPhone(s, i, j)
  {
    hide InRun, IsDigit, WordAt, OpensRun, ClosesRun, PhoneDigits, DigitsOf;
  }

  /**
   Ten digits, or eleven of which the first is 1, in any mix of figures and number words in any letter
   case, with any gaps between them, are blocked wherever a clear text around them leaves them alone.
   */
  lemma SpelledPhoneIsBlocked(
      p: string, w: string, g: string, sp: Spelling, g': string, w': string, p': string)
    requires EndsClear(p, w, g) && ValidSpelling(sp) && StartsClear(g', w', p')
    requires |SpelledDigits(sp)| == 10 || (|SpelledDigits(sp)| == 11 && SpelledDigits(sp)[0] == '1')
    ensures Blocked(p + w + g + Spelled(sp) + (g' + w' + p'))
  {
    var before, text, after := p + w + g, Spelled(sp), g' + w' + p';
    var figures := InFigures(sp);
    EndIsClear(p, w, g);
    StartIsClear(g', w', p');
    SpellingIsWritten(sp);
    DigitsOfSpelling(sp);
    SpelledIsPhone(sp);
    hide Undisguised, EndsClear, StartsClear, ValidSpelling, Blocked, Spelled, InFigures, SpelledDigits, SpacedPhone;
    assert text != "" && !WordAt(before, |before| - 1) && !WordAt(after, 0);
    UndisguisedOfConcat(before, text);
    UndisguisedOfConcat(before + text, after);
    RunBetween(Undisguised(before), figures, Undisguised(after));
    SpacedPhoneIsBlocked(before + text + after);
  }

  lemma {:induction false} SpelledAreDigits(sp: Spelling)
    requires ValidSpelling(sp)
    ensures forall k :: 0 <= k < |SpelledDigits(sp)| ==> IsDigit(SpelledDigits(sp)[k])
  {
    TokenIsWord(sp.token);
    if sp.More? { SpelledAreDigits(sp.rest); }
  }

  lemma SpelledIsPhone(sp: Spelling)
    requires ValidSpelling(sp)
    ensures PhoneDigits(SpelledDigits(sp))
      <==> (|SpelledDigits(sp)| == 10 || (|SpelledDigits(sp)| == 11 && SpelledDigits(sp)[0] == '1'))
  {
    SpelledAreDigits(sp);
  }
}
