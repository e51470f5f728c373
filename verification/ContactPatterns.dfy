/**
 What the detector stops, said of the characters of a message: the addresses, links and numbers its
 patterns match, the words its lists hold, and the addresses that "at" and "dot" spell out.
 */
module ContactPatterns {
  import opened Regex
  import opened SeparatorCollapse
  import opened WordRewrites
  import opened BlankRewrites
  import opened ContactInfoDetector

  // --- characters ---

  predicate AlphaChar(c: char) { 'a' <= c <= 'z' || 'A' <= c <= 'Z' }

  predicate WordChar(c: char) { AlphaChar(c) || '0' <= c <= '9' || c == '_' }

  predicate Blank(c: char) { '\t' <= c <= '\r' || c == ' ' }

  predicate Figures(s: string, i: int, j: int) {
    0 <= i <= j <= |s| && forall k :: i <= k < j ==> '0' <= s[k] <= '9'
  }

  /** A word starts or ends at `i`. */
  predicate EdgeAt(s: string, i: int) {
    0 <= i <= |s| && ((i > 0 && WordChar(s[i - 1])) != (i < |s| && WordChar(s[i])))
  }

  lemma EdgeIsBoundary(s: string, i: int)
    requires 0 <= i <= |s|
    ensures EdgeAt(s, i) <==> AtBoundary(s, i)
  {
  }

  /** Lower-casing goes through the alphabet letter by letter and leaves the rest. */
  lemma LowerIsAlphabetic(s: string, k: nat)
    requires k < |s|
    ensures Lower(s)[k] == if 'A' <= s[k] <= 'Z' then 'a' + (s[k] - 'A') else s[k]
  {
  }

  // --- one piece of a pattern at a time ---

  lemma CatChrMatches(k: Class, re: Re, s: string, i: int, j: int)
    ensures Matches(Cat(Chr(k), re), s, i, j) <==> 0 <= i < j <= |s| && In(s[i], k) && Matches(re, s, i + 1, j)
  {
    if 0 <= i < j <= |s| && In(s[i], k) { assert Matches(Chr(k), s, i, i + 1); }
  }

  lemma CatEdgeMatches(re: Re, s: string, i: int, j: int)
    ensures Matches(Cat(re, Boundary), s, i, j) <==> Matches(re, s, i, j) && EdgeAt(s, j)
  {
    if 0 <= i <= j <= |s| {
      EdgeIsBoundary(s, j);
      assert Matches(Boundary, s, j, j) <==> AtBoundary(s, j);
    }
  }

  lemma EdgeCatMatches(re: Re, s: string, i: int, j: int)
    ensures Matches(Cat(Boundary, re), s, i, j) <==> EdgeAt(s, i) && Matches(re, s, i, j)
  {
    if 0 <= i <= j <= |s| {
      EdgeIsBoundary(s, i);
      assert Matches(Boundary, s, i, i) <==> AtBoundary(s, i);
    }
  }

  ghost predicate InTwo(a: Re, b: Re, s: string, i: int, m: int, j: int) { Matches(a, s, i, m) && Matches(b, s, m, j) }

  lemma CatMatches(a: Re, b: Re, s: string, i: int, j: int)
    ensures Matches(Cat(a, b), s, i, j) <==> exists m :: InTwo(a, b, s, i, m, j)
  {
    if Matches(Cat(a, b), s, i, j) { CatSplits(Cat(a, b), s, i, j); }
    if m :| InTwo(a, b, s, i, m, j) {
      InTwoIsInside(a, b, s, i, m, j);
      assert Matches(a, s, i, m) && Matches(b, s, m, j);
    }
  }

  lemma CatSplits(re: Re, s: string, i: int, j: int)
    requires re.Cat? && Matches(re, s, i, j)
    ensures exists m :: InTwo(re.first, re.second, s, i, m, j)
  {
    match re
    case Cat(a, b) =>
      var m :| i <= m <= j && Matches(a, s, i, m) && Matches(b, s, m, j);
      assert InTwo(a, b, s, i, m, j);
  }

  lemma InTwoIsInside(a: Re, b: Re, s: string, i: int, m: int, j: int)
    requires InTwo(a, b, s, i, m, j)
    ensures 0 <= i <= m <= j <= |s|
  {
  }

  lemma OptMatches(a: Re, s: string, i: int, j: int)
    ensures Matches(Opt(a), s, i, j) <==> 0 <= i <= j <= |s| && (i == j || Matches(a, s, i, j))
  {
  }

  /** A literal text in any letter case. */
  lemma {:induction false} AnyCaseMatches(t: string, s: string, i: int, j: int)
    ensures Matches(Text(t, true), s, i, j) <==> 0 <= i <= j <= |s| && Lower(s[i..j]) == t
  {
    if t == "" {
      if 0 <= i <= j <= |s| { assert Lower(s[i..j]) == "" <==> i == j; }
    } else {
      AnyCaseMatches(t[1..], s, i + 1, j);
      CatChrMatches(LitI(t[0]), Text(t[1..], true), s, i, j);
      assert Text(t, true) == Cat(Chr(LitI(t[0])), Text(t[1..], true));
      hide Text, Matches;
      if 0 <= i < j <= |s| {
        LowerOfSlice(s, i, j);
        assert t == [t[0]] + t[1..];
        assert Lower(s[i..j]) == t ==> Lower(s[i..j])[0] == t[0] && Lower(s[i..j])[1..] == t[1..];
      }
    }
  }

  lemma LowerOfSlice(s: string, i: int, j: int)
    requires 0 <= i < j <= |s|
    ensures Lower(s[i..j]) == [LowerChar(s[i])] + Lower(s[i + 1..j])
  {
  }

  lemma {:induction false} AnyCaseOneOf(ts: seq<string>, s: string, i: int, j: int)
    requires ts != []
    ensures Matches(OneOf(ts, true), s, i, j) <==> 0 <= i <= j <= |s| && Lower(s[i..j]) in ts
  {
    AnyCaseMatches(ts[0], s, i, j);
    if |ts| > 1 {
      AnyCaseOneOf(ts[1..], s, i, j);
      assert Matches(OneOf(ts, true), s, i, j) <==> Matches(Text(ts[0], true), s, i, j) || Matches(OneOf(ts[1..], true), s, i, j);
    }
  }

  // --- e-mail addresses ---

  /** An address from `i` to `j` with its `@` at `a` and its last dot at `d`. */
  predicate EmailAt(s: string, i: int, a: int, d: int, j: int) {
    && 0 <= i < a < d - 1 < j - 3 < |s| - 2
    && (forall k :: i <= k < a ==> WordChar(s[k]) || s[k] == '.' || s[k] == '+' || s[k] == '-')
    && s[a] == '@' && HostAt(s, a + 1, d) && s[d] == '.' && (forall k :: d < k < j ==> AlphaChar(s[k]))
    && EdgeAt(s, i) && EdgeAt(s, j)
  }

  predicate HostAt(s: string, i: int, d: int) {
    0 <= i < d <= |s| && forall k :: i <= k < d ==> WordChar(s[k]) || s[k] == '-'
  }

  lemma TopLevelMatches(s: string, i: int, j: int)
    ensures Matches(TOP_LEVEL, s, i, j) <==> 0 <= i && i + 2 <= j <= |s| && forall k :: i <= k < j ==> AlphaChar(s[k])
  {
    CatChrMatches(Letter, Cat(Chr(Letter), Star(Chr(Letter))), s, i, j);
    CatChrMatches(Letter, Star(Chr(Letter)), s, i + 1, j);
    StarMatches(Letter, s, i + 2, j);
    hide Matches;
  }

  predicate EndAt(s: string, d: int, j: int) {
    0 <= d && d + 3 <= j <= |s| && s[d] == '.' && (forall k :: d < k < j ==> AlphaChar(s[k])) && EdgeAt(s, j)
  }

  lemma EndMatches(s: string, d: int, j: int)
    ensures Matches(Cat(Chr(Lit('.')), Cat(TOP_LEVEL, Boundary)), s, d, j) <==> EndAt(s, d, j)
  {
    hide Matches, TOP_LEVEL;
    CatChrMatches(Lit('.'), Cat(TOP_LEVEL, Boundary), s, d, j);
    CatEdgeMatches(TOP_LEVEL, s, d + 1, j);
    TopLevelMatches(s, d + 1, j);
  }

  lemma HostCharsMatch(s: string, i: int, d: int)
    ensures Matches(Plus(Chr(HostChar)), s, i, d) <==> HostAt(s, i, d)
  {
    hide Matches, Plus;
    PlusMatches(HostChar, s, i, d);
  }

  lemma HostMatches(s: string, i: int, j: int)
    ensures Matches(HOST, s, i, j) <==> exists d :: HostAt(s, i, d) && EndAt(s, d, j)
  {
    var end := Cat(Chr(Lit('.')), Cat(TOP_LEVEL, Boundary));
    hide Matches, TOP_LEVEL, HostAt, EndAt, Plus;
    CatMatches(Plus(Chr(HostChar)), end, s, i, j);
    forall d
      ensures InTwo(Plus(Chr(HostChar)), end, s, i, d, j) <==> HostAt(s, i, d) && EndAt(s, d, j)
    {
      EndMatches(s, d, j);
      HostCharsMatch(s, i, d);
    }
    hide InTwo;
  }

  predicate LocalAt(s: string, i: int, a: int) {
    0 <= i < a <= |s| && forall k :: i <= k < a ==> WordChar(s[k]) || s[k] == '.' || s[k] == '+' || s[k] == '-'
  }

  lemma LocalMatches(s: string, i: int, a: int)
    ensures Matches(Plus(Chr(EmailLocal)), s, i, a) <==> LocalAt(s, i, a)
  {
    hide Matches, Plus;
    PlusMatches(EmailLocal, s, i, a);
  }

  /** The e-mail pattern matches exactly the addresses. */
  lemma EmailMatches(s: string, i: int, j: int)
    ensures Matches(EMAIL, s, i, j) <==> exists a, d :: EmailAt(s, i, a, d, j)
  {
    var rest := Cat(Chr(Lit('@')), HOST);
    hide Matches, HOST, HostAt, EndAt, LocalAt, EdgeAt, Plus, EmailAt;
    EdgeCatMatches(Cat(Plus(Chr(EmailLocal)), rest), s, i, j);
    CatMatches(Plus(Chr(EmailLocal)), rest, s, i, j);
    forall a
      ensures InTwo(Plus(Chr(EmailLocal)), rest, s, i, a, j)
        <==> LocalAt(s, i, a) && 0 <= a < j <= |s| && s[a] == '@' && exists d :: HostAt(s, a + 1, d) && EndAt(s, d, j)
    {
      LocalMatches(s, i, a);
      CatChrMatches(Lit('@'), HOST, s, a, j);
      HostMatches(s, a + 1, j);
    }
    forall a, d
      ensures EmailAt(s, i, a, d, j) <==> EdgeAt(s, i) && LocalAt(s, i, a) && 0 <= a < j <= |s| && s[a] == '@' && HostAt(s, a + 1, d) && EndAt(s, d, j)
    {
      EmailAtIsParts(s, i, a, d, j);
    }
    hide InTwo;
    assert EMAIL == Cat(Boundary, Cat(Plus(Chr(EmailLocal)), rest));
    if a, d :| EmailAt(s, i, a, d, j) {
      assert InTwo(Plus(Chr(EmailLocal)), rest, s, i, a, j);
    }
    if a :| InTwo(Plus(Chr(EmailLocal)), rest, s, i, a, j) && EdgeAt(s, i) {
      var d :| HostAt(s, a + 1, d) && EndAt(s, d, j);
      assert EmailAt(s, i, a, d, j);
    }
  }

  lemma EmailAtIsParts(s: string, i: int, a: int, d: int, j: int)
    ensures EmailAt(s, i, a, d, j)
      <==> EdgeAt(s, i) && LocalAt(s, i, a) && 0 <= a < j <= |s| && s[a] == '@' && HostAt(s, a + 1, d) && EndAt(s, d, j)
  {
    hide EdgeAt;
  }

  // --- links and domains ---

  /** A link from `i` to `j`, with what makes it one up to `a`. */
  predicate LinkAt(s: string, i: int, a: int, j: int) {
    && 0 <= i < a < j <= |s|
    && (Lower(s[i..a]) == "http://" || Lower(s[i..a]) == "https://" || Lower(s[i..a]) == "www.")
    && (forall k :: a <= k < j ==> !Blank(s[k])) && EdgeAt(s, i) && EdgeAt(s, j)
  }

  predicate DomainAt(s: string, i: int, d: int, j: int) {
    && HostAt(s, i, d) && d < j <= |s| && s[d] == '.' && EdgeAt(s, i) && EdgeAt(s, j)
    && TopDomain(Lower(s[d + 1..j]))
  }

  predicate TopDomain(t: string) { t == "com" || t == "net" || t == "org" || t == "io" || t == "co" }

  lemma SchemeMatches(s: string, i: int, j: int)
    ensures Matches(SCHEME, s, i, j) <==> 0 <= i <= j <= |s| && (Lower(s[i..j]) == "http://" || Lower(s[i..j]) == "https://")
  {
    var tail := Cat(Opt(Chr(LitI('s'))), Text("://", true));
    assert SCHEME == Cat(Text("http", true), tail);
    hide SCHEME, Matches, Text;
    CatMatches(Text("http", true), tail, s, i, j);
    forall m
      ensures InTwo(Text("http", true), tail, s, i, m, j)
        <==> 0 <= i <= m <= j <= |s| && Lower(s[i..m]) == "http" && (Lower(s[m..j]) == "://" || Lower(s[m..j]) == "s://")
    {
      AnyCaseMatches("http", s, i, m);
      SecureMatches(s, m, j);
    }
    if 0 <= i <= j <= |s| {
      SchemeInTwo(s[i..j]);
      assert forall m :: i <= m <= j ==> s[i..j][..m - i] == s[i..m] && s[i..j][m - i..] == s[m..j];
      if Lower(s[i..j]) == "http://" || Lower(s[i..j]) == "https://" {
        assert i + 4 <= j && Lower(s[i..i + 4]) == "http";
      }
    }
  }

  lemma SchemeInTwo(t: string)
    ensures forall n :: 0 <= n <= |t| && Lower(t[..n]) == "http" && Lower(t[n..]) == "://" ==> Lower(t) == "http://"
    ensures forall n :: 0 <= n <= |t| && Lower(t[..n]) == "http" && Lower(t[n..]) == "s://" ==> Lower(t) == "https://"
    ensures Lower(t) == "http://" ==> |t| >= 4 && Lower(t[..4]) == "http" && Lower(t[4..]) == "://"
    ensures Lower(t) == "https://" ==> |t| >= 4 && Lower(t[..4]) == "http" && Lower(t[4..]) == "s://"
  {
    forall n | 0 <= n <= |t|
      ensures Lower(t) == Lower(t[..n]) + Lower(t[n..])
    {
    }
    var l := Lower(t);
    if l == "http://" { assert Lower(t[..4]) == l[..4] && Lower(t[4..]) == l[4..]; }
    if l == "https://" { assert Lower(t[..4]) == l[..4] && Lower(t[4..]) == l[4..]; }
  }

  lemma SecureMatches(s: string, m: int, j: int)
    ensures Matches(Cat(Opt(Chr(LitI('s'))), Text("://", true)), s, m, j)
      <==> 0 <= m <= j <= |s| && (Lower(s[m..j]) == "://" || Lower(s[m..j]) == "s://")
  {
    var colon := Text("://", true);
    AnyCaseMatches("://", s, m, j);
    AnyCaseMatches("s://", s, m, j);
    assert Text("s://", true) == Cat(Chr(LitI('s')), colon) by { assert "s://"[1..] == "://"; }
    hide Text;
    CatChrMatches(LitI('s'), colon, s, m, j);
    OptCatMatches(Chr(LitI('s')), colon, s, m, j);
  }

  lemma OptCatMatches(a: Re, b: Re, s: string, i: int, j: int)
    ensures Matches(Cat(Opt(a), b), s, i, j) <==> Matches(b, s, i, j) || Matches(Cat(a, b), s, i, j)
  {
    if 0 <= i <= j <= |s| {
      assert forall m :: Matches(Opt(a), s, i, m) <==> i <= m <= |s| && (m == i || Matches(a, s, i, m));
      if Matches(b, s, i, j) { assert Matches(Opt(a), s, i, i); }
    }
  }

  lemma LinkMatches(s: string, i: int, j: int)
    ensures Matches(LINK, s, i, j) <==> exists a :: LinkAt(s, i, a, j)
  {
    var start := Alt(SCHEME, Text("www.", true));
    var rest := Cat(Plus(Chr(NonSpace)), Boundary);
    hide Matches, SCHEME, Text, EdgeAt, Plus;
    EdgeCatMatches(Cat(start, rest), s, i, j);
    CatMatches(start, rest, s, i, j);
    forall a
      ensures EdgeAt(s, i) && InTwo(start, rest, s, i, a, j) <==> LinkAt(s, i, a, j)
    {
      LinkStartMatches(s, i, a);
      CatEdgeMatches(Plus(Chr(NonSpace)), s, a, j);
      PlusMatches(NonSpace, s, a, j);
    }
    hide LinkAt, InTwo;
    assert LINK == Cat(Boundary, Cat(start, rest));
  }

  lemma LinkStartMatches(s: string, i: int, a: int)
    ensures Matches(Alt(SCHEME, Text("www.", true)), s, i, a)
      <==> 0 <= i < a <= |s| && (Lower(s[i..a]) == "http://" || Lower(s[i..a]) == "https://" || Lower(s[i..a]) == "www.")
  {
    hide SCHEME, Text;
    SchemeMatches(s, i, a);
    AnyCaseMatches("www.", s, i, a);
  }

  lemma DomainMatches(s: string, i: int, j: int)
    ensures Matches(DOMAIN, s, i, j) <==> exists d :: DomainAt(s, i, d, j)
  {
    var tops := ["com", "net", "org", "io", "co"];
    var end := Cat(Chr(Lit('.')), Cat(OneOf(tops, true), Boundary));
    var host := Plus(Chr(HostChar));
    assert DOMAIN == Cat(Boundary, Cat(host, end));
    hide Matches, OneOf, EdgeAt, Plus, DOMAIN, HostAt, InTwo;
    EdgeCatMatches(Cat(host, end), s, i, j);
    CatMatches(host, end, s, i, j);
    forall d
      ensures EdgeAt(s, i) && InTwo(host, end, s, i, d, j) <==> DomainAt(s, i, d, j)
    {
      DomainInTwo(s, i, d, j);
    }
    hide DomainAt;
  }

  lemma DomainInTwo(s: string, i: int, d: int, j: int)
    ensures
      var end := Cat(Chr(Lit('.')), Cat(OneOf(["com", "net", "org", "io", "co"], true), Boundary));
      (EdgeAt(s, i) && InTwo(Plus(Chr(HostChar)), end, s, i, d, j) <==> DomainAt(s, i, d, j))
  {
    var tops := ["com", "net", "org", "io", "co"];
    assert tops == ["com", "net", "org", "io", "co"] && tops != [];
    hide Matches, OneOf, EdgeAt, Plus, HostAt, Lower;
    DomainIsInside(s, i, d, j);
    HostCharsMatch(s, i, d);
    TopMatches(s, d, j);
  }

  lemma TopMatches(s: string, d: int, j: int)
    ensures
      (Matches(Cat(Chr(Lit('.')), Cat(OneOf(["com", "net", "org", "io", "co"], true), Boundary)), s, d, j) <==>
       0 <= d < j <= |s| && s[d] == '.' && EdgeAt(s, j) && TopDomain(Lower(s[d + 1..j])))
  {
    var tops := ["com", "net", "org", "io", "co"];
    forall t
      ensures t in tops <==> TopDomain(t)
    {
      AmongFive(t);
    }
    OfFive(tops, s, d, j);
  }

  lemma OfFive(tops: seq<string>, s: string, d: int, j: int)
    requires tops != [] && forall t :: t in tops <==> TopDomain(t)
    ensures
      (Matches(Cat(Chr(Lit('.')), Cat(OneOf(tops, true), Boundary)), s, d, j) <==>
       0 <= d < j <= |s| && s[d] == '.' && EdgeAt(s, j) && TopDomain(Lower(s[d + 1..j])))
  {
    hide Matches, OneOf, EdgeAt, Lower, TopDomain;
    CatChrMatches(Lit('.'), Cat(OneOf(tops, true), Boundary), s, d, j);
    CatEdgeMatches(OneOf(tops, true), s, d + 1, j);
    AnyCaseOneOf(tops, s, d + 1, j);
  }

  lemma AmongFive(t: string)
    ensures t in ["com", "net", "org", "io", "co"] <==> TopDomain(t)
  {
    var tops := ["com", "net", "org", "io", "co"];
    assert tops[0] == "com" && tops[1] == "net" && tops[2] == "org" && tops[3] == "io" && tops[4] == "co";
  }

  lemma DomainIsInside(s: string, i: int, d: int, j: int)
    ensures HostAt(s, i, d) ==> 0 <= i < d <= |s|
    ensures DomainAt(s, i, d, j) ==> 0 <= i < d < j <= |s|
  {
  }

  // --- grouped numbers ---

  predicate SeparatorChar(c: char) { Blank(c) || c == '.' || c == '-' }

  /** Nothing, or 1 with an optional plus before and an optional separator after it. */
  predicate CountryAt(s: string, i: int, a: int) {
    0 <= i <= a <= |s| &&
    (|| i == a
     || (var one := if s[i] == '+' then i + 1 else i;
         one < a && s[one] == '1' && (a == one + 1 || (a == one + 2 && SeparatorChar(s[one + 1])))))
  }

  /** Three figures, with or without either parenthesis. */
  predicate AreaAt(s: string, a: int, n: int) {
    || Figures3(s, a, n)
    || (0 <= a < n <= |s| && s[a] == '(' && Figures3(s, a + 1, n))
    || (0 <= a < n <= |s| && s[n - 1] == ')' && Figures3(s, a, n - 1))
    || (0 <= a < n - 1 < |s| && s[a] == '(' && s[n - 1] == ')' && Figures3(s, a + 1, n - 1))
  }

  predicate Figures3(s: string, i: int, j: int) { j == i + 3 && Figures(s, i, j) }

  /** A separator, three figures, a separator, four figures, and the word ends. */
  predicate SevenAt(s: string, n: int, j: int) {
    && 0 <= n && j == n + 9 && j <= |s| && SeparatorChar(s[n]) && Figures(s, n + 1, n + 4)
    && SeparatorChar(s[n + 4]) && Figures(s, n + 5, j) && EdgeAt(s, j)
  }

  predicate GroupedAt(s: string, i: int, a: int, n: int, j: int) { CountryAt(s, i, a) && AreaAt(s, a, n) && SevenAt(s, n, j) }

  lemma FiguresMatch(n: nat, s: string, i: int, j: int)
    ensures Matches(Times(DIGIT, n), s, i, j) <==> j == i + n && Figures(s, i, j)
  {
    hide Matches, Times;
    TimesMatches(Digit, n, s, i, j);
  }

  lemma LastFourMatches(s: string, n: int, j: int)
    ensures Matches(LAST_FOUR, s, n, j)
      <==> 0 <= n && j == n + 5 && j <= |s| && SeparatorChar(s[n]) && Figures(s, n + 1, j) && EdgeAt(s, j)
  {
    hide Matches, Times;
    CatChrMatches(Separator, Cat(Times(DIGIT, 4), Boundary), s, n, j);
    CatEdgeMatches(Times(DIGIT, 4), s, n + 1, j);
    FiguresMatch(4, s, n + 1, j);
  }

  lemma SevenMatches(s: string, n: int, j: int)
    ensures Matches(Cat(SEPARATOR, LAST_SEVEN), s, n, j) <==> SevenAt(s, n, j)
  {
    hide Matches, Times, LAST_FOUR, Figures, EdgeAt;
    CatChrMatches(Separator, LAST_SEVEN, s, n, j);
    CatMatches(Times(DIGIT, 3), LAST_FOUR, s, n + 1, j);
    forall m: int
      ensures InTwo(Times(DIGIT, 3), LAST_FOUR, s, n + 1, m, j) <==> m == n + 4 && Figures(s, n + 1, m) && Matches(LAST_FOUR, s, m, j)
    {
      FiguresMatch(3, s, n + 1, m);
    }
    LastFourMatches(s, n + 4, j);
    hide InTwo;
  }

  lemma AreaMatches(s: string, a: int, n: int)
    ensures Matches(AREA_CODE, s, a, n) <==> AreaAt(s, a, n)
  {
    var open, close := Chr(Lit('(')), Chr(Lit(')'));
    var body := Cat(Times(DIGIT, 3), Opt(close));
    hide Matches, Times;
    OptCatMatches(open, body, s, a, n);
    CatChrMatches(Lit('('), body, s, a, n);
    ClosedAreaMatches(s, a, n);
    ClosedAreaMatches(s, a + 1, n);
  }

  lemma ClosedAreaMatches(s: string, a: int, n: int)
    ensures Matches(Cat(Times(DIGIT, 3), Opt(Chr(Lit(')')))), s, a, n)
      <==> Figures3(s, a, n) || (0 <= a < n <= |s| && s[n - 1] == ')' && Figures3(s, a, n - 1))
  {
    var close := Chr(Lit(')'));
    hide Matches, Times, Figures;
    CatMatches(Times(DIGIT, 3), Opt(close), s, a, n);
    forall m
      ensures InTwo(Times(DIGIT, 3), Opt(close), s, a, m, n) <==> Figures3(s, a, m) && Matches(Opt(close), s, m, n)
    {
      FiguresMatch(3, s, a, m);
    }
    hide InTwo;
    OptMatches(close, s, a + 3, n);
    LitMatches(')', s, a + 3, n);
    FiguresInside(s, a);
  }

  lemma LitMatches(c: char, s: string, i: int, j: int)
    ensures Matches(Chr(Lit(c)), s, i, j) <==> 0 <= i < |s| && j == i + 1 && s[i] == c
  {
  }

  lemma FiguresInside(s: string, a: int)
    ensures forall n :: Figures(s, a, n) ==> 0 <= a <= n <= |s|
  {
  }

  lemma CountryMatches(s: string, i: int, a: int)
    ensures Matches(COUNTRY_CODE, s, i, a) <==> CountryAt(s, i, a)
  {
    var one := Cat(Chr(Lit('1')), Opt(SEPARATOR));
    var body := Cat(Opt(Chr(Lit('+'))), one);
    hide Matches;
    OptMatches(body, s, i, a);
    OptCatMatches(Chr(Lit('+')), one, s, i, a);
    CatChrMatches(Lit('+'), one, s, i, a);
    OneMatches(s, i, a);
    OneMatches(s, i + 1, a);
  }

  lemma OneMatches(s: string, i: int, a: int)
    ensures Matches(Cat(Chr(Lit('1')), Opt(SEPARATOR)), s, i, a)
      <==> 0 <= i < a <= |s| && s[i] == '1' && (a == i + 1 || (a == i + 2 && SeparatorChar(s[i + 1])))
  {
    CatChrMatches(Lit('1'), Opt(SEPARATOR), s, i, a);
    OptMatches(SEPARATOR, s, i + 1, a);
  }

  /** The pattern for grouped numbers matches exactly the grouped numbers. */
  lemma GroupedMatches(s: string, i: int, j: int)
    ensures Matches(PHONE, s, i, j) <==> exists a, n :: GroupedAt(s, i, a, n, j)
  {
    var seven := Cat(SEPARATOR, LAST_SEVEN);
    var rest := Cat(AREA_CODE, seven);
    hide Matches, AREA_CODE, LAST_SEVEN, COUNTRY_CODE, CountryAt, AreaAt, SevenAt;
    CatMatches(COUNTRY_CODE, rest, s, i, j);
    forall a
      ensures InTwo(COUNTRY_CODE, rest, s, i, a, j)
        <==> CountryAt(s, i, a) && exists n :: AreaAt(s, a, n) && SevenAt(s, n, j)
    {
      CountryMatches(s, i, a);
      CatMatches(AREA_CODE, seven, s, a, j);
      forall n
        ensures InTwo(AREA_CODE, seven, s, a, n, j) <==> AreaAt(s, a, n) && SevenAt(s, n, j)
      {
        AreaMatches(s, a, n);
        SevenMatches(s, n, j);
      }
    }
    hide InTwo;
    assert PHONE == Cat(COUNTRY_CODE, rest);
    if a, n :| GroupedAt(s, i, a, n, j) {
      assert InTwo(COUNTRY_CODE, rest, s, i, a, j);
    }
    if a :| InTwo(COUNTRY_CODE, rest, s, i, a, j) {
      var n :| AreaAt(s, a, n) && SevenAt(s, n, j);
      assert GroupedAt(s, i, a, n, j);
    }
  }

  // --- words and phrases ---

  predicate IsSocialMedia(k: string) {
    k in {"instagram", "facebook", "snapchat", "tiktok", "whatsapp", "telegram", "discord", "signal", "twitter", "ig handle", "my handle"}
  }

  predicate IsPaymentHandle(k: string) { k in {"cashapp", "cash app", "venmo", "paypal", "zelle"} }

  predicate IsOffPlatform(k: string) {
    k in {"call me", "text me", "email me", "reach me at", "contact me at", "contact me outside", "off the app",
          "off platform", "find me on", "message me on the app with", "my number is", "my email is"}
  }

  lemma KeywordLists(k: string)
    ensures k in SOCIAL_MEDIA_KEYWORDS <==> IsSocialMedia(k)
    ensures k in PAYMENT_KEYWORDS <==> IsPaymentHandle(k)
    ensures k in OFF_PLATFORM_PHRASES <==> IsOffPlatform(k)
  {
    SocialMediaList(k);
    OffPlatformList(k);
    var p := PAYMENT_KEYWORDS;
    assert p[0] == "cashapp" && p[1] == "cash app" && p[2] == "venmo" && p[3] == "paypal" && p[4] == "zelle";
  }

  lemma SocialMediaList(k: string)
    ensures k in SOCIAL_MEDIA_KEYWORDS <==> IsSocialMedia(k)
  {
    var p := SOCIAL_MEDIA_KEYWORDS;
    assert p[0] == "instagram" && p[1] == "facebook" && p[2] == "snapchat" && p[3] == "tiktok" && p[4] == "whatsapp";
    assert p[5] == "telegram" && p[6] == "discord" && p[7] == "signal" && p[8] == "twitter";
    assert p[9] == "ig handle" && p[10] == "my handle";
  }

  lemma OffPlatformList(k: string)
    ensures k in OFF_PLATFORM_PHRASES <==> IsOffPlatform(k)
  {
    var p := OFF_PLATFORM_PHRASES;
    assert p[0] == "call me" && p[1] == "text me" && p[2] == "email me" && p[3] == "reach me at" && p[4] == "contact me at";
    assert p[5] == "contact me outside" && p[6] == "off the app" && p[7] == "off platform" && p[8] == "find me on";
    assert p[9] == "message me on the app with" && p[10] == "my number is" && p[11] == "my email is";
  }

  predicate IsAt(s: string, k: string, i: nat) { i + |k| <= |s| && s[i..i + |k|] == k }

  /** The text holds the keyword, in any letter case. */
  ghost predicate Mentions(s: string, k: string) { exists i: nat :: IsAt(Lower(s), k, i) }

  lemma {:induction false} IncludesIsSomewhere(s: string, k: string)
    ensures Includes(s, k) <==> exists i: nat :: IsAt(s, k, i)
  {
    if k <= s {
      assert IsAt(s, k, 0);
    } else if s != "" {
      IncludesIsSomewhere(s[1..], k);
      if i: nat :| IsAt(s[1..], k, i) {
        assert s[1..][i..i + |k|] == s[i + 1..i + 1 + |k|];
        assert IsAt(s, k, i + 1);
      }
      if i: nat :| IsAt(s, k, i) {
        assert i > 0;
        assert s[1..][i - 1..i - 1 + |k|] == s[i..i + |k|];
        assert IsAt(s[1..], k, i - 1);
      }
    } else {
      assert forall i: nat :: IsAt(s, k, i) ==> k == "";
    }
  }

  // --- the verdict ---

  ghost predicate ShowsEmail(s: string) { exists i, a, d, j :: EmailAt(s, i, a, d, j) }

  ghost predicate ShowsLink(s: string) {
    (exists i, a, j :: LinkAt(s, i, a, j)) || (exists i, d, j :: DomainAt(s, i, d, j))
  }

  ghost predicate ShowsGrouped(s: string) { exists i, a, n, j :: GroupedAt(s, i, a, n, j) }

  /** Ten figures, or eleven of which the first is 1, with no word character beside them. */
  predicate BareAt(s: string, i: int, j: int) {
    Figures(s, i, j) && (j == i + 10 || (j == i + 11 && s[i] == '1')) && EdgeAt(s, i) && EdgeAt(s, j)
  }

  ghost predicate ShowsBare(s: string) { exists i, j :: BareAt(s, i, j) }

  lemma MatchIsFound(re: Re, s: string, i: int, j: int)
    requires Matches(re, s, i, j)
    ensures Found(re, s)
  {
    assert i >= 0 && j >= 0;
  }

  lemma EmailsFound(s: string)
    ensures Found(EMAIL, s) <==> ShowsEmail(s)
  {
    hide EMAIL, EmailAt, Matches;
    if Found(EMAIL, s) {
      var i: nat, j: nat :| Matches(EMAIL, s, i, j);
      EmailMatches(s, i, j);
    }
    if i, a, d, j :| EmailAt(s, i, a, d, j) {
      EmailMatches(s, i, j);
      MatchIsFound(EMAIL, s, i, j);
    }
  }

  lemma LinksFound(s: string)
    ensures Found(URL, s) <==> ShowsLink(s)
  {
    hide LINK, DOMAIN, LinkAt, DomainAt;
    if Found(URL, s) {
      var i: nat, j: nat :| Matches(URL, s, i, j);
      LinkMatches(s, i, j);
      DomainMatches(s, i, j);
    }
    if i, a, j :| LinkAt(s, i, a, j) {
      LinkMatches(s, i, j);
      assert Matches(URL, s, i, j);
      MatchIsFound(URL, s, i, j);
    }
    if i, d, j :| DomainAt(s, i, d, j) {
      DomainMatches(s, i, j);
      assert Matches(URL, s, i, j);
      MatchIsFound(URL, s, i, j);
    }
  }

  lemma GroupsFound(s: string)
    ensures Found(PHONE, s) <==> ShowsGrouped(s)
  {
    hide PHONE, GroupedAt, Matches;
    if Found(PHONE, s) {
      var i: nat, j: nat :| Matches(PHONE, s, i, j);
      GroupedMatches(s, i, j);
    }
    if i, a, n, j :| GroupedAt(s, i, a, n, j) {
      GroupedMatches(s, i, j);
      MatchIsFound(PHONE, s, i, j);
    }
  }

  lemma BareMatches(s: string, i: int, j: int)
    ensures Matches(CONTIGUOUS_PHONE, s, i, j) <==> BareAt(s, i, j)
  {
    hide Matches, CONTIGUOUS_PHONE;
    ContiguousPhoneMatches(s, i, j);
    if 0 <= i <= j <= |s| {
      EdgeIsBoundary(s, i);
      EdgeIsBoundary(s, j);
      assert forall k :: i <= k < j ==> s[k] == s[i..j][k - i];
    }
  }

  lemma BareFound(s: string)
    ensures Found(CONTIGUOUS_PHONE, s) <==> ShowsBare(s)
  {
    hide CONTIGUOUS_PHONE, BareAt, Matches;
    if Found(CONTIGUOUS_PHONE, s) {
      var i: nat, j: nat :| Matches(CONTIGUOUS_PHONE, s, i, j);
      BareMatches(s, i, j);
    }
    if i, j :| BareAt(s, i, j) {
      BareMatches(s, i, j);
      MatchIsFound(CONTIGUOUS_PHONE, s, i, j);
    }
  }

  lemma WordsFound(s: string)
    ensures PlainKeyword(s, SOCIAL_MEDIA_KEYWORDS) <==> exists k :: IsSocialMedia(k) && Mentions(s, k)
    ensures PlainKeyword(s, PAYMENT_KEYWORDS) <==> exists k :: IsPaymentHandle(k) && Mentions(s, k)
    ensures PlainKeyword(s, OFF_PLATFORM_PHRASES) <==> exists k :: IsOffPlatform(k) && Mentions(s, k)
  {
    hide SOCIAL_MEDIA_KEYWORDS, PAYMENT_KEYWORDS, OFF_PLATFORM_PHRASES, IsSocialMedia, IsPaymentHandle, IsOffPlatform, Mentions, Includes, Lower;
    forall k
      ensures k in SOCIAL_MEDIA_KEYWORDS <==> IsSocialMedia(k)
      ensures k in PAYMENT_KEYWORDS <==> IsPaymentHandle(k)
      ensures k in OFF_PLATFORM_PHRASES <==> IsOffPlatform(k)
      ensures Includes(Lower(s), k) <==> Mentions(s, k)
    {
      KeywordLists(k);
      MentionsIsIncludes(s, k);
    }
  }

  lemma MentionsIsIncludes(s: string, k: string)
    ensures Includes(Lower(s), k) <==> Mentions(s, k)
  {
    IncludesIsSomewhere(Lower(s), k);
  }

  /**
   What is blocked, in the characters of the message: an address, as typed or after the rewriting of
   "at" and "dot", a link or domain, a grouped or bare number, a number once words and look-alikes are
   figures, however its figures are spaced, or a listed word.
   */
  lemma BlockedMeans(content: string)
    ensures Blocked(content) <==>
      (|| ShowsEmail(content) || ShowsEmail(NormalizeAtDot(content)) || ShowsLink(content)
       || ShowsGrouped(content) || ShowsBare(content) || (exists a: nat, b: nat :: SpacedPhone(Undisguised(content), a, b))
       || exists k :: (IsSocialMedia(k) || IsPaymentHandle(k) || IsOffPlatform(k)) && Mentions(content, k))
  {
    hide Blocked, Found, PlainKeyword, Mentions, ShowsEmail, ShowsLink, ShowsGrouped, ShowsBare, SpacedPhone, NormalizeAtDot, Undisguised,
      Squeeze, PHONE, EMAIL, URL, CONTIGUOUS_PHONE, SOCIAL_MEDIA_KEYWORDS, PAYMENT_KEYWORDS, OFF_PLATFORM_PHRASES,
      IsSocialMedia, IsPaymentHandle, IsOffPlatform;
    BlockedIsPlain(content);
    EmailsFound(content);
    EmailsFound(NormalizeAtDot(content));
    LinksFound(content);
    GroupsFound(content);
    BareFound(content);
    WordsFound(content);
    SqueezeSettles(Undisguised(content));
    SettledHasNoGroupedPhone(FullyNormalized(content));
    SpacedPhoneIsBlocked(content);
  }

  // --- the reports ---

  lemma {:induction false} CollectedReports(found: seq<string>, keep: string -> bool, report: string -> Report, r: Report)
    ensures r in Collect(found, keep, report) <==> exists m :: m in found && keep(m) && r == report(m)
  {
    if found != [] {
      var init, last := found[..|found| - 1], found[|found| - 1];
      CollectedReports(init, keep, report, r);
      assert forall m :: m in found <==> m in init || m == last;
    }
  }

  /** The kinds of report there are. */
  predicate IsReport(r: Report) {
    || (r.violation == PhoneNumber && r.via == Pattern && (r.confidence == 95 || r.confidence == 90))
    || (r.violation == PhoneNumber && r.via == Normalization && r.confidence == 75 && r.snippet == "")
    || (r.violation == Email && r.via == Pattern && r.confidence == 95)
    || (r.violation == Email && r.via == Normalization && r.confidence == 85)
    || (r.violation == Url && r.via == Pattern && r.confidence == 90)
    || (r.violation == SocialMedia && r.via == Keyword && r.confidence == 70)
    || (r.violation == PaymentHandle && r.via == Keyword && r.confidence == 75)
    || (r.violation == OffPlatformRequest && r.via == Keyword && r.confidence == 60)
  }

  predicate Among(r: Report, rs: seq<Report>) { r in rs }

  lemma ReportsInParts(content: string, r: Report)
    ensures r in Reports(content) <==>
      (|| Among(r, PhoneReports(content)) || Among(r, EmailReports(content)) || Among(r, UrlReports(content))
       || Among(r, WordedEmailReports(content)) || Among(r, DisguisedPhoneReports(content))
       || Among(r, KeywordReports(content, SOCIAL_MEDIA_KEYWORDS, SocialMedia, 70))
       || Among(r, KeywordReports(content, PAYMENT_KEYWORDS, PaymentHandle, 75))
       || Among(r, KeywordReports(content, OFF_PLATFORM_PHRASES, OffPlatformRequest, 60)))
  {
    hide PhoneReports, EmailReports, UrlReports, WordedEmailReports, DisguisedPhoneReports, KeywordReports, SOCIAL_MEDIA_KEYWORDS,
      PAYMENT_KEYWORDS, OFF_PLATFORM_PHRASES;
  }

  lemma KeywordReportMeans(content: string, ks: seq<string>, violation: ViolationType, confidence: nat, r: Report)
    ensures r in KeywordReports(content, ks, violation, confidence)
      <==> r.snippet in ks && Mentions(content, r.snippet) && r == Report(violation, Keyword, confidence, r.snippet)
  {
    CollectedReports(ks, Occurs(Lower(content)), Reporter(violation, Keyword, confidence), r);
    MentionsIsIncludes(content, r.snippet);
  }

  ghost predicate Reported(content: string, violation: ViolationType, via: DetectionMethod, confidence: nat) {
    exists m :: Report(violation, via, confidence, m) in Reports(content)
  }

  /** A plain search reports once for every match. */
  lemma EveryMatchReported(found: seq<string>, report: string -> Report)
    ensures (exists r :: r in Collect(found, Every(), report)) <==> found != []
    ensures forall r :: r in Collect(found, Every(), report) ==> exists m :: m in found && r == report(m)
  {
    forall r
      ensures r in Collect(found, Every(), report) <==> exists m :: m in found && Every()(m) && r == report(m)
    {
      CollectedReports(found, Every(), report, r);
    }
    CollectsSome(found, Every(), report);
    if found != [] {
      assert found[0] in found && Every()(found[0]);
      assert report(found[0]) in Collect(found, Every(), report);
    }
  }

  /** Which reports a search gives, and that it gives some if it finds something new. */
  lemma SomeReported(found: seq<string>, keep: string -> bool, report: string -> Report)
    ensures Collect(found, keep, report) != [] ==> Collect(found, keep, report)[0] in Collect(found, keep, report)
    ensures forall r :: r in Collect(found, keep, report) ==> exists m :: m in found && r == report(m)
  {
    forall r
      ensures r in Collect(found, keep, report) <==> exists m :: m in found && keep(m) && r == report(m)
    {
      CollectedReports(found, keep, report, r);
    }
  }

  lemma KindsOfTypedPhones(content: string, r: Report)
    ensures r in PhoneReports(content) ==> r.violation == PhoneNumber && IsReport(r)
  {
    var grouped, bare := MatchAll(PHONE, content), MatchAll(CONTIGUOUS_PHONE, content);
    hide MatchAll, Collect, PHONE, CONTIGUOUS_PHONE, NewDigits, Every;
    SomeReported(grouped, Every(), Reporter(PhoneNumber, Pattern, 95));
    SomeReported(bare, NewDigits(grouped), Reporter(PhoneNumber, Pattern, 90));
  }

  lemma KindsOfDisguisedPhones(content: string, r: Report)
    ensures r in DisguisedPhoneReports(content) ==> r.violation == PhoneNumber && r.via == Normalization && IsReport(r)
  {
    var phones := MatchAll(PHONE, content) + MatchAll(CONTIGUOUS_PHONE, content);
    var normalized := FullyNormalized(content);
    hide MatchAll, FullyNormalized, Plainly, Collect, PHONE, CONTIGUOUS_PHONE, NewDigits;
    SomeReported(MatchAll(PHONE, normalized) + MatchAll(CONTIGUOUS_PHONE, normalized), NewDigits(phones), Withheld(PhoneNumber, Normalization, 75));
  }

  lemma KindsOfPhoneReports(content: string, r: Report)
    ensures r in PhoneReports(content) || r in DisguisedPhoneReports(content) ==> r.violation == PhoneNumber && IsReport(r)
  {
    hide *;
    KindsOfTypedPhones(content, r);
    KindsOfDisguisedPhones(content, r);
  }

  lemma KindsOfAddressReports(content: string, r: Report)
    ensures r in EmailReports(content) || r in WordedEmailReports(content) ==> r.violation == Email && IsReport(r)
    ensures r in UrlReports(content) ==> r.violation == Url && IsReport(r)
  {
    hide MatchAll, NormalizeAtDot, Collect, EMAIL, URL;
    SomeReported(MatchAll(EMAIL, content), Every(), Reporter(Email, Pattern, 95));
    SomeReported(MatchAll(EMAIL, NormalizeAtDot(content)), NewEmails(MatchAll(EMAIL, content)), Reporter(Email, Normalization, 85));
    SomeReported(MatchAll(URL, content), Every(), Reporter(Url, Pattern, 90));
  }

  /** Every report is of one of the kinds there are. */
  lemma ReportsAreOfTheirKind(content: string, r: Report)
    requires r in Reports(content)
    ensures IsReport(r)
  {
    hide Reports, PhoneReports, EmailReports, UrlReports, WordedEmailReports, DisguisedPhoneReports, KeywordReports, SOCIAL_MEDIA_KEYWORDS,
      PAYMENT_KEYWORDS, OFF_PLATFORM_PHRASES, Mentions;
    ReportsInParts(content, r);
    KindsOfPhoneReports(content, r);
    KindsOfAddressReports(content, r);
    KeywordReportMeans(content, SOCIAL_MEDIA_KEYWORDS, SocialMedia, 70, r);
    KeywordReportMeans(content, PAYMENT_KEYWORDS, PaymentHandle, 75, r);
    KeywordReportMeans(content, OFF_PLATFORM_PHRASES, OffPlatformRequest, 60, r);
  }

  /** A listed word is reported as what its list is about, by itself. */
  lemma KeywordsAreReported(content: string, k: string)
    ensures IsSocialMedia(k) && Mentions(content, k) <==> Report(SocialMedia, Keyword, 70, k) in Reports(content)
    ensures IsPaymentHandle(k) && Mentions(content, k) <==> Report(PaymentHandle, Keyword, 75, k) in Reports(content)
    ensures IsOffPlatform(k) && Mentions(content, k) <==> Report(OffPlatformRequest, Keyword, 60, k) in Reports(content)
  {
    KeywordLists(k);
    hide SOCIAL_MEDIA_KEYWORDS, PAYMENT_KEYWORDS, OFF_PLATFORM_PHRASES, IsSocialMedia, IsPaymentHandle, IsOffPlatform, Mentions;
    KeywordReported(content, Report(SocialMedia, Keyword, 70, k));
    KeywordReported(content, Report(PaymentHandle, Keyword, 75, k));
    KeywordReported(content, Report(OffPlatformRequest, Keyword, 60, k));
  }

  lemma KeywordReported(content: string, r: Report)
    requires r.via == Keyword
    ensures r in Reports(content) <==>
      (|| (r.snippet in SOCIAL_MEDIA_KEYWORDS && Mentions(content, r.snippet) && r == Report(SocialMedia, Keyword, 70, r.snippet))
       || (r.snippet in PAYMENT_KEYWORDS && Mentions(content, r.snippet) && r == Report(PaymentHandle, Keyword, 75, r.snippet))
       || (r.snippet in OFF_PLATFORM_PHRASES && Mentions(content, r.snippet) && r == Report(OffPlatformRequest, Keyword, 60, r.snippet)))
  {
    hide Reports, PhoneReports, EmailReports, UrlReports, WordedEmailReports, DisguisedPhoneReports, KeywordReports, SOCIAL_MEDIA_KEYWORDS,
      PAYMENT_KEYWORDS, OFF_PLATFORM_PHRASES, Mentions;
    ReportsInParts(content, r);
    KindsOfPhoneReports(content, r);
    KindsOfAddressReports(content, r);
    KeywordReportMeans(content, SOCIAL_MEDIA_KEYWORDS, SocialMedia, 70, r);
    KeywordReportMeans(content, PAYMENT_KEYWORDS, PaymentHandle, 75, r);
    KeywordReportMeans(content, OFF_PLATFORM_PHRASES, OffPlatformRequest, 60, r);
  }

  /** A part of the reports that is not empty, and whose reports have some kind, is a report of that kind. */
  lemma PartIsReported(content: string, part: seq<Report>, violation: ViolationType, via: DetectionMethod, confidence: nat)
    requires part != [] && forall r :: r in part ==> r in Reports(content) && r == Report(violation, via, confidence, r.snippet)
    ensures Reported(content, violation, via, confidence)
  {
    var r := part[0];
    assert r in part;
    assert Report(violation, via, confidence, r.snippet) in Reports(content);
  }

  /** An address, a link and a grouped number that the message shows are reported as such. */
  lemma TypedContactsAreReported(content: string)
    ensures ShowsEmail(content) ==> Reported(content, Email, Pattern, 95)
    ensures ShowsLink(content) ==> Reported(content, Url, Pattern, 90)
    ensures ShowsGrouped(content) ==> Reported(content, PhoneNumber, Pattern, 95)
  {
    var emails, urls, groups := MatchAll(EMAIL, content), MatchAll(URL, content), MatchAll(PHONE, content);
    EmailsFound(content);
    LinksFound(content);
    GroupsFound(content);
    LongEmail();
    LongUrl();
    LongPhones();
    hide Reports, MatchAll, Collect, MinLength, EMAIL, URL, PHONE, CONTIGUOUS_PHONE, Found, ShowsEmail, ShowsLink, ShowsGrouped,
      Reported, WordedEmailReports, DisguisedPhoneReports, KeywordReports;
    MatchAllFinds(EMAIL, content);
    MatchAllFinds(URL, content);
    MatchAllFinds(PHONE, content);
    forall r
      ensures r in PhoneReports(content) || r in EmailReports(content) || r in UrlReports(content) ==> r in Reports(content)
    {
      ReportsInParts(content, r);
    }
    EveryMatchReported(emails, Reporter(Email, Pattern, 95));
    EveryMatchReported(urls, Reporter(Url, Pattern, 90));
    EveryMatchReported(groups, Reporter(PhoneNumber, Pattern, 95));
    if ShowsEmail(content) { PartIsReported(content, EmailReports(content), Email, Pattern, 95); }
    if ShowsLink(content) { PartIsReported(content, UrlReports(content), Url, Pattern, 90); }
    if ShowsGrouped(content) {
      PartIsReported(content, Collect(groups, Every(), Reporter(PhoneNumber, Pattern, 95)), PhoneNumber, Pattern, 95);
    }
  }

  lemma SomeKept(found: seq<string>, seen: seq<string>, keep: string -> bool, report: string -> Report)
    requires found != [] && forall m :: m in found ==> keep(m)
    ensures Collect(found, keep, report) != []
    ensures forall r :: r in Collect(found, keep, report) ==> exists m :: m in found && r == report(m)
  {
    CollectsSome(found, keep, report);
    assert found[0] in found && keep(found[0]);
    SomeReported(found, keep, report);
  }

  /** What the message shows only after a rewriting is reported as found by it. */
  lemma DisguisedContactsAreReported(content: string)
    ensures !ShowsEmail(content) && ShowsEmail(NormalizeAtDot(content)) ==> Reported(content, Email, Normalization, 85)
    ensures !ShowsGrouped(content) && ShowsBare(content) ==> Reported(content, PhoneNumber, Pattern, 90)
    ensures !ShowsGrouped(content) && !ShowsBare(content) && (exists a: nat, b: nat :: SpacedPhone(Undisguised(content), a, b)) ==>
      Report(PhoneNumber, Normalization, 75, "") in Reports(content)
  {
    hide Reports, MatchAll, Collect, EMAIL, PHONE, CONTIGUOUS_PHONE, ShowsEmail, ShowsGrouped, ShowsBare, NormalizeAtDot, SpacedPhone, Undisguised;
    if !ShowsEmail(content) && ShowsEmail(NormalizeAtDot(content)) { WordedEmailReported(content); }
    if !ShowsGrouped(content) && ShowsBare(content) { BareReported(content); }
    if !ShowsGrouped(content) && !ShowsBare(content) && (exists a: nat, b: nat :: SpacedPhone(Undisguised(content), a, b)) {
      DisguisedReported(content);
    }
  }

  lemma WordedEmailReported(content: string)
    requires !ShowsEmail(content) && ShowsEmail(NormalizeAtDot(content))
    ensures Reported(content, Email, Normalization, 85)
  {
    var normalized := NormalizeAtDot(content);
    EmailsFound(content);
    EmailsFound(normalized);
    LongEmail();
    LowerKeepsFinds(content);
    hide Reports, MatchAll, Collect, MinLength, EMAIL, Found, ShowsEmail, Reported, NormalizeAtDot;
    MatchAllFinds(EMAIL, content);
    MatchAllFinds(EMAIL, normalized);
    var emails, worded := MatchAll(EMAIL, content), MatchAll(EMAIL, normalized);
    SomeKept(worded, emails, NewEmails(emails), Reporter(Email, Normalization, 85));
    forall r
      ensures r in WordedEmailReports(content) ==> r in Reports(content)
    {
      hide WordedEmailReports;
      ReportsInParts(content, r);
    }
    PartIsReported(content, WordedEmailReports(content), Email, Normalization, 85);
  }

  lemma BareReported(content: string)
    requires !ShowsGrouped(content) && ShowsBare(content)
    ensures Reported(content, PhoneNumber, Pattern, 90)
  {
    var grouped, bare := MatchAll(PHONE, content), MatchAll(CONTIGUOUS_PHONE, content);
    GroupsFound(content);
    BareFound(content);
    LongPhones();
    hide Reports, MatchAll, Collect, MinLength, PHONE, CONTIGUOUS_PHONE, Found, ShowsGrouped, ShowsBare, Reported;
    MatchAllFinds(PHONE, content);
    MatchAllFinds(CONTIGUOUS_PHONE, content);
    SomeKept(bare, grouped, NewDigits(grouped), Reporter(PhoneNumber, Pattern, 90));
    var part := Collect(bare, NewDigits(grouped), Reporter(PhoneNumber, Pattern, 90));
    forall r | r in part
      ensures r in Reports(content)
    {
      assert r in PhoneReports(content);
      hide PhoneReports;
      ReportsInParts(content, r);
    }
    PartIsReported(content, part, PhoneNumber, Pattern, 90);
  }

  lemma NothingTyped(content: string)
    requires !ShowsGrouped(content) && !ShowsBare(content) && exists a: nat, b: nat :: SpacedPhone(Undisguised(content), a, b)
    ensures MatchAll(PHONE, content) == [] && MatchAll(CONTIGUOUS_PHONE, content) == []
    ensures MatchAll(CONTIGUOUS_PHONE, FullyNormalized(content)) != [] && FullyNormalized(content) != Plainly(content)
  {
    LongPhones();
    hide *;
    GroupsFound(content);
    BareFound(content);
    SpacedPhoneIsBlocked(content);
    PlainlyKeepsNumbers(content);
    MatchAllFinds(PHONE, content);
    MatchAllFinds(CONTIGUOUS_PHONE, content);
    MatchAllFinds(CONTIGUOUS_PHONE, FullyNormalized(content));
  }

  lemma DisguisedFound(content: string)
    requires !ShowsGrouped(content) && !ShowsBare(content) && exists a: nat, b: nat :: SpacedPhone(Undisguised(content), a, b)
    ensures DisguisedPhoneReports(content) != []
    ensures forall r :: r in DisguisedPhoneReports(content) ==> r == Report(PhoneNumber, Normalization, 75, "")
  {
    var normalized := FullyNormalized(content);
    var grouped, bare := MatchAll(PHONE, content), MatchAll(CONTIGUOUS_PHONE, content);
    var found := MatchAll(PHONE, normalized) + MatchAll(CONTIGUOUS_PHONE, normalized);
    NothingTyped(content);
    hide Reports, MatchAll, Collect, MinLength, PHONE, CONTIGUOUS_PHONE, Found, ShowsGrouped, ShowsBare, FullyNormalized, Plainly, SpacedPhone;
    SomeKept(found, grouped + bare, NewDigits(grouped + bare), Withheld(PhoneNumber, Normalization, 75));
  }

  lemma DisguisedReported(content: string)
    requires !ShowsGrouped(content) && !ShowsBare(content) && exists a: nat, b: nat :: SpacedPhone(Undisguised(content), a, b)
    ensures Report(PhoneNumber, Normalization, 75, "") in Reports(content)
  {
    hide *;
    DisguisedFound(content);
    var part := DisguisedPhoneReports(content);
    assert part[0] in part;
    ReportsInParts(content, part[0]);
    assert Among(part[0], part) by { InIsAmong(part[0], part); }
  }

  lemma InIsAmong(r: Report, rs: seq<Report>)
    requires r in rs
    ensures Among(r, rs)
  {
  }

  lemma PhonesInParts(content: string, r: Report)
    requires r.violation == PhoneNumber && r.via == Pattern
    ensures r in Reports(content) <==> r in PhoneReports(content)
  {
    hide Reports, PhoneReports, EmailReports, UrlReports, WordedEmailReports, KeywordReports, SOCIAL_MEDIA_KEYWORDS,
      PAYMENT_KEYWORDS, OFF_PLATFORM_PHRASES, Mentions;
    ReportsInParts(content, r);
    KindsOfDisguisedPhones(content, r);
    KindsOfAddressReports(content, r);
    KeywordReportMeans(content, SOCIAL_MEDIA_KEYWORDS, SocialMedia, 70, r);
    KeywordReportMeans(content, PAYMENT_KEYWORDS, PaymentHandle, 75, r);
    KeywordReportMeans(content, OFF_PLATFORM_PHRASES, OffPlatformRequest, 60, r);
  }

  lemma PhoneReportMeans(content: string, m: string)
    ensures Report(PhoneNumber, Pattern, 95, m) in PhoneReports(content) <==> m in MatchAll(PHONE, content)
    ensures Report(PhoneNumber, Pattern, 90, m) in PhoneReports(content) <==>
      m in MatchAll(CONTIGUOUS_PHONE, content) && forall p :: p in MatchAll(PHONE, content) ==> DigitsOf(p) != DigitsOf(m)
  {
    var grouped, bare := MatchAll(PHONE, content), MatchAll(CONTIGUOUS_PHONE, content);
    hide MatchAll, Collect, PHONE, CONTIGUOUS_PHONE, DigitsOf;
    CollectedReports(grouped, Every(), Reporter(PhoneNumber, Pattern, 95), Report(PhoneNumber, Pattern, 95, m));
    CollectedReports(bare, NewDigits(grouped), Reporter(PhoneNumber, Pattern, 90), Report(PhoneNumber, Pattern, 95, m));
    CollectedReports(grouped, Every(), Reporter(PhoneNumber, Pattern, 95), Report(PhoneNumber, Pattern, 90, m));
    CollectedReports(bare, NewDigits(grouped), Reporter(PhoneNumber, Pattern, 90), Report(PhoneNumber, Pattern, 90, m));
  }

  /** A bare number is reported exactly if no grouped number with the same figures is. */
  lemma NumbersAreReportedOnce(content: string, m: string)
    ensures Report(PhoneNumber, Pattern, 90, m) in Reports(content) <==>
      (m in MatchAll(CONTIGUOUS_PHONE, content)
       && forall p :: Report(PhoneNumber, Pattern, 95, p) in Reports(content) ==> DigitsOf(p) != DigitsOf(m))
  {
    hide *;
    PhonesInParts(content, Report(PhoneNumber, Pattern, 90, m));
    PhoneReportMeans(content, m);
    forall p
      ensures Report(PhoneNumber, Pattern, 95, p) in Reports(content) <==> p in MatchAll(PHONE, content)
    {
      PhonesInParts(content, Report(PhoneNumber, Pattern, 95, p));
      PhoneReportMeans(content, p);
    }
  }

  // --- their order ---

  /** Where a kind of report comes: as typed, then rewritten, then by words. */
  function Rank(r: Report): nat {
    match r.via
    case Pattern => if r.violation == PhoneNumber then (if r.confidence == 95 then 0 else 1) else if r.violation == Email then 2 else 3
    case Normalization => if r.violation == Email then 4 else 5
    case Keyword => if r.violation == SocialMedia then 6 else if r.violation == PaymentHandle then 7 else 8
    case _ => 9
  }

  ghost predicate Within(rs: seq<Report>, low: nat, high: nat) { forall r :: r in rs ==> low <= Rank(r) <= high }

  ghost predicate Ranked(rs: seq<Report>) { forall i, j :: 0 <= i < j < |rs| ==> Rank(rs[i]) <= Rank(rs[j]) }

  lemma RankedTogether(a: seq<Report>, b: seq<Report>, low: nat, mid: nat, high: nat)
    requires Ranked(a) && Ranked(b) && Within(a, low, mid) && Within(b, mid, high) && low <= mid <= high
    ensures Ranked(a + b) && Within(a + b, low, high)
  {
    hide Rank;
    var both := a + b;
    forall i, j | 0 <= i < j < |both|
      ensures Rank(both[i]) <= Rank(both[j])
    {
      if i < |a| <= j { assert both[i] in a && both[j] in b; }
    }
  }

  lemma CollectedRank(found: seq<string>, keep: string -> bool, report: string -> Report, rank: nat)
    requires forall m :: Rank(report(m)) == rank
    ensures Ranked(Collect(found, keep, report)) && Within(Collect(found, keep, report), rank, rank)
  {
    var rs := Collect(found, keep, report);
    hide Rank, Collect;
    SomeReported(found, keep, report);
    assert forall i :: 0 <= i < |rs| ==> rs[i] in rs;
  }

  lemma TypedAreRanked(content: string)
    ensures Ranked(PhoneReports(content) + EmailReports(content) + UrlReports(content))
    ensures Within(PhoneReports(content) + EmailReports(content) + UrlReports(content), 0, 3)
  {
    var grouped, bare := MatchAll(PHONE, content), MatchAll(CONTIGUOUS_PHONE, content);
    var p := Collect(grouped, Every(), Reporter(PhoneNumber, Pattern, 95));
    var q := Collect(bare, NewDigits(grouped), Reporter(PhoneNumber, Pattern, 90));
    assert p + q == PhoneReports(content);
    CollectedRank(grouped, Every(), Reporter(PhoneNumber, Pattern, 95), 0);
    CollectedRank(bare, NewDigits(grouped), Reporter(PhoneNumber, Pattern, 90), 1);
    CollectedRank(MatchAll(EMAIL, content), Every(), Reporter(Email, Pattern, 95), 2);
    CollectedRank(MatchAll(URL, content), Every(), Reporter(Url, Pattern, 90), 3);
    assert EmailReports(content) == Collect(MatchAll(EMAIL, content), Every(), Reporter(Email, Pattern, 95));
    assert UrlReports(content) == Collect(MatchAll(URL, content), Every(), Reporter(Url, Pattern, 90));
    hide *;
    Widen(p, 0, 0, 0, 1);
    RankedTogether(p, q, 0, 1, 1);
    Widen(p + q, 0, 1, 0, 2);
    RankedTogether(p + q, EmailReports(content), 0, 2, 2);
    Widen(p + q + EmailReports(content), 0, 2, 0, 3);
    RankedTogether(p + q + EmailReports(content), UrlReports(content), 0, 3, 3);
  }

  lemma Widen(rs: seq<Report>, low: nat, high: nat, low': nat, high': nat)
    requires Within(rs, low, high) && low' <= low && high <= high'
    ensures Within(rs, low', high')
  {
  }

  lemma WordedAreRanked(content: string)
    ensures Ranked(WordedEmailReports(content)) && Within(WordedEmailReports(content), 4, 4)
  {
    assert forall m :: Rank(Reporter(Email, Normalization, 85)(m)) == 4;
    NoneAreRanked(4);
    hide MatchAll, Collect, NormalizeAtDot, EMAIL, Rank, Ranked, Within, Reporter, NewEmails;
    CollectedRank(MatchAll(EMAIL, NormalizeAtDot(content)), NewEmails(MatchAll(EMAIL, content)), Reporter(Email, Normalization, 85), 4);
  }

  lemma DisguisedAreRanked(content: string)
    ensures Ranked(DisguisedPhoneReports(content)) && Within(DisguisedPhoneReports(content), 5, 5)
  {
    assert forall m :: Rank(Withheld(PhoneNumber, Normalization, 75)(m)) == 5;
    NoneAreRanked(5);
    hide MatchAll, Collect, FullyNormalized, Plainly, PHONE, CONTIGUOUS_PHONE, Rank, Ranked, Within, Withheld, NewDigits;
    var normalized := FullyNormalized(content);
    CollectedRank(MatchAll(PHONE, normalized) + MatchAll(CONTIGUOUS_PHONE, normalized),
                  NewDigits(MatchAll(PHONE, content) + MatchAll(CONTIGUOUS_PHONE, content)), Withheld(PhoneNumber, Normalization, 75), 5);
  }

  lemma NoneAreRanked(rank: nat)
    ensures Ranked([]) && Within([], rank, rank)
  {
  }

  lemma WordsAreRanked(content: string)
    ensures Ranked(KeywordReports(content, SOCIAL_MEDIA_KEYWORDS, SocialMedia, 70))
    ensures Within(KeywordReports(content, SOCIAL_MEDIA_KEYWORDS, SocialMedia, 70), 6, 6)
    ensures Ranked(KeywordReports(content, PAYMENT_KEYWORDS, PaymentHandle, 75))
    ensures Within(KeywordReports(content, PAYMENT_KEYWORDS, PaymentHandle, 75), 7, 7)
    ensures Ranked(KeywordReports(content, OFF_PLATFORM_PHRASES, OffPlatformRequest, 60))
    ensures Within(KeywordReports(content, OFF_PLATFORM_PHRASES, OffPlatformRequest, 60), 8, 8)
  {
    hide Collect, SOCIAL_MEDIA_KEYWORDS, PAYMENT_KEYWORDS, OFF_PLATFORM_PHRASES;
    CollectedRank(SOCIAL_MEDIA_KEYWORDS, Occurs(Lower(content)), Reporter(SocialMedia, Keyword, 70), 6);
    CollectedRank(PAYMENT_KEYWORDS, Occurs(Lower(content)), Reporter(PaymentHandle, Keyword, 75), 7);
    CollectedRank(OFF_PLATFORM_PHRASES, Occurs(Lower(content)), Reporter(OffPlatformRequest, Keyword, 60), 8);
  }

  /** The reports come in the order of their kinds, which decides between equal confidences. */
  lemma ReportsAreRanked(content: string)
    ensures Ranked(Reports(content))
  {
    var a := PhoneReports(content) + EmailReports(content) + UrlReports(content);
    var b, c := WordedEmailReports(content), DisguisedPhoneReports(content);
    var d := KeywordReports(content, SOCIAL_MEDIA_KEYWORDS, SocialMedia, 70);
    var e := KeywordReports(content, PAYMENT_KEYWORDS, PaymentHandle, 75);
    var f := KeywordReports(content, OFF_PLATFORM_PHRASES, OffPlatformRequest, 60);
    assert Reports(content) == a + b + c + d + e + f;
    hide *;
    TypedAreRanked(content);
    WordedAreRanked(content);
    DisguisedAreRanked(content);
    WordsAreRanked(content);
    Widen(a, 0, 3, 0, 4);
    RankedTogether(a, b, 0, 4, 4);
    Widen(a + b, 0, 4, 0, 5);
    RankedTogether(a + b, c, 0, 5, 5);
    Widen(a + b + c, 0, 5, 0, 6);
    RankedTogether(a + b + c, d, 0, 6, 6);
    Widen(a + b + c + d, 0, 6, 0, 7);
    RankedTogether(a + b + c + d, e, 0, 7, 7);
    Widen(a + b + c + d + e, 0, 7, 0, 8);
    RankedTogether(a + b + c + d + e, f, 0, 8, 8);
  }
}
