/**
 A backtracking matcher for the regular expressions the message filter uses.

 `Ends` follows ECMAScript's matching order: it lists every end position of a match
 starting at `i`, most preferred first, so a match is the head of that list.
 `Matches` says, without any order, what it means for a substring to match.
 `EndsAreMatches` connects the two.
 */
module Regex {

  /** The character classes that occur in the filter's patterns. */
  datatype Class =
    | Lit(c: char)        // one character
    | LitI(c: char)       // one lower-case letter under the `i` flag
    | Digit               // \d
    | Word                // \w
    | Space               // \s
    | NonSpace            // \S
    | BlankOnly           // [^\S\r\n]
    | Separator           // [\s.-] and [-.\s]
    | EmailLocal          // [\w.+-]
    | HostChar            // [\w-]
    | Letter              // [a-zA-Z]
    | DigitLike           // [\dOolI]

  predicate IsDigit(c: char) { '0' <= c <= '9' }

  predicate IsUpper(c: char) { 'A' <= c <= 'Z' }

  predicate IsLetter(c: char) { 'a' <= c <= 'z' || IsUpper(c) }

  predicate IsWord(c: char) { IsLetter(c) || IsDigit(c) || c == '_' }

  // The ASCII part of \s: tab, line feed, vertical tab, form feed, carriage return, blank.
  predicate IsSpace(c: char) { '\t' <= c <= '\r' || c == ' ' }

  predicate IsSeparator(c: char) { IsSpace(c) || c == '.' || c == '-' }

  function LowerChar(c: char): char {
    if IsUpper(c) then ((c as int) + 32) as char else c
  }

  predicate In(c: char, k: Class) {
    match k
    case Lit(d) => c == d
    case LitI(d) => LowerChar(c) == d
    case Digit => IsDigit(c)
    case Word => IsWord(c)
    case Space => IsSpace(c)
    case NonSpace => !IsSpace(c)
    case BlankOnly => IsSpace(c) && c != '\r' && c != '\n'
    case Separator => IsSeparator(c)
    case EmailLocal => IsWord(c) || c == '.' || c == '+' || c == '-'
    case HostChar => IsWord(c) || c == '-'
    case Letter => IsLetter(c)
    case DigitLike => IsDigit(c) || c == 'O' || c == 'o' || c == 'l' || c == 'I'
  }

  datatype Re =
    | Eps
    | Chr(k: Class)
    | Cat(first: Re, second: Re)
    | Alt(left: Re, right: Re)
    | Opt(body: Re)       // body?
    | Star(body: Re)      // body*
    | Boundary            // \b
    | Ahead(body: Re)     // (?=body)

  function Plus(r: Re): Re { Cat(r, Star(r)) }

  /** r{n} */
  function Times(r: Re, n: nat): Re {
    if n == 0 then Eps else Cat(r, Times(r, n - 1))
  }

  /** The literal text `t` (all lower case when the `i` flag is on). */
  function Text(t: string, ignoreCase: bool := false): Re {
    if t == "" then Eps
    else Cat(Chr(if ignoreCase then LitI(t[0]) else Lit(t[0])), Text(t[1..], ignoreCase))
  }

  /** t0|t1|... */
  function OneOf(ts: seq<string>, ignoreCase: bool := false): Re
    requires ts != []
  {
    var t := Text(ts[0], ignoreCase);
    if |ts| == 1 then t else Alt(t, OneOf(ts[1..], ignoreCase))
  }

  predicate WordAt(s: string, i: int) { 0 <= i < |s| && IsWord(s[i]) }

  /** \b holds between positions i-1 and i. */
  predicate AtBoundary(s: string, i: int) { WordAt(s, i - 1) != WordAt(s, i) }

  // --- the matcher ---

  function Above(js: seq<nat>, lo: nat): (r: seq<nat>)
    ensures forall j :: j in r <==> j in js && lo < j
  {
    if js == [] then []
    else if lo < js[0] then [js[0]] + Above(js[1..], lo)
    else Above(js[1..], lo)
  }

  function Ends(re: Re, s: string, i: nat): (r: seq<nat>)
    requires i <= |s|
    ensures forall j :: j in r ==> i <= j <= |s|
    decreases re, |s| - i, 0, 0
  {
    match re
    case Eps => [i]
    case Chr(k) => if i < |s| && In(s[i], k) then [i + 1] else []
    case Cat(a, b) => EndsAfter(b, s, Ends(a, s, i), i)
    case Alt(a, b) => Ends(a, s, i) + Ends(b, s, i)
    case Opt(a) => Above(Ends(a, s, i), i) + [i]
    case Star(a) =>
      if i == |s| then [i] else EndsAfter(re, s, Above(Ends(a, s, i), i), i + 1) + [i]
    case Boundary => if AtBoundary(s, i) then [i] else []
    case Ahead(a) => if Ends(a, s, i) == [] then [] else [i]
  }

  function EndsAfter(re: Re, s: string, starts: seq<nat>, lo: nat): (r: seq<nat>)
    requires lo <= |s| && forall j :: j in starts ==> lo <= j <= |s|
    ensures forall j :: j in r ==> lo <= j <= |s|
    decreases re, |s| - lo, 1, |starts|
  {
    if starts == [] then []
    else
      assert starts[0] in starts && forall j :: j in starts[1..] ==> j in starts;
      Ends(re, s, starts[0]) + EndsAfter(re, s, starts[1..], lo)
  }

  // --- what a match is ---

  ghost predicate Matches(re: Re, s: string, i: int, j: int)
    decreases re, if i <= j then j - i else 0
  {
    0 <= i <= j <= |s| &&
    match re
    case Eps => i == j
    case Chr(k) => j == i + 1 && In(s[i], k)
    case Cat(a, b) => exists m :: i <= m <= j && Matches(a, s, i, m) && Matches(b, s, m, j)
    case Alt(a, b) => Matches(a, s, i, j) || Matches(b, s, i, j)
    case Opt(a) => i == j || Matches(a, s, i, j)
    case Star(a) => i == j || exists m :: i < m <= j && Matches(a, s, i, m) && Matches(re, s, m, j)
    case Boundary => i == j && AtBoundary(s, i)
    case Ahead(a) => i == j && exists m :: i <= m <= |s| && Matches(a, s, i, m)
  }

  /** The matcher finds exactly the matches there are. */
  lemma {:induction false} EndsAreMatches(re: Re, s: string, i: nat)
    requires i <= |s|
    ensures forall j :: j in Ends(re, s, i) <==> Matches(re, s, i, j)
    decreases re, |s| - i, 0, 0
  {
    match re
    case Eps =>
    case Chr(k) =>
    case Cat(a, b) =>
      EndsAreMatches(a, s, i);
      EndsAfterAreMatches(b, s, Ends(a, s, i), i);
    case Alt(a, b) =>
      EndsAreMatches(a, s, i);
      EndsAreMatches(b, s, i);
    case Opt(a) =>
      EndsAreMatches(a, s, i);
    case Star(a) =>
      EndsAreMatches(a, s, i);
      if i < |s| {
        EndsAfterAreMatches(re, s, Above(Ends(a, s, i), i), i + 1);
      }
    case Boundary =>
    case Ahead(a) =>
      EndsAreMatches(a, s, i);
      if Ends(a, s, i) != [] {
        assert Ends(a, s, i)[0] in Ends(a, s, i);
      }
  }

  lemma {:induction false} EndsAfterAreMatches(re: Re, s: string, starts: seq<nat>, lo: nat)
    requires lo <= |s| && forall j :: j in starts ==> lo <= j <= |s|
    ensures forall j :: j in EndsAfter(re, s, starts, lo) <==> exists m :: m in starts && Matches(re, s, m, j)
    decreases re, |s| - lo, 1, |starts|
  {
    if starts != [] {
      assert starts[0] in starts && forall j :: j in starts[1..] ==> j in starts;
      EndsAreMatches(re, s, starts[0]);
      EndsAfterAreMatches(re, s, starts[1..], lo);
      forall j
        ensures j in EndsAfter(re, s, starts, lo) <==> exists m :: m in starts && Matches(re, s, m, j)
      {
        assert forall m :: m in starts <==> m == starts[0] || m in starts[1..];
      }
    }
  }

  // --- searching and replacing ---

  /** Where the match at `i` ends, if there is one. */
  function MatchAt(re: Re, s: string, i: nat): (r: int)
    requires i <= |s|
    ensures r == -1 || i <= r <= |s|
  {
    var ends := Ends(re, s, i);
    if ends == [] then -1 else assert ends[0] in ends; ends[0]
  }

  lemma MatchAtIsMatch(re: Re, s: string, i: nat)
    requires i <= |s|
    ensures var j := MatchAt(re, s, i);
            if j == -1 then forall k :: !Matches(re, s, i, k) else Matches(re, s, i, j)
  {
    EndsAreMatches(re, s, i);
    var ends := Ends(re, s, i);
    assert ends != [] ==> ends[0] in ends;
    assert ends == [] ==> forall j :: j !in ends;
  }

  /** s.match(/re/g) from position `i` on: leftmost matches, not overlapping. */
  function MatchAll(re: Re, s: string, i: nat := 0): (r: seq<string>)
    requires i <= |s|
    decreases |s| - i
  {
    var j := MatchAt(re, s, i);
    if j > i then [s[i..j]] + MatchAll(re, s, j)
    else
      (if j == i then [""] else []) + (if i < |s| then MatchAll(re, s, i + 1) else [])
  }

  /** s.replace(/re/g, f) from position `i` on, for a pattern that never matches the empty string. */
  function ReplaceAll(re: Re, s: string, f: string -> string, i: nat := 0): (r: string)
    requires i <= |s|
    decreases |s| - i
  {
    if i == |s| then ""
    else
      var j := MatchAt(re, s, i);
      if j > i then f(s[i..j]) + ReplaceAll(re, s, f, j)
      else [s[i]] + ReplaceAll(re, s, f, i + 1)
  }

  ghost predicate Found(re: Re, s: string, from: nat := 0) {
    exists i: nat, j: nat :: from <= i && Matches(re, s, i, j)
  }

  /** A lower bound on the length of a match. */
  function MinLength(re: Re): nat {
    match re
    case Chr(k) => 1
    case Cat(a, b) => MinLength(a) + MinLength(b)
    case Alt(a, b) => if MinLength(a) < MinLength(b) then MinLength(a) else MinLength(b)
    case _ => 0
  }

  lemma {:induction false} MatchesAreLong(re: Re, s: string, i: int, j: int)
    requires Matches(re, s, i, j)
    ensures i + MinLength(re) <= j
    decreases re
  {
    match re
    case Cat(a, b) =>
      var m :| i <= m <= j && Matches(a, s, i, m) && Matches(b, s, m, j);
      MatchesAreLong(a, s, i, m);
      MatchesAreLong(b, s, m, j);
    case Alt(a, b) =>
      if Matches(a, s, i, j) { MatchesAreLong(a, s, i, j); } else { MatchesAreLong(b, s, i, j); }
    case _ =>
  }

  /** What a search returns: it is non-empty exactly if some substring matches. */
  lemma {:induction false} MatchAllFinds(re: Re, s: string, i: nat := 0)
    requires i <= |s| && MinLength(re) > 0
    ensures MatchAll(re, s, i) != [] <==> Found(re, s, i)
    decreases |s| - i
  {
    MatchAtIsMatch(re, s, i);
    var j := MatchAt(re, s, i);
    forall a: nat, b: nat | Matches(re, s, a, b)
      ensures a < b
    {
      MatchesAreLong(re, s, a, b);
    }
    if j <= i && i < |s| {
      MatchAllFinds(re, s, i + 1);
      if Found(re, s, i) {
        var a: nat, b: nat :| i <= a && Matches(re, s, a, b);
        assert a != i;
        assert Found(re, s, i + 1);
      }
    }
  }

  /** Every string a search returns is a substring that matches. */
  lemma {:induction false} MatchAllReturns(re: Re, s: string, i: nat := 0)
    requires i <= |s|
    ensures forall m :: m in MatchAll(re, s, i) ==> exists a: nat, b: nat :: Matches(re, s, a, b) && m == s[a..b]
    decreases |s| - i
  {
    MatchAtIsMatch(re, s, i);
    var j := MatchAt(re, s, i);
    if j > i {
      MatchAllReturns(re, s, j);
    } else if i < |s| {
      MatchAllReturns(re, s, i + 1);
    }
    if j == i {
      assert s[i..j] == "";
    }
  }

  // --- lower-casing ---

  function Lower(s: string): (r: string)
    ensures |r| == |s|
    ensures forall i :: 0 <= i < |s| ==> r[i] == LowerChar(s[i])
  {
    seq(|s|, i requires 0 <= i < |s| => LowerChar(s[i]))
  }

  predicate CaseBlind(re: Re) {
    match re
    case Chr(k) =>
      (match k
       case Lit(c) => !IsLetter(c)
       case DigitLike => false
       case _ => true)
    case Cat(a, b) => CaseBlind(a) && CaseBlind(b)
    case Alt(a, b) => CaseBlind(a) && CaseBlind(b)
    case Opt(a) => CaseBlind(a)
    case Star(a) => CaseBlind(a)
    case Ahead(a) => CaseBlind(a)
    case _ => true
  }

  /** A pattern that tells no upper-case letter from its lower-case one matches the same places. */
  lemma {:induction false} LowerKeepsMatches(re: Re, s: string, i: int, j: int)
    requires CaseBlind(re)
    ensures Matches(re, Lower(s), i, j) <==> Matches(re, s, i, j)
    decreases re, if i <= j then j - i else 0
  {
    var t := Lower(s);
    if 0 <= i <= j <= |s| {
      match re
      case Eps =>
      case Chr(k) =>
      case Cat(a, b) =>
        forall m | i <= m <= j
          ensures Matches(a, t, i, m) <==> Matches(a, s, i, m)
          ensures Matches(b, t, m, j) <==> Matches(b, s, m, j)
        {
          LowerKeepsMatches(a, s, i, m);
          LowerKeepsMatches(b, s, m, j);
        }
      case Alt(a, b) =>
        LowerKeepsMatches(a, s, i, j);
        LowerKeepsMatches(b, s, i, j);
      case Opt(a) =>
        LowerKeepsMatches(a, s, i, j);
      case Star(a) =>
        forall m | i < m <= j
          ensures Matches(a, t, i, m) <==> Matches(a, s, i, m)
          ensures Matches(re, t, m, j) <==> Matches(re, s, m, j)
        {
          LowerKeepsMatches(a, s, i, m);
          LowerKeepsMatches(re, s, m, j);
        }
      case Boundary =>
      case Ahead(a) =>
        forall m | i <= m <= |s|
          ensures Matches(a, t, i, m) <==> Matches(a, s, i, m)
        {
          LowerKeepsMatches(a, s, i, m);
        }
    }
  }

  // --- the shapes the filter's proofs need ---

  /** A fixed number of characters of one class. */
  lemma {:induction false} TimesMatches(k: Class, n: nat, s: string, i: int, j: int)
    ensures Matches(Times(Chr(k), n), s, i, j)
       <==> 0 <= i && j == i + n && j <= |s| && forall m :: i <= m < j ==> In(s[m], k)
    decreases n
  {
    if n > 0 {
      var rest := Times(Chr(k), n - 1);
      TimesMatches(k, n - 1, s, i + 1, j);
      assert Matches(Times(Chr(k), n), s, i, j) <==>
             0 <= i <= j <= |s| && i + 1 <= j && Matches(Chr(k), s, i, i + 1) && Matches(rest, s, i + 1, j);
    }
  }

  /** Any number of characters of one class. */
  lemma {:induction false} StarMatches(k: Class, s: string, i: int, j: int)
    ensures Matches(Star(Chr(k)), s, i, j)
       <==> 0 <= i <= j <= |s| && forall m :: i <= m < j ==> In(s[m], k)
    decreases if i <= j then j - i else 0
  {
    if 0 <= i < j <= |s| {
      StarMatches(k, s, i + 1, j);
      if In(s[i], k) && Matches(Star(Chr(k)), s, i + 1, j) {
        assert Matches(Chr(k), s, i, i + 1);
      }
    }
  }

  lemma PlusMatches(k: Class, s: string, i: int, j: int)
    ensures Matches(Plus(Chr(k)), s, i, j)
       <==> 0 <= i < j <= |s| && forall m :: i <= m < j ==> In(s[m], k)
  {
    StarMatches(k, s, i + 1, j);
    if 0 <= i < j <= |s| && In(s[i], k) {
      assert Matches(Chr(k), s, i, i + 1);
    }
  }
}
