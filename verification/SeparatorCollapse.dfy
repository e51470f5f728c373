/**
 Joining digit groups: `collapseDigitSeparators`, which repeats one global replacement
 until nothing changes, and what a phone number looks like before and after it.
 */
module SeparatorCollapse {
  import opened Regex

  /** (\d)[\s.-]+(?=\d) */
  const SEPARATED := Cat(Chr(Digit), Cat(Plus(Chr(Separator)), Ahead(Chr(Digit))))

  function KeepFirst(m: string): string { if m == "" then "" else m[..1] }

  /** One round of the replacement. */
  function Pass(s: string): string { ReplaceAll(SEPARATED, s, KeepFirst) }

  // --- one round, described directly ---

  function SeparatorsEnd(s: string, i: nat): (r: nat)
    requires i <= |s|
    ensures i <= r <= |s|
    ensures forall k :: i <= k < r ==> IsSeparator(s[k])
    ensures r < |s| ==> !IsSeparator(s[r])
    decreases |s| - i
  {
    if i < |s| && IsSeparator(s[i]) then SeparatorsEnd(s, i + 1) else i
  }

  /** A digit, then separators, then a digit. */
  predicate Joins(s: string, i: nat)
    requires i < |s|
  {
    IsDigit(s[i]) &&
    var k := SeparatorsEnd(s, i + 1);
    i + 1 < k < |s| && IsDigit(s[k])
  }

  function Squeeze(s: string, i: nat := 0): string
    requires i <= |s|
    decreases |s| - i
  {
    if i == |s| then ""
    else [s[i]] + Squeeze(s, if Joins(s, i) then SeparatorsEnd(s, i + 1) else i + 1)
  }

  lemma SeparatedMatches(s: string, i: nat, j: int)
    requires i < |s|
    ensures Matches(SEPARATED, s, i, j) <==> Joins(s, i) && j == SeparatorsEnd(s, i + 1)
  {
    var tail := Cat(Plus(Chr(Separator)), Ahead(Chr(Digit)));
    assert Matches(SEPARATED, s, i, j) <==> i < j <= |s| && IsDigit(s[i]) && Matches(tail, s, i + 1, j) by {
      if i < j <= |s| && IsDigit(s[i]) { assert Matches(Chr(Digit), s, i, i + 1); }
      PlusMatches(Separator, s, i + 1, j);
    }
    if 0 <= j <= |s| {
      PlusMatches(Separator, s, i + 1, j);
      assert Matches(Ahead(Chr(Digit)), s, j, j) <==> j < |s| && IsDigit(s[j]) by {
        if j < |s| && IsDigit(s[j]) { assert Matches(Chr(Digit), s, j, j + 1); }
      }
      assert Matches(tail, s, i + 1, j) <==>
             i + 1 <= j && Matches(Plus(Chr(Separator)), s, i + 1, j) && Matches(Ahead(Chr(Digit)), s, j, j);
    }
  }

  /** The global replacement does exactly what `Squeeze` says. */
  lemma {:induction false} PassIsSqueeze(s: string, i: nat := 0)
    requires i <= |s|
    ensures ReplaceAll(SEPARATED, s, KeepFirst, i) == Squeeze(s, i)
    decreases |s| - i
  {
    if i < |s| {
      MatchAtIsMatch(SEPARATED, s, i);
      var j := MatchAt(SEPARATED, s, i);
      var k := SeparatorsEnd(s, i + 1);
      SeparatedMatches(s, i, j);
      SeparatedMatches(s, i, k);
      SeparatedMatches(s, i, i);
      if Joins(s, i) {
        assert j == k;
        assert KeepFirst(s[i..j]) == [s[i]];
        PassIsSqueeze(s, k);
      } else {
        assert j <= i;
        PassIsSqueeze(s, i + 1);
      }
    }
  }

  // --- what one round leaves behind ---

  /** No separators stand between two digits. */
  ghost predicate Settled(t: string) {
    forall i, k :: 0 <= i && i + 1 < k < |t| && IsDigit(t[i]) && IsDigit(t[k]) ==>
      exists m :: i < m < k && !IsSeparator(t[m])
  }

  lemma {:induction false} SqueezeCopiesSeparators(s: string, i: nat)
    requires i <= |s|
    ensures var n := SeparatorsEnd(s, i); Squeeze(s, i) == s[i..n] + Squeeze(s, n)
    decreases |s| - i
  {
    if i < |s| && IsSeparator(s[i]) {
      SqueezeCopiesSeparators(s, i + 1);
      var n := SeparatorsEnd(s, i);
      assert !Joins(s, i);
      assert s[i..n] == [s[i]] + s[i + 1..n];
    }
  }

  /** Every digit after the first place has something other than separators before it. */
  ghost predicate DigitsBlocked(t: string) {
    forall k :: 0 < k < |t| && IsDigit(t[k]) ==> exists m :: 0 <= m < k && !IsSeparator(t[m])
  }

  lemma SettledCons(c: char, rest: string)
    requires Settled(rest) && (IsDigit(c) ==> DigitsBlocked(rest))
    ensures Settled([c] + rest)
  {
    var o := [c] + rest;
    forall a, k | 0 <= a && a + 1 < k < |o| && IsDigit(o[a]) && IsDigit(o[k])
      ensures exists m :: a < m < k && !IsSeparator(o[m])
    {
      assert IsDigit(rest[k - 1]);
      var m :| a - 1 < m < k - 1 && !IsSeparator(rest[m]);
      assert !IsSeparator(o[m + 1]);
    }
  }

  /** Unless separators lead from a digit at i-1 to another digit, the rest is blocked. */
  lemma SqueezeBlocks(s: string, i: nat)
    requires i <= |s|
    requires var n := SeparatorsEnd(s, i); i < n < |s| ==> !IsDigit(s[n])
    ensures DigitsBlocked(Squeeze(s, i))
  {
    var n, t := SeparatorsEnd(s, i), Squeeze(s, i);
    SqueezeCopiesSeparators(s, i);
    assert forall k :: 0 <= k < n - i ==> t[k] == s[i + k];
    if n < |s| {
      assert t[n - i] == s[n];
    }
  }

  lemma {:induction false} SqueezeSettles(s: string, i: nat := 0)
    requires i <= |s|
    ensures Settled(Squeeze(s, i))
    decreases |s| - i
  {
    if i < |s| {
      var next := if Joins(s, i) then SeparatorsEnd(s, i + 1) else i + 1;
      SqueezeSettles(s, next);
      if IsDigit(s[i]) {
        SqueezeBlocks(s, next);
      }
      SettledCons(s[i], Squeeze(s, next));
    }
  }

  lemma SettledHasNoJoin(t: string, i: nat)
    requires i < |t| && Settled(t)
    ensures !Joins(t, i)
  {
  }

  lemma {:induction false} SettledStays(t: string, i: nat := 0)
    requires i <= |t| && Settled(t)
    ensures Squeeze(t, i) == t[i..]
    decreases |t| - i
  {
    if i < |t| {
      SettledHasNoJoin(t, i);
      SettledStays(t, i + 1);
    }
  }

  /** One round reaches the fixpoint the loop looks for. */
  lemma OneRoundSuffices(s: string)
    ensures Pass(Pass(s)) == Pass(s) == Squeeze(s)
    ensures Settled(Pass(s))
  {
    PassIsSqueeze(s);
    SqueezeSettles(s);
    PassIsSqueeze(Squeeze(s));
    SettledStays(Squeeze(s));
  }

  function WithoutSeparators(s: string): string {
    if s == "" then ""
    else (if IsSeparator(s[0]) then "" else [s[0]]) + WithoutSeparators(s[1..])
  }

  lemma {:induction false} WithoutSeparatorsConcat(a: string, b: string)
    ensures WithoutSeparators(a + b) == WithoutSeparators(a) + WithoutSeparators(b)
  {
    if a == "" {
      assert a + b == b;
    } else {
      assert (a + b)[0] == a[0] && (a + b)[1..] == a[1..] + b;
      WithoutSeparatorsConcat(a[1..], b);
    }
  }

  lemma {:induction false} OnlySeparators(s: string)
    requires forall k :: 0 <= k < |s| ==> IsSeparator(s[k])
    ensures WithoutSeparators(s) == ""
  {
    if s != "" { OnlySeparators(s[1..]); }
  }

  /** Collapsing drops separators only: every other character stays, in order. */
  lemma {:induction false} SqueezeKeepsTheRest(s: string, i: nat := 0)
    requires i <= |s|
    ensures WithoutSeparators(Squeeze(s, i)) == WithoutSeparators(s[i..])
    decreases |s| - i
  {
    if i < |s| {
      var next := if Joins(s, i) then SeparatorsEnd(s, i + 1) else i + 1;
      SqueezeKeepsTheRest(s, next);
      WithoutSeparatorsConcat([s[i]], Squeeze(s, next));
      assert s[i..] == [s[i]] + s[i + 1..next] + s[next..];
      WithoutSeparatorsConcat([s[i]] + s[i + 1..next], s[next..]);
      WithoutSeparatorsConcat([s[i]], s[i + 1..next]);
      OnlySeparators(s[i + 1..next]);
    }
  }

  lemma {:induction false} SqueezeShrinks(s: string, i: nat := 0)
    requires i <= |s|
    ensures |Squeeze(s, i)| <= |s| - i
    ensures |Squeeze(s, i)| == |s| - i ==> Squeeze(s, i) == s[i..]
    decreases |s| - i
  {
    if i < |s| {
      SqueezeShrinks(s, if Joins(s, i) then SeparatorsEnd(s, i + 1) else i + 1);
    }
  }

  /** The source's do-while loop. */
  method CollapseDigitSeparators(content: string) returns (current: string)
    ensures current == Squeeze(content)
    ensures Settled(current) && Pass(current) == current
    ensures WithoutSeparators(current) == WithoutSeparators(content)
  {
    OneRoundSuffices(content);
    SqueezeKeepsTheRest(content);
    current := content;
    var previous := current;
    current := Pass(current);
    while current != previous
      invariant current == Pass(previous) == Pass(content)
      invariant previous == content || previous == Pass(content)
      decreases |previous|
    {
      SqueezeShrinks(previous);
      PassIsSqueeze(previous);
      assert previous[0..] == previous;
      previous := current;
      current := Pass(current);
    }
  }

  // --- phone numbers before and after collapsing ---

  /** Ten digits, or eleven of which the first is 1. */
  predicate PhoneDigits(d: string) {
    (|d| == 10 || (|d| == 11 && d[0] == '1')) && forall k :: 0 <= k < |d| ==> IsDigit(d[k])
  }

  /** The substring has no word character on either side. */
  predicate StandsAlone(s: string, i: int, j: int) {
    0 <= i <= j <= |s| && !WordAt(s, i - 1) && !WordAt(s, j)
  }

  /** \b1?\d{10}\b */
  const TEN_MORE := Cat(Times(Chr(Digit), 10), Boundary)
  const TEN_OR_ELEVEN := Cat(Opt(Chr(Lit('1'))), TEN_MORE)
  const CONTIGUOUS_PHONE := Cat(Boundary, TEN_OR_ELEVEN)

  predicate AllDigits(s: string, i: int, j: int) {
    0 <= i <= j <= |s| && forall k :: i <= k < j ==> IsDigit(s[k])
  }

  lemma TenMoreMatches(s: string, i: int, j: int)
    ensures Matches(TEN_MORE, s, i, j) <==> j == i + 10 && AllDigits(s, i, j) && AtBoundary(s, j)
  {
    hide Times;
    TimesMatches(Digit, 10, s, i, j);
    if 0 <= i <= j <= |s| {
      assert Matches(Boundary, s, j, j) <==> AtBoundary(s, j);
      assert Matches(TEN_MORE, s, i, j) <==> Matches(Times(Chr(Digit), 10), s, i, j) && Matches(Boundary, s, j, j);
    }
  }

  lemma TenOrElevenMatches(s: string, i: int, j: int)
    ensures Matches(TEN_OR_ELEVEN, s, i, j)
       <==> (j == i + 10 || (j == i + 11 && 0 <= i < |s| && s[i] == '1')) && AllDigits(s, i, j) && AtBoundary(s, j)
  {
    TenMoreMatches(s, i, j);
    TenMoreMatches(s, i + 1, j);
    hide TEN_MORE;
    if 0 <= i <= j <= |s| {
      var one := Opt(Chr(Lit('1')));
      assert forall m :: Matches(one, s, i, m) <==> m == i || (m == i + 1 && i < |s| && s[i] == '1');
      assert Matches(TEN_OR_ELEVEN, s, i, j) <==>
             Matches(TEN_MORE, s, i, j) || (i < j && s[i] == '1' && Matches(TEN_MORE, s, i + 1, j)) by {
        assert Matches(one, s, i, i) && (i < j && s[i] == '1' ==> Matches(one, s, i, i + 1));
      }
    }
  }

  lemma ContiguousPhoneMatches(s: string, i: int, j: int)
    ensures Matches(CONTIGUOUS_PHONE, s, i, j) <==> StandsAlone(s, i, j) && PhoneDigits(s[i..j])
  {
    TenOrElevenMatches(s, i, j);
    if 0 <= i <= j <= |s| {
      assert Matches(CONTIGUOUS_PHONE, s, i, j) <==> AtBoundary(s, i) && Matches(TEN_OR_ELEVEN, s, i, j) by {
        hide TEN_OR_ELEVEN;
        assert Matches(Boundary, s, i, i) <==> AtBoundary(s, i);
      }
      hide CONTIGUOUS_PHONE, TEN_OR_ELEVEN, Matches;
      assert AllDigits(s, i, j) <==> forall k :: 0 <= k < j - i ==> IsDigit(s[i..j][k]) by {
        assert forall k :: i <= k < j ==> s[k] == s[i..j][k - i];
      }
      assert i < j ==> s[i..j][0] == s[i];
      assert i < j && AllDigits(s, i, j) ==> WordAt(s, i) && WordAt(s, j - 1);
    }
  }

  /** A number stands in `t`, read after a word character iff `afterWord`. */
  ghost predicate Scan(t: string, afterWord: bool) {
    exists i: nat, j: nat :: NumberAt(t, afterWord, i, j)
  }

  ghost predicate NumberAt(t: string, afterWord: bool, i: nat, j: nat) {
    i <= j <= |t| && (if i == 0 then !afterWord else !IsWord(t[i - 1])) && !WordAt(t, j) && PhoneDigits(t[i..j])
  }

  lemma ScanIsFound(t: string)
    ensures Scan(t, false) <==> Found(CONTIGUOUS_PHONE, t)
  {
    if Scan(t, false) {
      var i: nat, j: nat :| NumberAt(t, false, i, j);
      ContiguousPhoneMatches(t, i, j);
      assert Found(CONTIGUOUS_PHONE, t);
    }
    if Found(CONTIGUOUS_PHONE, t) {
      var i: nat, j: nat :| Matches(CONTIGUOUS_PHONE, t, i, j);
      ContiguousPhoneMatches(t, i, j);
      assert NumberAt(t, false, i, j);
    }
  }

  lemma ScanStep(c: char, u: string, afterWord: bool)
    ensures Scan([c] + u, afterWord) <==> (exists j: nat :: NumberAt([c] + u, afterWord, 0, j)) || Scan(u, IsWord(c))
  {
    var t := [c] + u;
    if Scan(t, afterWord) {
      var i: nat, j: nat :| NumberAt(t, afterWord, i, j);
      if i > 0 {
        assert u[i - 1..j - 1] == t[i..j];
        assert NumberAt(u, IsWord(c), i - 1, j - 1);
      }
    }
    if Scan(u, IsWord(c)) {
      var i: nat, j: nat :| NumberAt(u, IsWord(c), i, j);
      assert t[i + 1..j + 1] == u[i..j];
      assert NumberAt(t, afterWord, i + 1, j + 1);
    }
  }

  lemma NoNumberOpens(t: string, afterWord: bool)
    requires t != "" && !IsDigit(t[0])
    ensures forall j: nat :: !NumberAt(t, afterWord, 0, j)
  {
    forall j: nat
      ensures !NumberAt(t, afterWord, 0, j)
    {
      assert 0 < j <= |t| ==> t[0..j][0] == t[0];
    }
  }

  /** After a word character, the rest of a word holds no number. */
  lemma {:induction false} ScanSkipsWord(d: string, u: string)
    requires forall k :: 0 <= k < |d| ==> IsWord(d[k])
    ensures Scan(d + u, true) <==> Scan(u, true)
  {
    if d == "" {
      assert d + u == u;
    } else {
      assert d + u == [d[0]] + (d[1..] + u);
      ScanStep(d[0], d[1..] + u, true);
      ScanSkipsWord(d[1..], u);
    }
  }

  /** A maximal run of digits is read as a whole. */
  lemma ScanDigits(d: string, u: string, afterWord: bool)
    requires d != "" && (forall k :: 0 <= k < |d| ==> IsDigit(d[k])) && (u != "" ==> !IsDigit(u[0]))
    ensures Scan(d + u, afterWord) <==> (!afterWord && PhoneDigits(d) && !WordAt(u, 0)) || Scan(u, true)
  {
    var t := d + u;
    assert t == [d[0]] + (d[1..] + u);
    ScanStep(d[0], d[1..] + u, afterWord);
    ScanSkipsWord(d[1..], u);
    assert t[..|d|] == d;
    assert forall j: nat :: |d| < j <= |t| ==> t[0..j][|d|] == u[0];
    assert forall j: nat :: j < |d| ==> WordAt(t, j);
    forall j: nat | NumberAt(t, afterWord, 0, j)
      ensures j == |d|
    {
    }
    assert NumberAt(t, afterWord, 0, |d|) <==> !afterWord && PhoneDigits(d) && !WordAt(u, 0);
  }

  // --- the runs of digits and separators in the text before collapsing ---

  function DigitsOf(s: string): string {
    if s == "" then "" else (if IsDigit(s[0]) then [s[0]] else "") + DigitsOf(s[1..])
  }

  predicate InRun(c: char) { IsDigit(c) || IsSeparator(c) }

  /** No digit before `a` is connected to it by digits and separators alone. */
  ghost predicate OpensRun(s: string, a: nat)
    requires a <= |s|
  {
    forall k :: 0 <= k < a && IsDigit(s[k]) ==> exists m :: k < m < a && !InRun(s[m])
  }

  ghost predicate ClosesRun(s: string, b: nat)
    requires b <= |s|
  {
    forall k :: b <= k < |s| && IsDigit(s[k]) ==> exists m :: b <= m < k && !InRun(s[m])
  }

  /** A maximal run of digits with nothing but separators between them. */
  ghost predicate DigitRun(s: string, a: nat, b: nat) {
    && a < b <= |s| && IsDigit(s[a]) && IsDigit(s[b - 1])
    && (forall k :: a <= k < b ==> InRun(s[k]))
    && OpensRun(s, a) && ClosesRun(s, b)
  }

  /** A phone number, however its digits are spaced. */
  ghost predicate SpacedPhone(s: string, a: nat, b: nat) {
    DigitRun(s, a, b) && StandsAlone(s, a, b) && PhoneDigits(DigitsOf(s[a..b]))
  }

  function RunEnd(s: string, i: nat): (r: nat)
    requires i < |s| && IsDigit(s[i])
    ensures i < r <= |s| && IsDigit(s[r - 1])
    decreases |s| - i
  {
    var k := SeparatorsEnd(s, i + 1);
    if k < |s| && IsDigit(s[k]) then RunEnd(s, k) else i + 1
  }

  lemma {:induction false} RunEndCloses(s: string, i: nat)
    requires i < |s| && IsDigit(s[i])
    ensures var e := RunEnd(s, i);
            ClosesRun(s, e) && (forall k :: i <= k < e ==> InRun(s[k])) && (e < |s| ==> !IsDigit(s[e]))
    decreases |s| - i
  {
    var k := SeparatorsEnd(s, i + 1);
    if k < |s| && IsDigit(s[k]) {
      RunEndCloses(s, k);
    } else {
      forall d | i + 1 <= d < |s| && IsDigit(s[d])
        ensures exists m :: i + 1 <= m < d && !InRun(s[m])
      {
        assert !InRun(s[k]);
      }
    }
  }

  lemma {:induction false} DigitsOfConcat(a: string, b: string)
    ensures DigitsOf(a + b) == DigitsOf(a) + DigitsOf(b)
  {
    if a == "" {
      assert a + b == b;
    } else {
      var head := if IsDigit(a[0]) then [a[0]] else "";
      DigitsOfConcat(a[1..], b);
      assert (a + b)[1..] == a[1..] + b;
      assert DigitsOf(a + b) == head + (DigitsOf(a[1..]) + DigitsOf(b));
    }
  }

  lemma {:induction false} DigitsOfSeparators(s: string)
    requires forall k :: 0 <= k < |s| ==> IsSeparator(s[k])
    ensures DigitsOf(s) == ""
  {
    if s != "" { DigitsOfSeparators(s[1..]); }
  }

  lemma {:induction false} DigitsOfDigits(s: string)
    ensures forall k :: 0 <= k < |DigitsOf(s)| ==> IsDigit(DigitsOf(s)[k])
  {
    if s != "" { DigitsOfDigits(s[1..]); }
  }

  lemma DigitsOfOne(s: string, i: nat)
    requires i < |s| && IsDigit(s[i])
    ensures DigitsOf(s[i..i + 1]) == [s[i]]
  {
    assert s[i..i + 1] == [s[i]];
    assert DigitsOf([s[i]][1..]) == "";
  }

  lemma DigitsOfGroup(s: string, i: nat, k: nat, e: nat)
    requires i < k <= e <= |s| && IsDigit(s[i]) && forall m :: i < m < k ==> IsSeparator(s[m])
    ensures DigitsOf(s[i..e]) == [s[i]] + DigitsOf(s[k..e])
  {
    var gap := s[i + 1..k];
    assert s[i..e] == [s[i]] + (gap + s[k..e]);
    DigitsOfConcat([s[i]], gap + s[k..e]);
    DigitsOfConcat(gap, s[k..e]);
    DigitsOfSeparators(gap);
    DigitsOfOne(s, i);
    assert s[i..i + 1] == [s[i]];
  }

  lemma RunStep(s: string, i: nat)
    requires i < |s| && IsDigit(s[i])
    ensures var k := SeparatorsEnd(s, i + 1);
            if k < |s| && IsDigit(s[k])
            then Squeeze(s, i) == [s[i]] + Squeeze(s, k) && RunEnd(s, i) == RunEnd(s, k)
            else Squeeze(s, i) == [s[i]] + Squeeze(s, i + 1) && RunEnd(s, i) == i + 1
  {
  }

  /** Collapsing turns a run into its digits. */
  lemma {:induction false} SqueezeRun(s: string, i: nat)
    requires i < |s| && IsDigit(s[i])
    ensures Squeeze(s, i) == DigitsOf(s[i..RunEnd(s, i)]) + Squeeze(s, RunEnd(s, i))
    ensures DigitsOf(s[i..RunEnd(s, i)]) != ""
    decreases |s| - i
  {
    hide DigitsOf, Squeeze, RunEnd, SeparatorsEnd, IsSeparator;
    RunStep(s, i);
    var k, e := SeparatorsEnd(s, i + 1), RunEnd(s, i);
    if k < |s| && IsDigit(s[k]) {
      SqueezeRun(s, k);
      DigitsOfGroup(s, i, k, e);
      assert Squeeze(s, i) == [s[i]] + (DigitsOf(s[k..e]) + Squeeze(s, e));
    } else {
      DigitsOfOne(s, i);
    }
  }

  ghost predicate PhoneFrom(s: string, i: nat) {
    exists a: nat, b: nat :: i <= a && SpacedPhone(s, a, b)
  }

  /** The next digit, if only separators precede it, opens a run. */
  ghost predicate Between(s: string, i: nat)
    requires i <= |s|
  {
    var n := SeparatorsEnd(s, i);
    n < |s| && IsDigit(s[n]) ==> OpensRun(s, n)
  }

  lemma RunEndIsTheEnd(s: string, a: nat, b: nat)
    requires DigitRun(s, a, b)
    ensures b == RunEnd(s, a)
  {
    RunEndCloses(s, a);
    var e := RunEnd(s, a);
    assert forall m :: a <= m < e ==> InRun(s[m]);
    assert forall m :: a <= m < b ==> InRun(s[m]);
    assert !(e < b);
  }

  lemma NoRunInside(s: string, i: nat, a: nat)
    requires i < |s| && IsDigit(s[i])
    requires a < |s| && IsDigit(s[a]) && OpensRun(s, a) && i <= a
    ensures a == i || RunEnd(s, i) <= a
  {
    RunEndCloses(s, i);
  }

  lemma PhoneFromRun(s: string, i: nat)
    requires i < |s| && IsDigit(s[i]) && Between(s, i)
    ensures var e := RunEnd(s, i);
            PhoneFrom(s, i) <==> (StandsAlone(s, i, e) && PhoneDigits(DigitsOf(s[i..e]))) || PhoneFrom(s, e)
  {
    RunEndCloses(s, i);
    hide DigitsOf, PhoneDigits, RunEnd, StandsAlone, InRun;
    var e := RunEnd(s, i);
    assert SeparatorsEnd(s, i) == i;
    assert DigitRun(s, i, e);
    forall a: nat, b: nat | i <= a && SpacedPhone(s, a, b)
      ensures e <= a || (a == i && b == e)
    {
      NoRunInside(s, i, a);
      RunEndIsTheEnd(s, a, b);
    }
    assert SpacedPhone(s, i, e) <==> StandsAlone(s, i, e) && PhoneDigits(DigitsOf(s[i..e]));
    hide DigitRun, SpacedPhone, OpensRun, ClosesRun;
    assert forall a: nat, b: nat :: e <= a && SpacedPhone(s, a, b) ==> PhoneFrom(s, i);
  }

  lemma PhoneFromOther(s: string, i: nat)
    requires i < |s| && !IsDigit(s[i])
    ensures PhoneFrom(s, i) <==> PhoneFrom(s, i + 1)
  {
    if PhoneFrom(s, i) {
      var a: nat, b: nat :| i <= a && SpacedPhone(s, a, b);
      assert i + 1 <= a;
    }
    if PhoneFrom(s, i + 1) {
      var a: nat, b: nat :| i + 1 <= a && SpacedPhone(s, a, b);
    }
  }

  lemma BetweenRuns(s: string, i: nat)
    requires i < |s| && IsDigit(s[i])
    ensures Between(s, RunEnd(s, i))
  {
    RunEndCloses(s, i);
  }

  lemma BetweenSteps(s: string, i: nat)
    requires i < |s| && !IsDigit(s[i]) && Between(s, i)
    ensures Between(s, i + 1)
  {
    if !IsSeparator(s[i]) {
      assert !InRun(s[i]);
    }
  }

  lemma ScanRun(s: string, i: nat)
    requires i < |s| && IsDigit(s[i])
    ensures Scan(Squeeze(s, i), WordAt(s, i - 1))
       <==> || (StandsAlone(s, i, RunEnd(s, i)) && PhoneDigits(DigitsOf(s[i..RunEnd(s, i)])))
            || Scan(Squeeze(s, RunEnd(s, i)), true)
  {
    var e := RunEnd(s, i);
    RunEndCloses(s, i);
    SqueezeRun(s, i);
    DigitsOfDigits(s[i..e]);
    if e < |s| { assert Squeeze(s, e)[0] == s[e]; }
    ScanDigits(DigitsOf(s[i..e]), Squeeze(s, e), WordAt(s, i - 1));
  }

  lemma {:induction false} ScanSqueezed(s: string, i: nat)
    requires i <= |s| && Between(s, i)
    ensures Scan(Squeeze(s, i), WordAt(s, i - 1)) <==> PhoneFrom(s, i)
    decreases |s| - i
  {
    if i == |s| {
      assert Squeeze(s, i) == "";
    } else if IsDigit(s[i]) {
      BetweenRuns(s, i);
      ScanSqueezed(s, RunEnd(s, i));
      ScanRun(s, i);
      PhoneFromRun(s, i);
    } else {
      BetweenSteps(s, i);
      ScanSqueezed(s, i + 1);
      PhoneFromOther(s, i);
      ScanStep(s[i], Squeeze(s, i + 1), WordAt(s, i - 1));
      NoNumberOpens(Squeeze(s, i), WordAt(s, i - 1));
    }
  }

  /**
   A contiguous number is found after collapsing exactly if the text had a phone
   number before, whatever separators stood between its digits.
   */
  lemma CollapseFindsSpacedPhones(s: string)
    ensures Found(CONTIGUOUS_PHONE, Squeeze(s)) <==> exists a: nat, b: nat :: SpacedPhone(s, a, b)
  {
    ScanSqueezed(s, 0);
    ScanIsFound(Squeeze(s));
    assert PhoneFrom(s, 0) <==> exists a: nat, b: nat :: SpacedPhone(s, a, b);
  }
}
