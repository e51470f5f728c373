/**
 The rule-based contact-information detector every message passes through, on ASCII text.

 Patterns are regular expressions of module Regex, rewrites are their global replacements.
 `DetectContactInfo` builds its list of reports step by step, with the source's skip guards
 and already-found filters; `BlockedIsPlain` shows that those never change the verdict.
 */
module ContactInfoDetector {
  import opened Regex
  import opened SeparatorCollapse

  datatype ViolationType = PhoneNumber | Email | Url | SocialMedia | PaymentHandle | OffPlatformRequest

  datatype DetectionMethod = Pattern | Normalization | Keyword | HistoryAnalysis | AiFallback

  /** Confidence is in percent. */
  datatype Report = Report(violation: ViolationType, via: DetectionMethod, confidence: nat, snippet: string)

  predicate Ascii(s: string) { forall i :: 0 <= i < |s| ==> s[i] < 128 as char }

  // --- patterns ---

  const DIGIT := Chr(Digit)
  const SEPARATOR := Chr(Separator)

  /** (?:\+?1[-.\s]?)?\(?\d{3}\)?[-.\s]\d{3}[-.\s]\d{4}\b */
  const COUNTRY_CODE := Opt(Cat(Opt(Chr(Lit('+'))), Cat(Chr(Lit('1')), Opt(SEPARATOR))))
  const LAST_FOUR := Cat(SEPARATOR, Cat(Times(DIGIT, 4), Boundary))
  const LAST_SEVEN := Cat(Times(DIGIT, 3), LAST_FOUR)
  const AREA_CODE := Cat(Opt(Chr(Lit('('))), Cat(Times(DIGIT, 3), Opt(Chr(Lit(')')))))
  const PHONE := Cat(COUNTRY_CODE, Cat(AREA_CODE, Cat(SEPARATOR, LAST_SEVEN)))

  /** \b[\w.+-]+@[\w-]+\.[a-zA-Z]{2,}\b */
  const TOP_LEVEL := Cat(Chr(Letter), Cat(Chr(Letter), Star(Chr(Letter))))
  const HOST := Cat(Plus(Chr(HostChar)), Cat(Chr(Lit('.')), Cat(TOP_LEVEL, Boundary)))
  const EMAIL := Cat(Boundary, Cat(Plus(Chr(EmailLocal)), Cat(Chr(Lit('@')), HOST)))

  /** \b((https?:\/\/)|(www\.))\S+\b|\b[\w-]+\.(com|net|org|io|co)\b, ignoring case */
  const SCHEME := Cat(Text("http", true), Cat(Opt(Chr(LitI('s'))), Text("://", true)))
  const LINK := Cat(Boundary, Cat(Alt(SCHEME, Text("www.", true)), Cat(Plus(Chr(NonSpace)), Boundary)))
  const DOMAIN :=
    Cat(Boundary, Cat(Plus(Chr(HostChar)), Cat(Chr(Lit('.')), Cat(OneOf(["com", "net", "org", "io", "co"], true), Boundary))))
  const URL := Alt(LINK, DOMAIN)

  const SOCIAL_MEDIA_KEYWORDS := [
    "instagram", "facebook", "snapchat", "tiktok", "whatsapp", "telegram", "discord", "signal", "twitter",
    "ig handle", "my handle"]

  const PAYMENT_KEYWORDS := ["cashapp", "cash app", "venmo", "paypal", "zelle"]

  const OFF_PLATFORM_PHRASES := [
    "call me", "text me", "email me", "reach me at", "contact me at", "contact me outside", "off the app",
    "off platform", "find me on", "message me on the app with", "my number is", "my email is"]

  // --- rewrites ---

  const NUMBER_WORDS := ["zero", "oh", "one", "two", "three", "four", "five", "six", "seven", "eight", "nine"]

  function WordDigit(word: string): string {
    match word
    case "zero" => "0"
    case "oh" => "0"
    case "one" => "1"
    case "two" => "2"
    case "three" => "3"
    case "four" => "4"
    case "five" => "5"
    case "six" => "6"
    case "seven" => "7"
    case "eight" => "8"
    case _ => "9"
  }

  function WholeWord(re: Re): Re { Cat(Boundary, Cat(re, Boundary)) }

  function WordsToDigits(content: string): string {
    ReplaceAll(WholeWord(OneOf(NUMBER_WORDS)), Lower(content), WordDigit)
  }

  /** [\dOolI]{2,4} */
  const LOOKALIKE_TOKEN := Cat(Chr(DigitLike), Cat(Chr(DigitLike), Opt(Cat(Chr(DigitLike), Opt(Chr(DigitLike))))))

  function FixLookalike(c: char): char {
    if c == 'O' || c == 'o' then '0' else if c == 'I' || c == 'l' then '1' else c
  }

  function FixToken(token: string): string {
    if exists k :: 0 <= k < |token| && IsDigit(token[k])
    then seq(|token|, k requires 0 <= k < |token| => FixLookalike(token[k]))
    else token
  }

  function SubstituteLookalikes(content: string): string {
    ReplaceAll(WholeWord(LOOKALIKE_TOKEN), content, FixToken)
  }

  /** \s*c\s* */
  function Padded(c: char): Re { Cat(Star(Chr(Space)), Cat(Chr(Lit(c)), Star(Chr(Space)))) }

  function Always(t: string): string -> string { _ => t }

  function NormalizeAtDot(content: string): string {
    var at := ReplaceAll(WholeWord(Text("at")), Lower(content), Always("@"));
    var dot := ReplaceAll(WholeWord(Text("dot")), at, Always("."));
    var tightAt := ReplaceAll(Padded('@'), dot, Always("@"));
    var tightDot := ReplaceAll(Padded('.'), tightAt, Always("."));
    ReplaceAll(Plus(Chr(BlankOnly)), tightDot, Always(" "))
  }

  /** The text whose digit groups `Squeeze` then joins. */
  function Undisguised(content: string): string { SubstituteLookalikes(WordsToDigits(content)) }

  function FullyNormalized(content: string): string { Squeeze(Undisguised(content)) }

  /** content.toLowerCase().replace(/\s+/g, ' ') */
  function Plainly(content: string): string {
    ReplaceAll(Plus(Chr(Space)), Lower(content), Always(" "))
  }

  predicate Includes(s: string, keyword: string) {
    keyword <= s || (s != "" && Includes(s[1..], keyword))
  }

  // --- reports ---

  /** Reports on those of `found` that are not filtered out, in order. */
  function Collect(found: seq<string>, keep: string -> bool, report: string -> Report): seq<Report> {
    if found == [] then []
    else
      var init, last := found[..|found| - 1], found[|found| - 1];
      Collect(init, keep, report) + (if keep(last) then [report(last)] else [])
  }

  lemma {:induction false} CollectsSome(found: seq<string>, keep: string -> bool, report: string -> Report)
    ensures Collect(found, keep, report) != [] <==> exists m :: m in found && keep(m)
  {
    if found != [] {
      var init, last := found[..|found| - 1], found[|found| - 1];
      CollectsSome(init, keep, report);
      assert forall m :: m in found <==> m in init || m == last;
    }
  }

  function Every(): string -> bool { _ => true }

  /** Matches whose digits no match in `seen` has. */
  function NewDigits(seen: seq<string>): string -> bool {
    m => forall p :: p in seen ==> DigitsOf(p) != DigitsOf(m)
  }

  function NewEmails(seen: seq<string>): string -> bool {
    m => forall p :: p in seen ==> Lower(p) != m
  }

  function Occurs(lower: string): string -> bool {
    keyword => Includes(lower, keyword)
  }

  function Reporter(violation: ViolationType, via: DetectionMethod, confidence: nat): string -> Report {
    m => Report(violation, via, confidence, m)
  }

  /** A report with nothing literal to redact. */
  function Withheld(violation: ViolationType, via: DetectionMethod, confidence: nat): string -> Report {
    _ => Report(violation, via, confidence, "")
  }

  function PhoneReports(content: string): seq<Report> {
    var grouped, bare := MatchAll(PHONE, content), MatchAll(CONTIGUOUS_PHONE, content);
    Collect(grouped, Every(), Reporter(PhoneNumber, Pattern, 95))
    + Collect(bare, NewDigits(grouped), Reporter(PhoneNumber, Pattern, 90))
  }

  function EmailReports(content: string): seq<Report> {
    Collect(MatchAll(EMAIL, content), Every(), Reporter(Email, Pattern, 95))
  }

  function UrlReports(content: string): seq<Report> {
    Collect(MatchAll(URL, content), Every(), Reporter(Url, Pattern, 90))
  }

  function WordedEmailReports(content: string): seq<Report> {
    var normalized := NormalizeAtDot(content);
    if normalized == Lower(content) then []
    else
      var emails := MatchAll(EMAIL, content);
      Collect(MatchAll(EMAIL, normalized), NewEmails(emails), Reporter(Email, Normalization, 85))
  }

  function DisguisedPhoneReports(content: string): seq<Report> {
    var normalized := FullyNormalized(content);
    if normalized == Plainly(content) then []
    else
      var seen := MatchAll(PHONE, content) + MatchAll(CONTIGUOUS_PHONE, content);
      Collect(MatchAll(PHONE, normalized) + MatchAll(CONTIGUOUS_PHONE, normalized),
              NewDigits(seen), Withheld(PhoneNumber, Normalization, 75))
  }

  function KeywordReports(content: string, keywords: seq<string>, violation: ViolationType, confidence: nat): seq<Report> {
    Collect(keywords, Occurs(Lower(content)), Reporter(violation, Keyword, confidence))
  }

  function Reports(content: string): seq<Report> {
    PhoneReports(content) + EmailReports(content) + UrlReports(content)
    + WordedEmailReports(content) + DisguisedPhoneReports(content)
    + KeywordReports(content, SOCIAL_MEDIA_KEYWORDS, SocialMedia, 70)
    + KeywordReports(content, PAYMENT_KEYWORDS, PaymentHandle, 75)
    + KeywordReports(content, OFF_PLATFORM_PHRASES, OffPlatformRequest, 60)
  }

  predicate Blocked(content: string) { Reports(content) != [] }

  // --- the source's step-by-step detector ---

  method FindKeywordMatches(content: string, keywords: seq<string>, violation: ViolationType, confidence: nat)
    returns (matches: seq<Report>)
    ensures matches == KeywordReports(content, keywords, violation, confidence)
  {
    var lower := Lower(content);
    matches := [];
    for i := 0 to |keywords|
      invariant matches == KeywordReports(content, keywords[..i], violation, confidence)
    {
      assert keywords[..i + 1][..i] == keywords[..i];
      if Includes(lower, keywords[i]) {
        matches := matches + [Report(violation, Keyword, confidence, keywords[i])];
      }
    }
    assert keywords[..|keywords|] == keywords;
  }

  /** Appends a report on every match that passes the filter. */
  method Push(matches: seq<Report>, found: seq<string>, keep: string -> bool, report: string -> Report)
    returns (r: seq<Report>)
    ensures r == matches + Collect(found, keep, report)
  {
    r := matches;
    for i := 0 to |found|
      invariant r == matches + Collect(found[..i], keep, report)
    {
      assert found[..i + 1][..i] == found[..i];
      if keep(found[i]) {
        r := r + [report(found[i])];
      }
    }
    assert found[..|found|] == found;
  }

  /** Layer 1: the message as typed. */
  method SearchAsTyped(content: string)
    returns (matches: seq<Report>, phones: seq<string>, bare: seq<string>, emails: seq<string>)
    ensures phones == MatchAll(PHONE, content) && bare == MatchAll(CONTIGUOUS_PHONE, content)
    ensures emails == MatchAll(EMAIL, content)
    ensures matches == PhoneReports(content) + EmailReports(content) + UrlReports(content)
  {
    hide MatchAll, Collect, NewDigits, Every, Reporter;
    phones := MatchAll(PHONE, content);
    matches := Push([], phones, Every(), Reporter(PhoneNumber, Pattern, 95));
    bare := MatchAll(CONTIGUOUS_PHONE, content);
    matches := Push(matches, bare, NewDigits(phones), Reporter(PhoneNumber, Pattern, 90));
    emails := MatchAll(EMAIL, content);
    matches := Push(matches, emails, Every(), Reporter(Email, Pattern, 95));
    var urls := MatchAll(URL, content);
    matches := Push(matches, urls, Every(), Reporter(Url, Pattern, 90));
  }

  /** Layers 2 and 3: "at"/"dot" wording, then spelled-out and look-alike digits. */
  method SearchNormalized(content: string, matches: seq<Report>, phones: seq<string>, bare: seq<string>, emails: seq<string>)
    returns (r: seq<Report>)
    requires phones == MatchAll(PHONE, content) && bare == MatchAll(CONTIGUOUS_PHONE, content)
    requires emails == MatchAll(EMAIL, content)
    ensures r == matches + WordedEmailReports(content) + DisguisedPhoneReports(content)
  {
    hide MatchAll, Collect, NewDigits, NewEmails, Reporter, Withheld, NormalizeAtDot, Plainly, SubstituteLookalikes, WordsToDigits, Squeeze;
    r := matches;
    var atDotNormalized := NormalizeAtDot(content);
    if atDotNormalized != Lower(content) {
      r := Push(r, MatchAll(EMAIL, atDotNormalized), NewEmails(emails), Reporter(Email, Normalization, 85));
    }
    var fullyNormalized := CollapseDigitSeparators(SubstituteLookalikes(WordsToDigits(content)));
    if fullyNormalized != Plainly(content) {
      var normalizedPhones := MatchAll(PHONE, fullyNormalized) + MatchAll(CONTIGUOUS_PHONE, fullyNormalized);
      r := Push(r, normalizedPhones, NewDigits(phones + bare), Withheld(PhoneNumber, Normalization, 75));
    }
  }

  method DetectContactInfo(content: string) returns (blocked: bool, matches: seq<Report>)
    requires Ascii(content)
    ensures matches == Reports(content)
    ensures blocked <==> PlainlyBlocked(content)
  {
    var phones, bare, emails;
    matches, phones, bare, emails := SearchAsTyped(content);
    matches := SearchNormalized(content, matches, phones, bare, emails);
    var social := FindKeywordMatches(content, SOCIAL_MEDIA_KEYWORDS, SocialMedia, 70);
    matches := matches + social;
    var payment := FindKeywordMatches(content, PAYMENT_KEYWORDS, PaymentHandle, 75);
    matches := matches + payment;
    var offPlatform := FindKeywordMatches(content, OFF_PLATFORM_PHRASES, OffPlatformRequest, 60);
    matches := matches + offPlatform;
    blocked := |matches| > 0;
    BlockedIsPlain(content);
  }

  // --- the verdict ---

  ghost predicate PlainPhone(content: string) {
    || Found(PHONE, content) || Found(CONTIGUOUS_PHONE, content)
    || Found(PHONE, FullyNormalized(content)) || Found(CONTIGUOUS_PHONE, FullyNormalized(content))
  }

  ghost predicate PlainEmail(content: string) {
    Found(EMAIL, content) || Found(EMAIL, NormalizeAtDot(content))
  }

  ghost predicate PlainKeyword(content: string, keywords: seq<string>) {
    exists k :: k in keywords && Includes(Lower(content), k)
  }

  /** Every pattern and keyword list, each applied without guard or filter. */
  ghost predicate PlainlyBlocked(content: string) {
    || PlainPhone(content) || PlainEmail(content) || Found(URL, content)
    || PlainKeyword(content, SOCIAL_MEDIA_KEYWORDS)
    || PlainKeyword(content, PAYMENT_KEYWORDS)
    || PlainKeyword(content, OFF_PLATFORM_PHRASES)
  }

  lemma LongPhones()
    ensures MinLength(PHONE) > 0 && MinLength(CONTIGUOUS_PHONE) > 0
  {
    assert MinLength(Cat(SEPARATOR, LAST_SEVEN)) > 0;
    assert MinLength(Times(DIGIT, 10)) > 0;
  }

  lemma LongEmail()
    ensures MinLength(EMAIL) > 0
  {
    assert MinLength(Plus(Chr(EmailLocal))) > 0;
  }

  lemma LongUrl()
    ensures MinLength(URL) > 0
  {
    var http, www := Text("http", true), Text("www.", true);
    assert MinLength(http) > 0 by { assert http == Cat(Chr(LitI('h')), Text("ttp", true)); }
    assert MinLength(www) > 0 by { assert www == Cat(Chr(LitI('w')), Text("ww.", true)); }
    assert MinLength(SCHEME) > 0;
    assert MinLength(LINK) > 0;
    assert MinLength(Plus(Chr(HostChar))) > 0;
    assert MinLength(DOMAIN) > 0;
  }

  lemma {:induction false} TimesCaseBlind(re: Re, n: nat)
    requires CaseBlind(re)
    ensures CaseBlind(Times(re, n))
  {
    if n > 0 { TimesCaseBlind(re, n - 1); }
  }

  /** Lower-casing hides no e-mail address and no bare number, and creates none. */
  lemma LowerKeepsFinds(content: string)
    ensures Found(EMAIL, Lower(content)) <==> Found(EMAIL, content)
    ensures Found(CONTIGUOUS_PHONE, Lower(content)) <==> Found(CONTIGUOUS_PHONE, content)
  {
    TimesCaseBlind(Chr(Digit), 10);
    assert CaseBlind(CONTIGUOUS_PHONE);
    assert CaseBlind(HOST);
    assert CaseBlind(EMAIL);
    forall i: nat, j: nat
      ensures Matches(EMAIL, Lower(content), i, j) <==> Matches(EMAIL, content, i, j)
      ensures Matches(CONTIGUOUS_PHONE, Lower(content), i, j) <==> Matches(CONTIGUOUS_PHONE, content, i, j)
    {
      LowerKeepsMatches(EMAIL, content, i, j);
      LowerKeepsMatches(CONTIGUOUS_PHONE, content, i, j);
    }
  }

  /** The grouped pattern needs a separator between two digits, so it is blind on settled text. */
  lemma SettledHasNoGroupedPhone(s: string)
    requires Settled(s)
    ensures !Found(PHONE, s)
  {
    forall i: nat, j: nat
      ensures !Matches(PHONE, s, i, j)
    {
      forall m
        ensures !Matches(LAST_SEVEN, s, m, j)
      {
        SettledHasNoLastSeven(s, m, j);
      }
      assert forall m :: !Matches(Cat(SEPARATOR, LAST_SEVEN), s, m, j);
      assert forall m :: !Matches(Cat(AREA_CODE, Cat(SEPARATOR, LAST_SEVEN)), s, m, j);
    }
  }

  lemma SettledHasNoLastSeven(s: string, i: int, j: int)
    requires Settled(s)
    ensures !Matches(LAST_SEVEN, s, i, j)
  {
    hide Times;
    forall m | Matches(Times(DIGIT, 3), s, i, m)
      ensures !Matches(LAST_FOUR, s, m, j)
    {
      hide Matches;
      TimesMatches(Digit, 3, s, i, m);
      assert IsDigit(s[m - 1]);
      SettledHasNoLastFour(s, m, j);
    }
  }

  lemma SettledHasNoLastFour(s: string, m: int, j: int)
    requires Settled(s) && 0 < m <= |s| && IsDigit(s[m - 1])
    ensures !Matches(LAST_FOUR, s, m, j)
  {
    hide Times;
    forall n, e
      ensures !(Matches(SEPARATOR, s, m, n) && Matches(Times(DIGIT, 4), s, n, e))
    {
      TimesMatches(Digit, 4, s, n, e);
      assert Matches(Times(DIGIT, 4), s, n, e) ==> In(s[n], Digit);
    }
    assert forall n :: Matches(SEPARATOR, s, m, n) ==> !Matches(Cat(Times(DIGIT, 4), Boundary), s, n, j);
  }

  // --- squeezing blanks ---

  const BLANKS := Plus(Chr(Space))

  function Respaced(t: string, i: nat): string
    requires i <= |t|
  {
    ReplaceAll(BLANKS, t, Always(" "), i)
  }

  /** One step of the replacement: a stretch of blanks, or one other character. */
  lemma RespacedStep(t: string, i: nat) returns (j: nat)
    requires i < |t|
    ensures i < j <= |t|
    ensures if IsSpace(t[i])
            then Respaced(t, i) == " " + Respaced(t, j) && forall k :: i <= k < j ==> IsSpace(t[k])
            else j == i + 1 && Respaced(t, i) == [t[i]] + Respaced(t, j)
  {
    MatchAtIsMatch(BLANKS, t, i);
    var m := MatchAt(BLANKS, t, i);
    PlusMatches(Space, t, i, m);
    PlusMatches(Space, t, i, i + 1);
    j := if m > i then m else i + 1;
  }

  lemma RespacedHead(t: string, i: nat)
    requires i <= |t|
    ensures WordAt(Respaced(t, i), 0) == WordAt(t, i)
  {
    if i < |t| { var _ := RespacedStep(t, i); }
  }

  lemma {:induction false} RespacedCopies(t: string, i: nat, n: nat)
    requires i + n <= |t| && forall k :: i <= k < i + n ==> !IsSpace(t[k])
    ensures Respaced(t, i) == t[i..i + n] + Respaced(t, i + n)
    decreases n
  {
    if n > 0 {
      var _ := RespacedStep(t, i);
      RespacedCopies(t, i + 1, n - 1);
    }
  }

  lemma {:induction false} RespacedCopied(t: string, i: nat, n: nat)
    requires i <= |t| && n <= |Respaced(t, i)| && forall k :: 0 <= k < n ==> !IsSpace(Respaced(t, i)[k])
    ensures i + n <= |t| && Respaced(t, i)[..n] == t[i..i + n]
    decreases n
  {
    if n > 0 {
      assert i < |t|;
      var r := Respaced(t, i);
      var j := RespacedStep(t, i);
      assert r[0] == (if IsSpace(t[i]) then ' ' else t[i]);
      assert r == [t[i]] + Respaced(t, j);
      assert forall k :: 0 <= k < n - 1 ==> Respaced(t, j)[k] == r[k + 1];
      RespacedCopied(t, j, n - 1);
      assert t[i..i + n] == [t[i]] + t[j..j + (n - 1)];
    }
  }

  lemma RespacedKeepsNumberHere(t: string, i: nat, afterWord: bool, n: nat)
    requires i <= |t|
    ensures NumberAt(Respaced(t, i), afterWord, 0, n) <==> NumberAt(t[i..], afterWord, 0, n)
  {
    var r := Respaced(t, i);
    if NumberAt(r, afterWord, 0, n) {
      assert forall k :: 0 <= k < n ==> IsDigit(r[0..n][k]) && r[0..n][k] == r[k];
      RespacedCopied(t, i, n);
    } else if NumberAt(t[i..], afterWord, 0, n) {
      assert forall k :: 0 <= k < n ==> IsDigit(t[i..][0..n][k]) && t[i..][0..n][k] == t[i + k];
    }
    if i + n <= |t| && forall k :: i <= k < i + n ==> !IsSpace(t[k]) {
      RespacedCopies(t, i, n);
      RespacedHead(t, i + n);
      assert r[0..n] == t[i..][0..n];
    }
  }

  lemma {:induction false} ScanSkipsBlanks(t: string, i: nat, j: nat, afterWord: bool)
    requires i < j <= |t| && forall k :: i <= k < j ==> IsSpace(t[k])
    ensures Scan(t[i..], afterWord) <==> Scan(t[j..], false)
    decreases j - i
  {
    assert t[i..] == [t[i]] + t[i + 1..];
    ScanStep(t[i], t[i + 1..], afterWord);
    NoNumberOpens(t[i..], afterWord);
    if i + 1 < j { ScanSkipsBlanks(t, i + 1, j, false); }
  }

  lemma {:induction false} RespacedKeepsNumbers(t: string, i: nat, afterWord: bool)
    requires i <= |t|
    ensures Scan(Respaced(t, i), afterWord) <==> Scan(t[i..], afterWord)
    decreases |t| - i
  {
    if i < |t| {
      var j := RespacedStep(t, i);
      if IsSpace(t[i]) {
        ScanStep(' ', Respaced(t, j), afterWord);
        NoNumberOpens(Respaced(t, i), afterWord);
        ScanSkipsBlanks(t, i, j, afterWord);
        RespacedKeepsNumbers(t, j, false);
      } else {
        ScanStep(t[i], Respaced(t, j), afterWord);
        assert t[i..] == [t[i]] + t[j..];
        ScanStep(t[i], t[j..], afterWord);
        forall n: nat
          ensures NumberAt(Respaced(t, i), afterWord, 0, n) <==> NumberAt(t[i..], afterWord, 0, n)
        {
          RespacedKeepsNumberHere(t, i, afterWord, n);
        }
        RespacedKeepsNumbers(t, j, IsWord(t[i]));
      }
    }
  }

  /** The text the second guard compares with holds a bare number only if the message does. */
  lemma PlainlyKeepsNumbers(content: string)
    ensures Found(CONTIGUOUS_PHONE, Plainly(content)) <==> Found(CONTIGUOUS_PHONE, content)
  {
    var lower := Lower(content);
    RespacedKeepsNumbers(lower, 0, false);
    assert lower[0..] == lower;
    ScanIsFound(Plainly(content));
    ScanIsFound(lower);
    LowerKeepsFinds(content);
  }

  // --- guards and filters do not matter ---

  lemma PhoneVerdict(content: string)
    ensures PhoneReports(content) + DisguisedPhoneReports(content) != [] <==> PlainPhone(content)
  {
    var grouped, bare := MatchAll(PHONE, content), MatchAll(CONTIGUOUS_PHONE, content);
    var normalized := FullyNormalized(content);
    var more := MatchAll(PHONE, normalized) + MatchAll(CONTIGUOUS_PHONE, normalized);
    LongPhones();
    hide MatchAll, MinLength, Found, Plainly, CONTIGUOUS_PHONE, PHONE, Squeeze, Undisguised, Collect;
    MatchAllFinds(PHONE, content);
    MatchAllFinds(CONTIGUOUS_PHONE, content);
    MatchAllFinds(PHONE, normalized);
    MatchAllFinds(CONTIGUOUS_PHONE, normalized);
    FilterKeepsVerdict(grouped, [], Every(), Reporter(PhoneNumber, Pattern, 95));
    FilterKeepsVerdict(bare, grouped, NewDigits(grouped), Reporter(PhoneNumber, Pattern, 90));
    FilterKeepsVerdict(more, grouped + bare, NewDigits(grouped + bare), Withheld(PhoneNumber, Normalization, 75));
    if normalized == Plainly(content) {
      SqueezeSettles(Undisguised(content));
      SettledHasNoGroupedPhone(normalized);
      PlainlyKeepsNumbers(content);
    }
  }

  /** A filter that passes everything when nothing was seen before loses no verdict. */
  lemma FilterKeepsVerdict(found: seq<string>, seen: seq<string>, keep: string -> bool, report: string -> Report)
    requires seen == [] ==> forall m :: m in found ==> keep(m)
    ensures seen != [] || Collect(found, keep, report) != [] <==> seen != [] || found != []
  {
    CollectsSome(found, keep, report);
    assert found != [] ==> found[0] in found;
  }

  lemma EmailVerdict(content: string)
    ensures EmailReports(content) + WordedEmailReports(content) != [] <==> PlainEmail(content)
  {
    var normalized := NormalizeAtDot(content);
    LongEmail();
    hide MatchAll, MinLength, Found, EMAIL, Collect, NormalizeAtDot;
    MatchAllFinds(EMAIL, content);
    MatchAllFinds(EMAIL, normalized);
    var emails, worded := MatchAll(EMAIL, content), MatchAll(EMAIL, normalized);
    FilterKeepsVerdict(emails, [], Every(), Reporter(Email, Pattern, 95));
    FilterKeepsVerdict(worded, emails, NewEmails(emails), Reporter(Email, Normalization, 85));
    LowerKeepsFinds(content);
  }

  lemma KeywordVerdict(content: string, keywords: seq<string>, violation: ViolationType, confidence: nat)
    ensures KeywordReports(content, keywords, violation, confidence) != [] <==> PlainKeyword(content, keywords)
  {
    CollectsSome(keywords, Occurs(Lower(content)), Reporter(violation, Keyword, confidence));
  }

  /** A message is blocked exactly if some pattern or keyword, applied plainly, finds something. */
  lemma BlockedIsPlain(content: string)
    ensures Blocked(content) <==> PlainlyBlocked(content)
  {
    PhoneVerdict(content);
    EmailVerdict(content);
    LongUrl();
    hide MatchAll, MinLength, Found, URL, Collect, PlainPhone, PlainEmail, PlainKeyword, PhoneReports, EmailReports,
      WordedEmailReports, DisguisedPhoneReports, KeywordReports, SOCIAL_MEDIA_KEYWORDS, PAYMENT_KEYWORDS, OFF_PLATFORM_PHRASES;
    MatchAllFinds(URL, content);
    FilterKeepsVerdict(MatchAll(URL, content), [], Every(), Reporter(Url, Pattern, 90));
    KeywordVerdict(content, SOCIAL_MEDIA_KEYWORDS, SocialMedia, 70);
    KeywordVerdict(content, PAYMENT_KEYWORDS, PaymentHandle, 75);
    KeywordVerdict(content, OFF_PLATFORM_PHRASES, OffPlatformRequest, 60);
  }

  /**
   Completeness: however the digits of a phone number are spelled, disguised or spaced,
   a message whose undisguised text shows one is blocked, and the normalized search for a
   bare number succeeds for no other reason.
   */
  lemma SpacedPhoneIsBlocked(content: string)
    ensures Found(CONTIGUOUS_PHONE, FullyNormalized(content))
       <==> exists a: nat, b: nat :: SpacedPhone(Undisguised(content), a, b)
    ensures (exists a: nat, b: nat :: SpacedPhone(Undisguised(content), a, b)) ==> Blocked(content)
  {
    CollapseFindsSpacedPhones(Undisguised(content));
    BlockedIsPlain(content);
  }
}
