/** The bytes of a calendar file (ics.util.ts): folding counts UTF-16 units, files hold UTF-8 octets. */
module IcsBytes {
  import opened JsText
  import opened Platform
  import opened Ics

  // --- Octets per line ---

  /** A text has at least as many octets as units, and exactly as many only if it is ASCII. */
  lemma {:induction false} OctetsOf(s: JsString)
    ensures |ToBytes(s)| >= |s| && (|ToBytes(s)| == |s| <==> AsciiOnly(s))
  {
    if s != [] {
      var n := FirstWidth(s);
      var cp := if LoneFirst(s) then 0xFFFD else FirstPoint(s);
      OctetsOf(s[n..]);
      assert s == s[..n] + s[n..];
      assert |Utf8(cp)| >= n && (|Utf8(cp)| == n <==> s[0] < 0x80);
      hide ToBytes, Utf8;
      assert AsciiOnly(s) <==> s[0] < 0x80 && AsciiOnly(s[n..]);
    }
  }

  predicate Short(chunk: JsString) { |ToBytes(chunk)| <= WIDTH }

  predicate AllShort(chunks: seq<JsString>) { forall c :: c in chunks ==> Short(c) }

  /** Where the last of a line's continuations starts in the text they carry. */
  function LastStart(n: nat): (r: nat)
    requires n > 0
    ensures r < n
  {
    (n - 1) / (WIDTH - 1) * (WIDTH - 1)
  }

  /** All but the last continuation are full, so they must be ASCII; the last must fit with its blank. */
  predicate RestFits(rest: JsString) {
    rest == [] || (AsciiOnly(rest[..LastStart(|rest|)]) && |ToBytes(rest[LastStart(|rest|)..])| < WIDTH)
  }

  /** The octets of a line's physical lines stay within the limit. */
  predicate FitsOctets(line: JsString) {
    if |line| <= WIDTH then |ToBytes(line)| <= WIDTH
    else AsciiOnly(line[..WIDTH]) && RestFits(line[WIDTH..])
  }

  lemma BlankIsOneOctet(s: JsString)
    ensures |ToBytes([SPACE] + s)| == 1 + |ToBytes(s)|
  {
    assert ([SPACE] + s)[1..] == s;
  }

  lemma FullIsShort(chunk: JsString)
    requires |chunk| == WIDTH
    ensures Short(chunk) <==> AsciiOnly(chunk)
  {
    OctetsOf(chunk);
  }

  lemma LastStartStep(n: nat)
    requires n > WIDTH - 1
    ensures LastStart(n) == WIDTH - 1 + LastStart(n - (WIDTH - 1))
  {
  }

  lemma {:induction false} ContinuationsShort(rest: JsString)
    ensures AllShort(Continuations(rest)) <==> RestFits(rest)
    decreases |rest|
  {
    if rest != [] {
      var n := Slice(rest);
      var first, others := [SPACE] + rest[..n], Continuations(rest[n..]);
      var cs := Continuations(rest);
      assert cs == [first] + others;
      BlankIsOneOctet(rest[..n]);
      ContinuationsShort(rest[n..]);
      AllShortCons(first, others);
      if |rest| <= WIDTH - 1 {
        assert rest[n..] == [] && rest[..n] == rest && LastStart(|rest|) == 0;
        assert rest[..0] == [] && rest[0..] == rest;
      } else {
        LastStartStep(|rest|);
        FullIsShort(first);
        RestStep(rest);
      }
    }
  }

  lemma AllShortCons(c: JsString, cs: seq<JsString>)
    ensures AllShort([c] + cs) <==> Short(c) && AllShort(cs)
  {
    hide Short;
    assert forall x :: x in cs ==> x in [c] + cs;
    assert c in [c] + cs;
  }

  lemma RestFitsAt(rest: JsString, k: nat)
    requires rest != [] && k == LastStart(|rest|)
    ensures k < |rest| && (RestFits(rest) <==> AsciiOnly(rest[..k]) && |ToBytes(rest[k..])| < WIDTH)
  {
    hide ToBytes, AsciiOnly, LastStart;
  }

  lemma BlankIsAscii(s: JsString)
    ensures AsciiOnly([SPACE] + s) <==> AsciiOnly(s)
  {
    AsciiConcat([SPACE], s);
  }

  lemma RestStep(rest: JsString)
    requires |rest| > 74
    ensures RestFits(rest) <==> AsciiOnly([SPACE] + rest[..74]) && RestFits(rest[74..])
  {
    LastStartStep(|rest|);
    assert WIDTH == 75;
    hide *;
    var m := LastStart(|rest| - 74);
    RestFitsAt(rest, 74 + m);
    RestFitsAt(rest[74..], m);
    CutAt(rest, 74, m);
    BlankIsAscii(rest[..74]);
    AsciiConcat(rest[..74], rest[74..][..m]);
  }

  lemma CutAt<T>(s: seq<T>, n: nat, m: nat)
    requires n + m <= |s|
    ensures s[n..][m..] == s[n + m..] && s[..n + m] == s[..n] + s[n..][..m]
  {
  }

  lemma AsciiConcat(a: JsString, b: JsString)
    ensures AsciiOnly(a + b) <==> AsciiOnly(a) && AsciiOnly(b)
  {
    assert forall k :: 0 <= k < |a| ==> a[k] == (a + b)[k];
    assert forall k :: 0 <= k < |b| ==> b[k] == (a + b)[|a| + k];
  }

  /** Exactly which lines keep the limit of section 3.1 of RFC 5545 when folded; ASCII lines do. */
  lemma OctetLimit(line: JsString)
    ensures (forall c :: c in Chunks(line) ==> |ToBytes(c)| <= WIDTH) <==> FitsOctets(line)
    ensures AsciiOnly(line) ==> FitsOctets(line)
  {
    ChunksShort(line);
    assert AllShort(Chunks(line)) <==> forall c :: c in Chunks(line) ==> |ToBytes(c)| <= WIDTH;
    if AsciiOnly(line) { AsciiLineFits(line); }
  }

  lemma AsciiLineFits(line: JsString)
    requires AsciiOnly(line)
    ensures FitsOctets(line)
  {
    if |line| <= WIDTH {
      OctetsOf(line);
    } else {
      var rest := line[WIDTH..];
      var k := LastStart(|rest|);
      LastIsShort(|rest|);
      OctetsOf(rest[k..]);
      hide ToBytes, LastStart;
      assert AsciiOnly(rest[k..]) && AsciiOnly(rest[..k]) && AsciiOnly(line[..WIDTH]);
    }
  }

  lemma LastIsShort(n: nat)
    requires n > 0
    ensures n - LastStart(n) < WIDTH
  {
  }

  lemma ChunksShort(line: JsString)
    ensures AllShort(Chunks(line)) <==> FitsOctets(line)
  {
    if |line| > WIDTH {
      FullIsShort(line[..WIDTH]);
      ContinuationsShort(line[WIDTH..]);
      AllShortCons(line[..WIDTH], Continuations(line[WIDTH..]));
    } else {
      AllShortCons(line, []);
      assert [line] + [] == [line];
    }
  }

  lemma {:induction false} AllLinesOctetLimit(lines: seq<JsString>)
    ensures AllShort(AllChunks(lines)) <==> forall l :: l in lines ==> FitsOctets(l)
  {
    if lines != [] {
      ChunksShort(lines[0]);
      AllLinesOctetLimit(lines[1..]);
      hide FitsOctets, Chunks, Short;
      var a, b := Chunks(lines[0]), AllChunks(lines[1..]);
      assert AllShort(a + b) <==> AllShort(a) && AllShort(b);
    }
  }

  /** The octets of lines, each ended by CR LF. */
  function OctetLines(lines: seq<JsString>): seq<Octet> {
    if lines == [] then [] else ToBytes(lines[0]) + [0x0D, 0x0A] + OctetLines(lines[1..])
  }

  lemma Associates<T>(a: seq<T>, b: seq<T>, c: seq<T>, d: seq<T>)
    ensures a + (b + c + d) == (a + b) + c + d
  {
  }

  lemma EndsLine<T>(a: seq<T>, x: T, y: T, b: seq<T>)
    ensures a + [x, y] + b == a + [x] + ([y] + b) && [] + [y] + b == [y] + b
  {
  }

  function FirstOctets(s: JsString): seq<Octet>
    requires s != []
  {
    Utf8(if LoneFirst(s) then 0xFFFD else FirstPoint(s))
  }

  lemma SameFirst(a: JsString, u: CodeUnit, b: JsString)
    requires a != [] && u < 0x80
    ensures
      var s := a + [u] + b;
      FirstOctets(s) == FirstOctets(a) && FirstWidth(s) == FirstWidth(a) && s[FirstWidth(a)..] == a[FirstWidth(a)..] + [u] + b
  {
    hide Utf8;
    var s := a + [u] + b;
    assert PairFirst(s) <==> PairFirst(a);
  }

  lemma FirstStep(s: JsString)
    requires s != []
    ensures ToBytes(s) == FirstOctets(s) + ToBytes(s[FirstWidth(s)..])
  {
  }

  lemma NoneThenAscii(u: CodeUnit, b: JsString)
    requires u < 0x80
    ensures ToBytes([]) == [] && ToBytes([u] + b) == [u] + ToBytes(b)
  {
    assert ([u] + b)[1..] == b;
  }

  lemma {:induction false} OctetsAround(a: JsString, u: CodeUnit, b: JsString)
    requires u < 0x80
    ensures ToBytes(a + [u] + b) == ToBytes(a) + [u] + ToBytes(b)
    decreases |a|
  {
    hide *;
    if a == [] {
      NoneThenAscii(u, b);
      EndsLine(a, u, u, b);
      EndsLine(ToBytes([]), u, u, ToBytes(b));
    } else {
      var n := FirstWidth(a);
      SameFirst(a, u, b);
      FirstStep(a);
      FirstStep(a + [u] + b);
      OctetsAround(a[n..], u, b);
      Associates(FirstOctets(a), ToBytes(a[n..]), [u], ToBytes(b));
    }
  }

  lemma EndedLineOctets(line: JsString, rest: JsString)
    ensures ToBytes(line + CRLF + rest) == ToBytes(line) + [0x0D, 0x0A] + ToBytes(rest)
  {
    assert CRLF == [0x0D, 0x0A];
    hide *;
    OctetsAround(line, 0x0D, [0x0A] + rest);
    NoneThenAscii(0x0A, rest);
    EndsLine(line, 0x0D, 0x0A, rest);
    EndsLine(ToBytes(line), 0x0D, 0x0A, ToBytes(rest));
  }

  lemma {:induction false} TerminatedOctets(lines: seq<JsString>)
    ensures ToBytes(Terminated(lines)) == OctetLines(lines)
  {
    if lines != [] {
      var rest := Terminated(lines[1..]);
      assert OctetLines(lines) == ToBytes(lines[0]) + [0x0D, 0x0A] + OctetLines(lines[1..]);
      assert Terminated(lines) == lines[0] + CRLF + rest;
      hide *;
      EndedLineOctets(lines[0], rest);
      TerminatedOctets(lines[1..]);
    }
  }

  /**
   The lines of the file are the octets of the calendar's physical lines, and these keep to 75
   octets exactly if every line fits: ASCII up to its last physical line, which is short enough.
   */
  lemma CalendarOctetLimit(s: Showing)
    requires OneLine(s.uid)
    ensures ToBytes(Calendar(s)) == OctetLines(PhysicalLines(Calendar(s)))
    ensures (forall c :: c in PhysicalLines(Calendar(s)) ==> |ToBytes(c)| <= WIDTH)
            <==> forall line :: line in Lines(Properties(s)) ==> FitsOctets(line)
  {
    var lines := Lines(Properties(s));
    assert |Opening()| > 0;
    assert AllShort(AllChunks(lines)) <==> forall c :: c in AllChunks(lines) ==> |ToBytes(c)| <= WIDTH;
    hide OneLine, Opening, Details, Closing, LineOf, FitsOctets, ToBytes, Terminated, AllChunks, PhysicalLines;
    CalendarLines(s);
    TextIsTerminated(lines);
    TerminatedOctets(AllChunks(lines));
    AllLinesOctetLimit(lines);
  }

  // --- Bytes back to text ---

  /** A unit that is no surrogate separates well-formed texts. */
  lemma {:induction false} WellFormedAround(a: JsString, u: CodeUnit, b: JsString)
    requires !Surrogate(u)
    ensures WellFormed(a + [u] + b) <==> WellFormed(a) && WellFormed(b)
    decreases |a|
  {
    var s := a + [u] + b;
    if a == [] {
      assert s[1..] == b;
    } else {
      assert PairFirst(s) <==> PairFirst(a);
      var n := FirstWidth(a);
      assert s[n..] == a[n..] + [u] + b;
      WellFormedAround(a[n..], u, b);
    }
  }

  lemma WellFormedLine(a: JsString, b: JsString)
    ensures WellFormed(a + CRLF + b) <==> WellFormed(a) && WellFormed(b)
  {
    WellFormedAround(a, CR, [LF] + b);
    WellFormedAround([], LF, b);
    assert a + CRLF + b == a + [CR] + ([LF] + b) && [] + [LF] + b == [LF] + b;
  }

  lemma {:induction false} TerminatedWellFormed(lines: seq<JsString>)
    ensures WellFormed(Terminated(lines)) <==> forall l :: l in lines ==> WellFormed(l)
  {
    if lines != [] {
      WellFormedLine(lines[0], Terminated(lines[1..]));
      TerminatedWellFormed(lines[1..]);
      hide WellFormed;
    }
  }

  /** Position p lies inside a surrogate pair. */
  predicate InsidePair(s: JsString, p: nat) { 0 < p < |s| && High(s[p - 1]) && Low(s[p]) }

  /** Cutting a well-formed text leaves two well-formed ones unless it cuts a pair. */
  lemma {:induction false} CutWellFormed(s: JsString, p: nat)
    requires WellFormed(s) && p <= |s|
    ensures WellFormed(s[..p]) && WellFormed(s[p..]) <==> !InsidePair(s, p)
    ensures WellFormed(s[..p]) <==> !InsidePair(s, p)
    decreases p
  {
    if p == 0 {
      assert s[p..] == s;
    } else {
      var n := FirstWidth(s);
      if p >= n {
        CutWellFormed(s[n..], p - n);
        assert s[n..][..p - n] == s[..p][n..] && s[n..][p - n..] == s[p..];
        assert PairFirst(s) ==> PairFirst(s[..p]);
        assert InsidePair(s[n..], p - n) <==> InsidePair(s, p);
      }
    }
  }

  /** Folds come every 74 units after the first. */
  predicate FoldAt(p: nat, first: nat) { first <= p && (p - first) % (WIDTH - 1) == 0 }

  /** Some fold of `rest` falls inside a pair. */
  predicate CutsPair(rest: JsString, first: nat) {
    exists p :: 0 <= p < |rest| && FoldAt(p, first) && InsidePair(rest, p)
  }

  predicate AllWellFormed(lines: seq<JsString>) { forall l :: l in lines ==> WellFormed(l) }

  lemma FoldShift(p: nat, n: nat)
    requires p > n
    ensures FoldAt(p, n) <==> FoldAt(p - n, WIDTH - 1)
  {
  }

  lemma CutsShift(s: JsString, n: nat)
    requires n <= |s|
    ensures CutsPair(s[n..], WIDTH - 1) ==> CutsPair(s, n)
    ensures CutsPair(s, n) ==> InsidePair(s, n) || CutsPair(s[n..], WIDTH - 1)
  {
    var t := s[n..];
    hide FoldAt;
    if CutsPair(t, WIDTH - 1) {
      var p :| 0 <= p < |t| && FoldAt(p, WIDTH - 1) && InsidePair(t, p);
      FoldShift(n + p, n);
      assert InsidePair(s, n + p);
    }
    if CutsPair(s, n) && !InsidePair(s, n) {
      var p :| 0 <= p < |s| && FoldAt(p, n) && InsidePair(s, p);
      assert p >= n by { FoldsAfter(p, n); }
      FoldShift(p, n);
      assert InsidePair(t, p - n);
    }
  }

  lemma FoldsAfter(p: nat, n: nat)
    requires FoldAt(p, n)
    ensures p >= n
  {
  }

  lemma {:induction false} ContinuationsWellFormed(rest: JsString)
    requires WellFormed(rest)
    ensures AllWellFormed(Continuations(rest)) <==> !CutsPair(rest, WIDTH - 1)
    decreases |rest|
  {
    if rest != [] {
      var n := Slice(rest);
      CutWellFormed(rest, n);
      WellFormedAround([], SPACE, rest[..n]);
      assert [] + [SPACE] + rest[..n] == [SPACE] + rest[..n];
      CutsShift(rest, n);
      hide WellFormed;
      var cs := Continuations(rest);
      assert cs == [[SPACE] + rest[..n]] + Continuations(rest[n..]);
      assert AllWellFormed(cs) <==> WellFormed(cs[0]) && AllWellFormed(cs[1..]);
      if InsidePair(rest, n) {
        assert !WellFormed(cs[0]);
      } else {
        ContinuationsWellFormed(rest[n..]);
      }
    }
  }

  /** Folding cuts a surrogate pair of this line. */
  predicate FoldedInPair(line: JsString) { CutsPair(line, WIDTH) }

  lemma ChunksWellFormed(line: JsString)
    requires WellFormed(line)
    ensures AllWellFormed(Chunks(line)) <==> !FoldedInPair(line)
  {
    if |line| > WIDTH {
      CutWellFormed(line, WIDTH);
      CutsShift(line, WIDTH);
      hide WellFormed;
      var cs := Chunks(line);
      assert AllWellFormed(cs) <==> WellFormed(cs[0]) && AllWellFormed(cs[1..]);
      assert cs[1..] == Continuations(line[WIDTH..]);
      if !InsidePair(line, WIDTH) {
        ContinuationsWellFormed(line[WIDTH..]);
      } else {
        assert CutsPair(line, WIDTH);
      }
    }
  }

  lemma {:induction false} AllChunksWellFormed(lines: seq<JsString>)
    requires AllWellFormed(lines)
    ensures AllWellFormed(AllChunks(lines)) <==> forall l :: l in lines ==> !FoldedInPair(l)
  {
    if lines != [] {
      ChunksWellFormed(lines[0]);
      AllChunksWellFormed(lines[1..]);
      hide WellFormed, FoldedInPair, Chunks;
      var a, b := Chunks(lines[0]), AllChunks(lines[1..]);
      assert AllWellFormed(a + b) <==> AllWellFormed(a) && AllWellFormed(b);
    }
  }

  /** The file's bytes decode to its text exactly if no fold falls inside a surrogate pair. */
  lemma BytesReadBackUnlessCut(lines: seq<JsString>)
    requires lines != [] && AllWellFormed(lines)
    ensures FromBytes(ToBytes(TextOf(lines))) == Some(TextOf(lines)) <==> forall l :: l in lines ==> !FoldedInPair(l)
  {
    TextIsTerminated(lines);
    TerminatedWellFormed(AllChunks(lines));
    AllChunksWellFormed(lines);
    BytesRoundTrip(TextOf(lines));
  }

  // --- The calendar ---

  predicate WellFormedProperty(p: Property) { WellFormed(p.name) && WellFormed(p.value) }

  lemma LiteralIsWellFormed(s: string)
    requires forall j :: 0 <= j < |s| ==> ' ' <= s[j] <= '~'
    ensures WellFormed(Js(s))
  {
    AsciiIsWellFormed(Js(s));
  }

  lemma EscapedUnitIsWellFormed(u: CodeUnit, rest: JsString)
    requires !Surrogate(u)
    ensures WellFormed(EscapedUnit(u) + rest) <==> WellFormed(rest)
  {
    var e := EscapedUnit(u);
    if |e| == 1 {
      WellFormedAround([], e[0], rest);
      assert [] + [e[0]] + rest == e + rest;
    } else {
      WellFormedAround([e[0]], e[1], rest);
      assert [e[0]] + [e[1]] + rest == e + rest && WellFormed([e[0]]);
    }
  }

  lemma {:induction false} EscapedIsWellFormed(value: JsString)
    requires WellFormed(value)
    ensures WellFormed(EscapedInOnePass(value))
    decreases |value|
  {
    if value != [] {
      var rest := EscapedInOnePass(value[FirstWidth(value)..]);
      EscapedIsWellFormed(value[FirstWidth(value)..]);
      if PairFirst(value) {
        assert value[1..][1..] == value[2..];
        assert EscapedInOnePass(value) == [value[0]] + ([value[1]] + rest);
        var pair := [value[0], value[1]];
        assert EscapedInOnePass(value) == pair + rest && (pair + rest)[2..] == rest;
      } else {
        EscapedUnitIsWellFormed(value[0], rest);
      }
    }
  }

  lemma TextIsWellFormed(value: JsString)
    requires WellFormed(value)
    ensures WellFormed(EscapeText(value))
  {
    ChainIsOnePass(value);
    EscapedIsWellFormed(value);
  }

  lemma TimeIsWellFormed(t: Moment)
    ensures WellFormed(ToIcsUtc(t))
  {
    TimestampForm(t);
    assert AsciiOnly(UtcDateTime(t));
    AsciiIsWellFormed(UtcDateTime(t));
  }

  lemma UidIsWellFormed(uid: JsString)
    requires WellFormed(uid)
    ensures WellFormed(uid + Js("@affordablehomematch.com"))
  {
    var domain := "@affordablehomematch.com";
    assert forall j :: 0 <= j < |domain| ==> ' ' <= domain[j] <= '~';
    LiteralIsWellFormed(domain);
    var d := Js(domain);
    assert d == [d[0]] + d[1..] && uid + d == uid + [d[0]] + d[1..];
    WellFormedAround(uid, d[0], d[1..]);
  }

  lemma LineIsWellFormed(p: Property)
    requires WellFormedProperty(p)
    ensures WellFormed(LineOf(p))
  {
    WellFormedAround(p.name, COLON, p.value);
  }

  lemma FrameIsWellFormed()
    ensures forall p :: p in Opening() || p in Closing() ==> WellFormedProperty(p)
  {
    OpeningIsLiteral();
    ClosingIsLiteral();
    hide Opening, Closing;
    forall p | p in Opening() || p in Closing()
      ensures WellFormedProperty(p)
    {
      AsciiIsWellFormed(p.name);
      AsciiIsWellFormed(p.value);
    }
  }

  /** No unpaired surrogate in what a calendar is built from. */
  predicate WellFormedShowing(s: Showing) {
    WellFormed(s.uid) && WellFormed(s.summary) && WellFormed(s.description) && WellFormed(s.location)
  }

  lemma DetailValuesAreWellFormed(s: Showing)
    requires WellFormedShowing(s)
    ensures forall p :: p in Details(s) ==> WellFormed(p.value)
  {
    hide WellFormed, Js, EscapeText, ToIcsUtc;
    UidIsWellFormed(s.uid);
    TimeIsWellFormed(s.now);
    TimeIsWellFormed(s.start);
    TimeIsWellFormed(s.end);
    TextIsWellFormed(s.summary);
    TextIsWellFormed(s.description);
    TextIsWellFormed(s.location);
  }

  lemma DetailsAreWellFormed(s: Showing)
    requires WellFormedShowing(s)
    ensures forall p :: p in Details(s) ==> WellFormedProperty(p)
  {
    DetailValuesAreWellFormed(s);
    DetailNames(s);
    hide Details, WellFormed;
    forall p | p in Details(s)
      ensures WellFormed(p.name)
    {
      AsciiIsWellFormed(p.name);
    }
  }

  /** Whoever decodes the file gets the calendar exactly if folding cut no character in two. */
  lemma CalendarBytesReadBack(s: Showing)
    requires WellFormedShowing(s)
    ensures FromBytes(ToBytes(Calendar(s))) == Some(Calendar(s))
            <==> forall line :: line in Lines(Properties(s)) ==> !FoldedInPair(line)
  {
    FrameIsWellFormed();
    DetailsAreWellFormed(s);
    var lines := Lines(Properties(s));
    hide WellFormedProperty, WellFormed, WellFormedShowing, LineOf, FoldedInPair;
    forall i | 0 <= i < |lines|
      ensures WellFormed(lines[i])
    {
      assert Properties(s)[i] in Properties(s);
      LineIsWellFormed(Properties(s)[i]);
    }
    BytesReadBackUnlessCut(lines);
  }

  // --- Two calendars that show it ---

  function Repeated(u: CodeUnit, n: nat): JsString { seq(n, _ => u) }

  const MIDNIGHT := Moment(2025, 1, 1, 0, 0, 0, 0)

  function WithSummary(summary: JsString): Showing { Showing([], MIDNIGHT, MIDNIGHT, MIDNIGHT, summary, [], []) }

  lemma SummaryLine(summary: JsString)
    requires BACKSLASH !in summary && COMMA !in summary && SEMICOLON !in summary && LF !in summary
    ensures |Js("SUMMARY")| == 7 && AsciiOnly(Js("SUMMARY"))
    ensures Js("SUMMARY") + [COLON] + summary in Lines(Properties(WithSummary(summary)))
  {
    SummaryName();
    hide Js, EscapeText, Details, Opening, Closing, Repeated;
    NothingToEscape(summary);
    var s := WithSummary(summary);
    SummaryPlace(s);
    assert Properties(s)[10] == Details(s)[4];
    assert Lines(Properties(s))[10] == LineOf(Details(s)[4]);
  }

  lemma SummaryName()
    ensures |Js("SUMMARY")| == 7 && AsciiOnly(Js("SUMMARY"))
  {
    var name := "SUMMARY";
    assert |name| == 7 && forall j :: 0 <= j < |name| ==> 'A' <= name[j] <= 'Z';
  }

  lemma SummaryPlace(s: Showing)
    ensures |Opening()| == 6 && |Details(s)| == 7
    ensures Details(s)[4] == Property(Js("SUMMARY"), EscapeText(s.summary))
  {
    hide Js, EscapeText, ToIcsUtc;
  }

  lemma {:induction false} TwoOctetsEach(s: JsString)
    requires forall k :: 0 <= k < |s| ==> 0x80 <= s[k] < 0x800
    ensures |ToBytes(s)| == 2 * |s|
  {
    if s != [] { TwoOctetsEach(s[1..]); }
  }

  /** Forty accented letters make a physical line of 48 units and 88 octets. */
  lemma AccentsBreakTheLimit()
    ensures
      var s := WithSummary(Repeated(0xE9, 40));
      exists c :: c in PhysicalLines(Calendar(s)) && |c| == 48 && |ToBytes(c)| == 88
  {
    var summary := Repeated(0xE9, 40);
    var s := WithSummary(summary);
    var line := Js("SUMMARY") + [COLON] + summary;
    assert OneLine(s.uid);
    AccentedLine(summary);
    hide *;
    CalendarLines(s);
    ChunksAmongAll(Lines(Properties(s)), line);
  }

  lemma AccentedLine(summary: JsString)
    requires summary == Repeated(0xE9, 40)
    ensures
      var line := Js("SUMMARY") + [COLON] + summary;
      && line in Lines(Properties(WithSummary(summary)))
      && |line| == 48 && |ToBytes(line)| == 88 && Chunks(line) == [line]
  {
    var name := Js("SUMMARY");
    SummaryName();
    TwoOctetsEach(summary);
    hide ToBytes, Js, Properties, Lines;
    SummaryLine(summary);
    OctetsOf(name);
    OctetsAround(name, COLON, summary);
  }

  lemma {:induction false} ChunksAmongAll(lines: seq<JsString>, line: JsString)
    requires line in lines
    ensures forall c :: c in Chunks(line) ==> c in AllChunks(lines)
  {
    if line != lines[0] { ChunksAmongAll(lines[1..], line); }
  }

  /** 66 letters and an emoji: the fold after 75 units cuts the emoji in two, and it is lost. */
  lemma CutCharacterIsLost()
    ensures
      var s := WithSummary(Repeated(0x61, 66) + [0xD83D, 0xDE00]);
      WellFormedShowing(s) && FromBytes(ToBytes(Calendar(s))) != Some(Calendar(s))
  {
    var summary := Repeated(0x61, 66) + [0xD83D, 0xDE00];
    var s := WithSummary(summary);
    var line := Js("SUMMARY") + [COLON] + summary;
    SummaryLine(summary);
    EmojiIsWellFormed();
    hide Js, WellFormed, ToBytes, FromBytes;
    assert |line| == 76 && line[74] == 0xD83D && line[75] == 0xDE00;
    assert FoldAt(75, WIDTH) && InsidePair(line, 75);
    assert FoldedInPair(line);
    hide *;
    CalendarBytesReadBack(s);
  }

  lemma EmojiIsWellFormed()
    ensures WellFormedShowing(WithSummary(Repeated(0x61, 66) + [0xD83D, 0xDE00]))
  {
    LettersAndEmoji(65);
  }

  lemma LettersAndEmoji(n: nat)
    ensures WellFormed(Repeated(0x61, n + 1) + [0xD83D, 0xDE00])
  {
    var letters, emoji := Repeated(0x61, n), [0xD83D, 0xDE00];
    EmojiAlone();
    assert AsciiOnly(letters);
    assert Repeated(0x61, n + 1) == letters + [0x61];
    hide *;
    AsciiIsWellFormed(letters);
    LetterSeparates(letters, emoji);
  }

  lemma LetterSeparates(a: JsString, b: JsString)
    ensures WellFormed(a + [0x61] + b) <==> WellFormed(a) && WellFormed(b)
  {
    WellFormedAround(a, 0x61, b);
  }

  lemma EmojiAlone()
    ensures WellFormed([0xD83D, 0xDE00])
  {
    var emoji: JsString := [0xD83D, 0xDE00];
    assert PairFirst(emoji) && emoji[2..] == [];
  }
}
