/** Calendar files for showings (ics.util.ts), and a reader of sections 3.1 and 3.3.11 of RFC 5545. */
module Ics {
  import opened JsText
  import opened Platform

  const LF: CodeUnit := 0x0A
  const CR: CodeUnit := 0x0D
  const TAB: CodeUnit := 0x09
  const SPACE: CodeUnit := 0x20
  const COMMA: CodeUnit := 0x2C
  const COLON: CodeUnit := 0x3A
  const SEMICOLON: CodeUnit := 0x3B
  const BACKSLASH: CodeUnit := 0x5C
  const SMALL_N: CodeUnit := 0x6E
  const CAPITAL_N: CodeUnit := 0x4E
  const CRLF: JsString := [CR, LF]

  // --- Escaping ---

  /** s.replace(/u/g, with) */
  function ReplaceUnit(s: JsString, u: CodeUnit, with: JsString): JsString {
    if s == [] then [] else (if s[0] == u then with else [s[0]]) + ReplaceUnit(s[1..], u, with)
  }

  function EscapeText(value: JsString): JsString {
    var a := ReplaceUnit(value, BACKSLASH, [BACKSLASH, BACKSLASH]);
    var b := ReplaceUnit(a, COMMA, [BACKSLASH, COMMA]);
    var c := ReplaceUnit(b, SEMICOLON, [BACKSLASH, SEMICOLON]);
    ReplaceUnit(c, LF, [BACKSLASH, SMALL_N])
  }

  function EscapedUnit(u: CodeUnit): JsString {
    if u == BACKSLASH || u == COMMA || u == SEMICOLON then [BACKSLASH, u]
    else if u == LF then [BACKSLASH, SMALL_N]
    else [u]
  }

  function EscapedInOnePass(value: JsString): JsString {
    if value == [] then [] else EscapedUnit(value[0]) + EscapedInOnePass(value[1..])
  }

  /** The text an escaped value stands for; None if a backslash introduces nothing known. */
  function Unescape(s: JsString): Option<JsString> {
    if s == [] then Some([])
    else if s[0] != BACKSLASH then
      var rest := Unescape(s[1..]);
      if rest.None? then None else Some([s[0]] + rest.value)
    else if |s| == 1 then None
    else
      var rest := Unescape(s[2..]);
      if rest.None? then None
      else if s[1] == SMALL_N || s[1] == CAPITAL_N then Some([LF] + rest.value)
      else if s[1] == BACKSLASH || s[1] == COMMA || s[1] == SEMICOLON then Some([s[1]] + rest.value)
      else None
  }

  lemma {:induction false} ReplaceConcat(a: JsString, b: JsString, u: CodeUnit, with: JsString)
    ensures ReplaceUnit(a + b, u, with) == ReplaceUnit(a, u, with) + ReplaceUnit(b, u, with)
  {
    if a == [] {
      assert a + b == b;
    } else {
      assert (a + b)[1..] == a[1..] + b;
      ReplaceConcat(a[1..], b, u, with);
    }
  }

  lemma {:induction false} ReplaceAbsent(s: JsString, u: CodeUnit, with: JsString)
    requires u !in s
    ensures ReplaceUnit(s, u, with) == s
  {
    if s != [] { ReplaceAbsent(s[1..], u, with); }
  }

  lemma EscapeConcat(a: JsString, b: JsString)
    ensures EscapeText(a + b) == EscapeText(a) + EscapeText(b)
  {
    var a1, b1 := ReplaceUnit(a, BACKSLASH, [BACKSLASH, BACKSLASH]), ReplaceUnit(b, BACKSLASH, [BACKSLASH, BACKSLASH]);
    var a2, b2 := ReplaceUnit(a1, COMMA, [BACKSLASH, COMMA]), ReplaceUnit(b1, COMMA, [BACKSLASH, COMMA]);
    var a3, b3 := ReplaceUnit(a2, SEMICOLON, [BACKSLASH, SEMICOLON]), ReplaceUnit(b2, SEMICOLON, [BACKSLASH, SEMICOLON]);
    hide ReplaceUnit;
    ReplaceConcat(a, b, BACKSLASH, [BACKSLASH, BACKSLASH]);
    ReplaceConcat(a1, b1, COMMA, [BACKSLASH, COMMA]);
    ReplaceConcat(a2, b2, SEMICOLON, [BACKSLASH, SEMICOLON]);
    ReplaceConcat(a3, b3, LF, [BACKSLASH, SMALL_N]);
  }

  lemma ReplaceShort(u: CodeUnit, v: CodeUnit, w: CodeUnit, with: JsString)
    ensures ReplaceUnit([v], u, with) == if v == u then with else [v]
    ensures ReplaceUnit([v, w], u, with) == (if v == u then with else [v]) + (if w == u then with else [w])
  {
    assert [v, w] == [v] + [w];
    ReplaceConcat([v], [w], u, with);
  }

  lemma EscapeOne(u: CodeUnit)
    ensures EscapeText([u]) == EscapedUnit(u)
  {
    var a := ReplaceUnit([u], BACKSLASH, [BACKSLASH, BACKSLASH]);
    var b := ReplaceUnit(a, COMMA, [BACKSLASH, COMMA]);
    var c := ReplaceUnit(b, SEMICOLON, [BACKSLASH, SEMICOLON]);
    hide ReplaceUnit;
    ReplaceShort(BACKSLASH, u, u, [BACKSLASH, BACKSLASH]);
    ReplaceShort(COMMA, u, u, [BACKSLASH, COMMA]);
    ReplaceShort(SEMICOLON, u, u, [BACKSLASH, SEMICOLON]);
    ReplaceShort(SEMICOLON, BACKSLASH, u, [BACKSLASH, SEMICOLON]);
    ReplaceShort(LF, u, u, [BACKSLASH, SMALL_N]);
    ReplaceShort(LF, BACKSLASH, u, [BACKSLASH, SMALL_N]);
    assert b == if u == BACKSLASH || u == COMMA then [BACKSLASH, u] else [u];
    assert c == if u == BACKSLASH || u == COMMA || u == SEMICOLON then [BACKSLASH, u] else [u];
  }

  /** The chain of replacements never touches what an earlier one wrote. */
  lemma {:induction false} ChainIsOnePass(value: JsString)
    ensures EscapeText(value) == EscapedInOnePass(value)
  {
    if value != [] {
      assert value == [value[0]] + value[1..];
      EscapeConcat([value[0]], value[1..]);
      EscapeOne(value[0]);
      ChainIsOnePass(value[1..]);
    }
  }

  lemma {:induction false} OnePassUndone(value: JsString)
    ensures Unescape(EscapedInOnePass(value)) == Some(value)
  {
    if value != [] {
      OnePassUndone(value[1..]);
      var u := EscapedUnit(value[0]);
      var s := u + EscapedInOnePass(value[1..]);
      assert s[|u|..] == EscapedInOnePass(value[1..]);
      assert [value[0]] + value[1..] == value;
    }
  }

  lemma UnescapeUndoes(value: JsString)
    ensures Unescape(EscapeText(value)) == Some(value)
  {
    ChainIsOnePass(value);
    OnePassUndone(value);
  }

  /** Text without backslashes, commas, semicolons and line feeds stays as it is. */
  lemma NothingToEscape(value: JsString)
    requires BACKSLASH !in value && COMMA !in value && SEMICOLON !in value && LF !in value
    ensures EscapeText(value) == value
  {
    ReplaceAbsent(value, BACKSLASH, [BACKSLASH, BACKSLASH]);
    ReplaceAbsent(value, COMMA, [BACKSLASH, COMMA]);
    ReplaceAbsent(value, SEMICOLON, [BACKSLASH, SEMICOLON]);
    ReplaceAbsent(value, LF, [BACKSLASH, SMALL_N]);
  }

  lemma {:induction false} OnePassHasNoLf(value: JsString)
    ensures forall k :: 0 <= k < |EscapedInOnePass(value)| ==> EscapedInOnePass(value)[k] != LF
  {
    if value != [] { OnePassHasNoLf(value[1..]); }
  }

  // --- Folding ---

  const WIDTH := 75

  function Slice(rest: JsString): (n: nat)
    ensures n <= |rest| && n < WIDTH && (rest != [] ==> n > 0)
  {
    if |rest| < WIDTH - 1 then |rest| else WIDTH - 1
  }

  function Continuations(rest: JsString): seq<JsString> {
    if rest == [] then [] else [[SPACE] + rest[..Slice(rest)]] + Continuations(rest[Slice(rest)..])
  }

  /** The physical lines of a line. */
  function Chunks(line: JsString): (r: seq<JsString>)
    ensures r != []
  {
    if |line| <= WIDTH then [line] else [line[..WIDTH]] + Continuations(line[WIDTH..])
  }

  function Join(lines: seq<JsString>): JsString {
    if lines == [] then [] else if |lines| == 1 then lines[0] else lines[0] + CRLF + Join(lines[1..])
  }

  method FoldLine(line: JsString) returns (folded: JsString)
    ensures folded == Join(Chunks(line))
  {
    if |line| <= WIDTH {
      assert Join([line]) == line;
      return line;
    }
    var chunks := [line[..WIDTH]];
    var rest := line[WIDTH..];
    while |rest| > 0
      invariant chunks + Continuations(rest) == Chunks(line)
      decreases |rest|
    {
      chunks := chunks + [[SPACE] + rest[..Slice(rest)]];
      rest := rest[Slice(rest)..];
    }
    assert chunks + [] == chunks;
    folded := Join(chunks);
  }

  lemma {:induction false} ContinuationsFit(rest: JsString)
    ensures forall c :: c in Continuations(rest) ==> 1 < |c| <= WIDTH && c[0] == SPACE
  {
    if rest != [] { ContinuationsFit(rest[Slice(rest)..]); }
  }

  /** Physical lines have at most 75 units. */
  lemma ChunksFit(line: JsString)
    ensures forall c :: c in Chunks(line) ==> |c| <= WIDTH
  {
    if |line| > WIDTH { ContinuationsFit(line[WIDTH..]); }
  }

  lemma {:induction false} ContinuationsAreFull(rest: JsString)
    ensures forall k :: 0 <= k < |Continuations(rest)| - 1 ==> |Continuations(rest)[k]| == 75
  {
    if rest != [] {
      ContinuationsAreFull(rest[Slice(rest)..]);
      assert rest[Slice(rest)..] == [] ==> |Continuations(rest)| == 1;
      assert |rest| < 74 ==> rest[Slice(rest)..] == [];
    }
  }

  /** A line of at most 75 units is left alone, and of a longer one all physical lines but the last are full. */
  lemma FoldsAreFull(line: JsString)
    ensures |line| <= 75 ==> Chunks(line) == [line]
    ensures forall k :: 0 <= k < |Chunks(line)| - 1 ==> |Chunks(line)[k]| == 75
  {
    if |line| > 75 {
      ContinuationsAreFull(line[75..]);
      assert forall k :: 0 < k < |Chunks(line)| ==> Chunks(line)[k] == Continuations(line[75..])[k - 1];
    }
  }

  // --- Reading lines back ---

  predicate BreakAt(s: JsString, i: nat) { i + 1 < |s| && s[i] == CR && s[i + 1] == LF }

  function FirstBreak(s: JsString, from: nat): (r: nat)
    requires from <= |s|
    ensures from <= r <= |s| && (r < |s| ==> BreakAt(s, r))
    decreases |s| - from
  {
    if from == |s| || BreakAt(s, from) then from else FirstBreak(s, from + 1)
  }

  function PhysicalLines(s: JsString): seq<JsString> {
    if s == [] then []
    else
      var i := FirstBreak(s, 0);
      [s[..i]] + if i == |s| then [] else PhysicalLines(s[i + 2..])
  }

  predicate Folded(line: JsString) { line != [] && (line[0] == SPACE || line[0] == TAB) }

  /** Undoes folding: a line that starts with white space continues the one before it. */
  function Unfold(lines: seq<JsString>): seq<JsString>
    decreases |lines|
  {
    if lines == [] then []
    else if |lines| > 1 && Folded(lines[1]) then Unfold([lines[0] + lines[1][1..]] + lines[2..])
    else [lines[0]] + Unfold(lines[1..])
  }

  function ContentLines(text: JsString): seq<JsString> { Unfold(PhysicalLines(text)) }

  predicate OneLine(s: JsString) { forall i :: 0 <= i < |s| ==> !BreakAt(s, i) }

  lemma FirstBreakIs(a: JsString, b: JsString, from: nat)
    requires OneLine(a) && from <= |a|
    ensures FirstBreak(a + CRLF + b, from) == |a|
    decreases |a| - from
  {
    var s := a + CRLF + b;
    assert BreakAt(s, |a|);
    if from < |a| {
      assert !BreakAt(a, from);
      FirstBreakIs(a, b, from + 1);
    }
  }

  lemma FirstPhysicalLine(a: JsString, b: JsString)
    requires OneLine(a)
    ensures PhysicalLines(a + CRLF + b) == [a] + PhysicalLines(b)
  {
    FirstBreakIs(a, b, 0);
    var s := a + CRLF + b;
    assert s[..|a|] == a && s[|a| + 2..] == b;
    hide OneLine, FirstBreak;
  }

  function Terminated(lines: seq<JsString>): JsString {
    if lines == [] then [] else lines[0] + CRLF + Terminated(lines[1..])
  }

  lemma {:induction false} TerminatedConcat(a: seq<JsString>, b: seq<JsString>)
    ensures Terminated(a + b) == Terminated(a) + Terminated(b)
  {
    if a == [] {
      assert a + b == b;
    } else {
      assert (a + b)[1..] == a[1..] + b;
      TerminatedConcat(a[1..], b);
    }
  }

  lemma {:induction false} JoinTerminated(lines: seq<JsString>)
    requires lines != []
    ensures Join(lines) + CRLF == Terminated(lines)
  {
    if |lines| > 1 {
      JoinTerminated(lines[1..]);
      assert Join(lines) + CRLF == lines[0] + CRLF + (Join(lines[1..]) + CRLF);
    } else {
      assert lines == [lines[0]];
    }
  }

  lemma {:induction false} PhysicalLinesOf(lines: seq<JsString>)
    requires forall l :: l in lines ==> OneLine(l)
    ensures PhysicalLines(Terminated(lines)) == lines
  {
    if lines != [] {
      var rest := Terminated(lines[1..]);
      assert Terminated(lines) == lines[0] + CRLF + rest;
      hide OneLine, PhysicalLines, Terminated;
      FirstPhysicalLine(lines[0], rest);
      PhysicalLinesOf(lines[1..]);
    } else {
      assert Terminated(lines) == [];
    }
  }

  function AllChunks(lines: seq<JsString>): seq<JsString> {
    if lines == [] then [] else Chunks(lines[0]) + AllChunks(lines[1..])
  }

  function FoldAll(lines: seq<JsString>): (r: seq<JsString>)
    ensures |r| == |lines|
  {
    seq(|lines|, i requires 0 <= i < |lines| => Join(Chunks(lines[i])))
  }

  /** The file: every line folded, joined and terminated. */
  function TextOf(lines: seq<JsString>): JsString { Join(FoldAll(lines)) + CRLF }

  lemma {:induction false} FoldedTerminated(lines: seq<JsString>)
    ensures Terminated(FoldAll(lines)) == Terminated(AllChunks(lines))
  {
    if lines != [] {
      FoldedTerminated(lines[1..]);
      assert FoldAll(lines) == [Join(Chunks(lines[0]))] + FoldAll(lines[1..]);
      JoinTerminated(Chunks(lines[0]));
      TerminatedConcat(Chunks(lines[0]), AllChunks(lines[1..]));
    }
  }

  lemma TextIsTerminated(lines: seq<JsString>)
    requires lines != []
    ensures TextOf(lines) == Terminated(AllChunks(lines))
  {
    JoinTerminated(FoldAll(lines));
    FoldedTerminated(lines);
  }

  lemma OneLinePart(s: JsString, i: nat, j: nat)
    requires OneLine(s) && i <= j <= |s|
    ensures OneLine(s[i..j]) && OneLine([SPACE] + s[i..j])
  {
    forall k | 0 <= k < j - i
      ensures !BreakAt(s[i..j], k)
    {
      assert !BreakAt(s, i + k);
    }
    forall k | 0 <= k < j - i + 1
      ensures !BreakAt([SPACE] + s[i..j], k)
    {
      assert k > 0 ==> !BreakAt(s[i..j], k - 1);
    }
  }

  lemma {:induction false} ContinuationsAreLines(rest: JsString)
    requires OneLine(rest)
    ensures forall c :: c in Continuations(rest) ==> OneLine(c)
  {
    if rest != [] {
      var n := Slice(rest);
      OneLinePart(rest, 0, n);
      OneLinePart(rest, n, |rest|);
      assert rest[0..n] == rest[..n] && rest[n..|rest|] == rest[n..];
      hide OneLine;
      ContinuationsAreLines(rest[n..]);
    }
  }

  lemma ChunksAreLines(line: JsString)
    requires OneLine(line)
    ensures forall c :: c in Chunks(line) ==> OneLine(c)
  {
    if |line| > WIDTH {
      OneLinePart(line, 0, WIDTH);
      OneLinePart(line, WIDTH, |line|);
      assert line[0..WIDTH] == line[..WIDTH] && line[WIDTH..|line|] == line[WIDTH..];
      hide OneLine;
      ContinuationsAreLines(line[WIDTH..]);
    }
  }

  lemma {:induction false} AllChunksAreLines(lines: seq<JsString>)
    requires forall l :: l in lines ==> OneLine(l)
    ensures forall c :: c in AllChunks(lines) ==> OneLine(c)
  {
    if lines != [] {
      ChunksAreLines(lines[0]);
      hide OneLine;
      AllChunksAreLines(lines[1..]);
    }
  }

  lemma Regroup<T>(a: T, b: T, c: seq<T>, d: seq<T>)
    ensures [a] + ([b] + c) + d == [a, b] + (c + d)
    ensures [a] + (c + d) == [a] + c + d
  {
  }

  lemma Rejoin<T>(a: seq<T>, b: seq<T>, n: nat)
    requires n <= |b|
    ensures (a + b[..n]) + b[n..] == a + b
  {
  }

  lemma UnfoldStep(a: JsString, b: JsString, more: seq<JsString>)
    ensures Unfold([a, [SPACE] + b] + more) == Unfold([a + b] + more)
  {
    var lines := [a, [SPACE] + b] + more;
    assert lines[1][1..] == b && lines[2..] == more;
  }

  lemma {:induction false} UnfoldContinuations(start: JsString, rest: JsString, more: seq<JsString>)
    requires more == [] || !Folded(more[0])
    ensures Unfold([start] + Continuations(rest) + more) == [start + rest] + Unfold(more)
    decreases |rest|
  {
    var lines := [start] + Continuations(rest) + more;
    if rest == [] {
      assert lines == [start] + more && start + rest == start;
      assert lines[1..] == more;
    } else {
      var n := Slice(rest);
      var first, others := [SPACE] + rest[..n], Continuations(rest[n..]);
      assert Continuations(rest) == [first] + others;
      hide *;
      Regroup(start, first, others, more);
      UnfoldStep(start, rest[..n], others + more);
      Rejoin(start, rest, n);
      Regroup(start + rest[..n], first, others, more);
      UnfoldContinuations(start + rest[..n], rest[n..], more);
    }
  }

  lemma UnfoldChunks(line: JsString, more: seq<JsString>)
    requires more == [] || !Folded(more[0])
    ensures Unfold(Chunks(line) + more) == [line] + Unfold(more)
  {
    if |line| <= WIDTH {
      UnfoldContinuations(line, [], more);
      assert [line] + Continuations([]) + more == [line] + more && line + [] == line;
    } else {
      UnfoldContinuations(line[..WIDTH], line[WIDTH..], more);
      assert line[..WIDTH] + line[WIDTH..] == line;
    }
  }

  lemma {:induction false} UnfoldAllChunks(lines: seq<JsString>)
    requires forall l :: l in lines ==> l != [] && !Folded(l)
    ensures Unfold(AllChunks(lines)) == lines
  {
    if lines != [] {
      var more := AllChunks(lines[1..]);
      assert more != [] ==> more[0] == Chunks(lines[1])[0] && !Folded(lines[1]);
      UnfoldChunks(lines[0], more);
      assert forall l :: l in lines[1..] ==> l in lines;
      UnfoldAllChunks(lines[1..]);
    }
  }

  /** Splitting and unfolding a file gives back its lines. */
  lemma LinesReadBack(lines: seq<JsString>)
    requires lines != [] && forall l :: l in lines ==> l != [] && !Folded(l) && OneLine(l)
    ensures ContentLines(TextOf(lines)) == lines
  {
    TextIsTerminated(lines);
    AllChunksAreLines(lines);
    PhysicalLinesOf(AllChunks(lines));
    UnfoldAllChunks(lines);
  }

  lemma {:induction false} AllChunksFit(lines: seq<JsString>)
    ensures forall c :: c in AllChunks(lines) ==> |c| <= WIDTH
  {
    if lines != [] {
      ChunksFit(lines[0]);
      AllChunksFit(lines[1..]);
    }
  }

  /** No line of a file, as a reader splits it, is longer than 75 units. */
  lemma LinesFit(lines: seq<JsString>)
    requires lines != [] && forall l :: l in lines ==> OneLine(l)
    ensures forall c :: c in PhysicalLines(TextOf(lines)) ==> |c| <= WIDTH
  {
    TextIsTerminated(lines);
    AllChunksAreLines(lines);
    PhysicalLinesOf(AllChunks(lines));
    AllChunksFit(lines);
  }

  // --- Times ---

  /** A moment of the years 0 to 9999, in UTC. */
  datatype Moment = Moment(year: nat, month: nat, day: nat, hour: nat, minute: nat, second: nat, milli: nat)

  const DASH: CodeUnit := 0x2D
  const DOT: CodeUnit := 0x2E
  const CAPITAL_T: CodeUnit := 0x54
  const CAPITAL_Z: CodeUnit := 0x5A

  /** The last `width` decimal digits. */
  function Digits(n: nat, width: nat): (r: JsString)
    ensures |r| == width
    ensures forall i :: 0 <= i < width ==> 0x30 <= r[i] <= 0x39
  {
    if width == 0 then [] else Digits(n / 10, width - 1) + [0x30 + n % 10]
  }

  /** Date.prototype.toISOString */
  function ToIsoString(t: Moment): JsString {
    Digits(t.year, 4) + [DASH] + Digits(t.month, 2) + [DASH] + Digits(t.day, 2)
    + [CAPITAL_T] + Digits(t.hour, 2) + [COLON] + Digits(t.minute, 2) + [COLON] + Digits(t.second, 2)
    + [DOT] + Digits(t.milli, 3) + [CAPITAL_Z]
  }

  /** s.split('.')[0] */
  function BeforeDot(s: JsString): JsString {
    if s == [] || s[0] == DOT then [] else [s[0]] + BeforeDot(s[1..])
  }

  /** The one replacement of [-:] comes to replacing first dashes, then colons. */
  function ToIcsUtc(t: Moment): JsString {
    BeforeDot(ReplaceUnit(ReplaceUnit(ToIsoString(t), DASH, []), COLON, [])) + [CAPITAL_Z]
  }

  /** Date with UTC time, section 3.3.5 of RFC 5545. */
  function UtcDateTime(t: Moment): JsString {
    Digits(t.year, 4) + Digits(t.month, 2) + Digits(t.day, 2)
    + [CAPITAL_T] + Digits(t.hour, 2) + Digits(t.minute, 2) + Digits(t.second, 2) + [CAPITAL_Z]
  }

  lemma ReplaceConcats(a: JsString, b: JsString, c: JsString, d: JsString, e: JsString, u: CodeUnit, with: JsString)
    ensures ReplaceUnit(a + b + c + d + e, u, with)
      == ReplaceUnit(a, u, with) + ReplaceUnit(b, u, with) + ReplaceUnit(c, u, with) + ReplaceUnit(d, u, with) + ReplaceUnit(e, u, with)
  {
    hide ReplaceUnit;
    ReplaceConcat(a + b + c + d, e, u, with);
    ReplaceConcat(a + b + c, d, u, with);
    ReplaceConcat(a + b, c, u, with);
    ReplaceConcat(a, b, u, with);
  }

  lemma WithoutEmpty(a: JsString, b: JsString, c: JsString)
    ensures a + [] + b + [] + c == a + b + c
  {
    assert a + [] == a && a + [] + b + [] == a + b;
  }

  /** Both separators go. */
  lemma SeparatorsGo(a: JsString, u: CodeUnit, b: JsString, c: JsString)
    requires u !in a && u !in b && u !in c
    ensures ReplaceUnit(a + [u] + b + [u] + c, u, []) == a + b + c
  {
    hide ReplaceUnit;
    ReplaceConcats(a, [u], b, [u], c, u, []);
    ReplaceShort(u, u, u, []);
    ReplaceAbsent(a, u, []);
    ReplaceAbsent(b, u, []);
    ReplaceAbsent(c, u, []);
    WithoutEmpty(a, b, c);
  }

  lemma {:induction false} BeforeDotIs(a: JsString, b: JsString)
    requires DOT !in a
    ensures BeforeDot(a + [DOT] + b) == a
  {
    if a != [] {
      assert (a + [DOT] + b)[1..] == a[1..] + [DOT] + b;
      BeforeDotIs(a[1..], b);
    }
  }

  predicate AllDigits(s: JsString) { forall i :: 0 <= i < |s| ==> 0x30 <= s[i] <= 0x39 }

  lemma DashesGo(y: JsString, mo: JsString, d: JsString, h: JsString, rest: JsString)
    requires AllDigits(y) && AllDigits(mo) && AllDigits(d) && AllDigits(h) && DASH !in rest
    ensures ReplaceUnit(y + [DASH] + mo + [DASH] + d + [CAPITAL_T] + h + rest, DASH, []) == y + mo + d + [CAPITAL_T] + h + rest
  {
    var c := d + [CAPITAL_T] + h + rest;
    hide ReplaceUnit;
    assert y + [DASH] + mo + [DASH] + d + [CAPITAL_T] + h + rest == y + [DASH] + mo + [DASH] + c;
    assert y + mo + d + [CAPITAL_T] + h + rest == y + mo + c;
    SeparatorsGo(y, DASH, mo, c);
  }

  lemma ColonsGo(w: JsString, mi: JsString, s: JsString, rest: JsString)
    requires COLON !in w && AllDigits(mi) && AllDigits(s) && COLON !in rest
    ensures ReplaceUnit(w + ([COLON] + mi + [COLON] + s + rest), COLON, []) == w + mi + s + rest
  {
    hide ReplaceUnit;
    assert w + ([COLON] + mi + [COLON] + s + rest) == w + [COLON] + mi + [COLON] + (s + rest);
    assert w + mi + s + rest == w + mi + (s + rest);
    SeparatorsGo(w, COLON, mi, s + rest);
  }

  lemma TimestampForm(t: Moment)
    ensures ToIcsUtc(t) == UtcDateTime(t)
  {
    var y, mo, d := Digits(t.year, 4), Digits(t.month, 2), Digits(t.day, 2);
    var h, mi, s, ms := Digits(t.hour, 2), Digits(t.minute, 2), Digits(t.second, 2), Digits(t.milli, 3);
    hide Digits, ReplaceUnit, BeforeDot;
    var fraction := [DOT] + ms + [CAPITAL_Z];
    var rest := [COLON] + mi + [COLON] + s + fraction;
    var w := y + mo + d + [CAPITAL_T] + h;
    assert ToIsoString(t) == y + [DASH] + mo + [DASH] + d + [CAPITAL_T] + h + rest;
    DashesGo(y, mo, d, h, rest);
    ColonsGo(w, mi, s, fraction);
    assert w + mi + s + fraction == (w + mi + s) + [DOT] + (ms + [CAPITAL_Z]);
    BeforeDotIs(w + mi + s, ms + [CAPITAL_Z]);
  }

  // --- The calendar ---

  datatype Property = Property(name: JsString, value: JsString)

  /** The parameters of buildShowingIcs, and the current time. */
  datatype Showing = Showing(
    uid: JsString, now: Moment, start: Moment, end: Moment, summary: JsString, description: JsString, location: JsString)

  function Opening(): seq<Property> {
    [ Property(Js("BEGIN"), Js("VCALENDAR")),
      Property(Js("VERSION"), Js("2.0")),
      Property(Js("PRODID"), Js("-//Affordable Home Match//Showing//EN")),
      Property(Js("CALSCALE"), Js("GREGORIAN")),
      Property(Js("METHOD"), Js("PUBLISH")),
      Property(Js("BEGIN"), Js("VEVENT")) ]
  }

  function Details(s: Showing): seq<Property> {
    [ Property(Js("UID"), s.uid + Js("@affordablehomematch.com")),
      Property(Js("DTSTAMP"), ToIcsUtc(s.now)),
      Property(Js("DTSTART"), ToIcsUtc(s.start)),
      Property(Js("DTEND"), ToIcsUtc(s.end)),
      Property(Js("SUMMARY"), EscapeText(s.summary)),
      Property(Js("DESCRIPTION"), EscapeText(s.description)),
      Property(Js("LOCATION"), EscapeText(s.location)) ]
  }

  function Closing(): seq<Property> {
    [ Property(Js("STATUS"), Js("CONFIRMED")),
      Property(Js("END"), Js("VEVENT")),
      Property(Js("END"), Js("VCALENDAR")) ]
  }

  function Properties(s: Showing): seq<Property> { Opening() + Details(s) + Closing() }

  function LineOf(p: Property): JsString { p.name + [COLON] + p.value }

  function Lines(properties: seq<Property>): (r: seq<JsString>)
    ensures |r| == |properties|
  {
    seq(|properties|, i requires 0 <= i < |properties| => LineOf(properties[i]))
  }

  function Calendar(s: Showing): JsString { TextOf(Lines(Properties(s))) }

  method BuildShowingIcs(s: Showing) returns (file: seq<Octet>)
    ensures file == ToBytes(Calendar(s))
  {
    var lines := Lines(Properties(s));
    var folded := [];
    for i := 0 to |lines|
      invariant |folded| == i && forall k :: 0 <= k < i ==> folded[k] == Join(Chunks(lines[k]))
    {
      var line := FoldLine(lines[i]);
      folded := folded + [line];
    }
    assert folded == FoldAll(lines);
    file := ToBytes(Join(folded) + CRLF);
  }

  // --- Reading the calendar back ---

  function FirstColon(s: JsString): (r: nat)
    ensures r <= |s| && (r < |s| ==> s[r] == COLON)
  {
    if s == [] || s[0] == COLON then 0 else 1 + FirstColon(s[1..])
  }

  /** None if there is no colon. */
  function ReadLine(line: JsString): Option<Property> {
    var i := FirstColon(line);
    if i == |line| then None else Some(Property(line[..i], line[i + 1..]))
  }

  function ReadLines(lines: seq<JsString>): (r: seq<Option<Property>>)
    ensures |r| == |lines|
  {
    seq(|lines|, i requires 0 <= i < |lines| => ReadLine(lines[i]))
  }

  function ReadCalendar(text: JsString): seq<Option<Property>> { ReadLines(ContentLines(text)) }

  predicate CapitalLetters(s: JsString) { s != [] && forall i :: 0 <= i < |s| ==> 0x41 <= s[i] <= 0x5A }

  lemma {:induction false} FirstColonIs(a: JsString, b: JsString)
    requires COLON !in a
    ensures FirstColon(a + [COLON] + b) == |a|
  {
    if a != [] {
      assert (a + [COLON] + b)[1..] == a[1..] + [COLON] + b;
      FirstColonIs(a[1..], b);
    }
  }

  lemma LineReadsBack(p: Property)
    requires COLON !in p.name
    ensures ReadLine(LineOf(p)) == Some(p)
  {
    FirstColonIs(p.name, p.value);
    var l := LineOf(p);
    assert l[..|p.name|] == p.name && l[|p.name| + 1..] == p.value;
  }

  lemma LineIsOne(p: Property)
    requires CapitalLetters(p.name) && OneLine(p.value)
    ensures LineOf(p) != [] && !Folded(LineOf(p)) && OneLine(LineOf(p))
  {
    var l := LineOf(p);
    forall i | 0 <= i < |l|
      ensures !BreakAt(l, i)
    {
      assert i > |p.name| ==> !BreakAt(p.value, i - |p.name| - 1);
    }
  }

  lemma TextReadsBack(properties: seq<Property>)
    requires properties != []
    requires forall p :: p in properties ==> Readable(p)
    ensures |ReadCalendar(TextOf(Lines(properties)))| == |properties|
    ensures forall i :: 0 <= i < |properties| ==> ReadCalendar(TextOf(Lines(properties)))[i] == Some(properties[i])
  {
    var lines := Lines(properties);
    forall i | 0 <= i < |properties|
      ensures lines[i] != [] && !Folded(lines[i]) && OneLine(lines[i]) && ReadLine(lines[i]) == Some(properties[i])
    {
      assert properties[i] in properties;
      LineIsOne(properties[i]);
      LineReadsBack(properties[i]);
    }
    hide OneLine, Folded, ReadLine, LineOf, ContentLines, TextOf;
    LinesReadBack(lines);
  }

  /** A property whose line can be read back. */
  predicate Readable(p: Property) { CapitalLetters(p.name) && OneLine(p.value) }

  /** A property of capital letters and printable ASCII. */
  predicate Literal(p: Property) {
    CapitalLetters(p.name) && forall i :: 0 <= i < |p.value| ==> 0x20 <= p.value[i] <= 0x7E
  }

  lemma IsLiteral(name: string, value: string)
    requires name != "" && forall j :: 0 <= j < |name| ==> 'A' <= name[j] <= 'Z'
    requires forall j :: 0 <= j < |value| ==> ' ' <= value[j] <= '~'
    ensures Literal(Property(Js(name), Js(value)))
  {
  }

  lemma OpeningIsLiteral()
    ensures forall p :: p in Opening() ==> Literal(p)
  {
    IsLiteral("BEGIN", "VCALENDAR");
    IsLiteral("VERSION", "2.0");
    IsLiteral("PRODID", "-//Affordable Home Match//Showing//EN");
    IsLiteral("CALSCALE", "GREGORIAN");
    IsLiteral("METHOD", "PUBLISH");
    IsLiteral("BEGIN", "VEVENT");
    hide Literal, Js;
  }

  lemma ClosingIsLiteral()
    ensures forall p :: p in Closing() ==> Literal(p)
  {
    IsLiteral("STATUS", "CONFIRMED");
    IsLiteral("END", "VEVENT");
    IsLiteral("END", "VCALENDAR");
    hide Literal, Js;
  }

  lemma LiteralIsReadable(p: Property)
    requires Literal(p)
    ensures Readable(p)
  {
  }

  lemma FrameIsReadable()
    ensures forall p :: p in Opening() ==> Readable(p)
    ensures forall p :: p in Closing() ==> Readable(p)
  {
    OpeningIsLiteral();
    ClosingIsLiteral();
    hide Opening, Closing, Literal, Readable;
    forall p | p in Opening() || p in Closing()
      ensures Readable(p)
    {
      LiteralIsReadable(p);
    }
  }

  lemma IsName(name: string)
    requires name != "" && forall j :: 0 <= j < |name| ==> 'A' <= name[j] <= 'Z'
    ensures CapitalLetters(Js(name))
  {
  }

  lemma DetailNames(s: Showing)
    ensures forall p :: p in Details(s) ==> CapitalLetters(p.name)
  {
    IsName("UID");
    IsName("DTSTAMP");
    IsName("DTSTART");
    IsName("DTEND");
    IsName("SUMMARY");
    IsName("DESCRIPTION");
    IsName("LOCATION");
    hide CapitalLetters, Js, EscapeText, ToIcsUtc;
  }

  lemma EscapedIsOneLine(value: JsString)
    ensures OneLine(EscapeText(value))
  {
    ChainIsOnePass(value);
    OnePassHasNoLf(value);
  }

  lemma TimeIsOneLine(t: Moment)
    ensures OneLine(ToIcsUtc(t))
  {
    TimestampForm(t);
    hide ToIcsUtc, Digits;
  }

  lemma UidIsOneLine(uid: JsString)
    requires OneLine(uid)
    ensures OneLine(uid + Js("@affordablehomematch.com"))
  {
    var domain := "@affordablehomematch.com";
    assert forall j :: 0 <= j < |domain| ==> ' ' <= domain[j] <= '~';
    var line := uid + Js(domain);
    forall i | 0 <= i < |line|
      ensures !BreakAt(line, i)
    {
      assert i < |uid| ==> !BreakAt(uid, i);
    }
  }

  lemma DetailsAreReadable(s: Showing)
    requires OneLine(s.uid)
    ensures forall p :: p in Details(s) ==> Readable(p)
  {
    UidIsOneLine(s.uid);
    TimeIsOneLine(s.now);
    TimeIsOneLine(s.start);
    TimeIsOneLine(s.end);
    EscapedIsOneLine(s.summary);
    EscapedIsOneLine(s.description);
    EscapedIsOneLine(s.location);
    DetailNames(s);
    hide EscapeText, ToIcsUtc, OneLine, Js, CapitalLetters;
    assert forall p :: p in Details(s) ==> OneLine(p.value);
  }

  /** Splitting and unfolding a calendar gives back its properties. */
  lemma PropertiesReadBack(s: Showing)
    requires OneLine(s.uid)
    ensures |ReadCalendar(Calendar(s))| == |Properties(s)|
    ensures forall i :: 0 <= i < |Properties(s)| ==> ReadCalendar(Calendar(s))[i] == Some(Properties(s)[i])
  {
    FrameIsReadable();
    DetailsAreReadable(s);
    assert |Opening()| > 0;
    hide OneLine, Readable, ReadCalendar, TextOf, Opening, Details, Closing;
    TextReadsBack(Properties(s));
  }

  /** What a reader splits a calendar into. */
  lemma CalendarLines(s: Showing)
    requires OneLine(s.uid)
    ensures PhysicalLines(Calendar(s)) == AllChunks(Lines(Properties(s)))
  {
    FrameIsReadable();
    DetailsAreReadable(s);
    var properties, lines := Properties(s), Lines(Properties(s));
    assert |Opening()| > 0;
    hide OneLine, Readable, Opening, Details, Closing, PhysicalLines, AllChunks, TextOf, LineOf;
    forall i | 0 <= i < |lines|
      ensures OneLine(lines[i])
    {
      assert properties[i] in properties;
      ReadableIsOne(properties[i]);
    }
    TextIsTerminated(lines);
    AllChunksAreLines(lines);
    PhysicalLinesOf(AllChunks(lines));
  }

  lemma ReadableIsOne(p: Property)
    requires Readable(p)
    ensures OneLine(LineOf(p))
  {
    LineIsOne(p);
  }

  // --- What a reader finds under each name ---

  /** The one property of that name has this value. */
  ghost predicate Says(read: seq<Option<Property>>, name: string, value: JsString) {
    exists i :: 0 <= i < |read| && SaysAt(read, i, name, value) && OnlyAt(read, i, name)
  }

  predicate SaysAt(read: seq<Option<Property>>, i: nat, name: string, value: JsString) {
    i < |read| && read[i] == Some(Property(Js(name), value))
  }

  ghost predicate OnlyAt(read: seq<Option<Property>>, i: nat, name: string) {
    forall k :: 0 <= k < |read| && read[k].Some? && read[k].value.name == Js(name) ==> k == i
  }

  /** The one property of that name stands for this text. */
  ghost predicate SaysText(read: seq<Option<Property>>, name: string, text: JsString) {
    exists value :: Says(read, name, value) && Unescape(value) == Some(text)
  }

  /** The decimal number that digits stand for. */
  function Number(digits: JsString): int {
    if digits == [] then 0 else 10 * Number(digits[..|digits| - 1]) + (digits[|digits| - 1] as int - 0x30)
  }

  /** A moment with a four-figure year and two-figure fields. */
  predicate OnClock(t: Moment) {
    t.year < 10000 && t.month < 100 && t.day < 100 && t.hour < 100 && t.minute < 100 && t.second < 100
  }

  /** Four figures for the year, two for the month and the day, a T, two each for the time, a Z. */
  predicate TellsTime(value: JsString, t: Moment) {
    && |value| == 16 && value[8] == 0x54 && value[15] == 0x5A
    && Number(value[..4]) == t.year && Number(value[4..6]) == t.month && Number(value[6..8]) == t.day
    && Number(value[9..11]) == t.hour && Number(value[11..13]) == t.minute && Number(value[13..15]) == t.second
  }

  ghost predicate SaysTime(read: seq<Option<Property>>, name: string, t: Moment) {
    exists value :: Says(read, name, value) && (OnClock(t) ==> TellsTime(value, t))
  }

  lemma DigitsRead(n: nat)
    ensures n < 100 ==> Number(Digits(n, 2)) == n
    ensures n < 10000 ==> Number(Digits(n, 4)) == n
  {
    assert Power10(2) == 100 && Power10(4) == 10000;
    if n < 100 { NumberOfDigits(n, 2); }
    if n < 10000 { NumberOfDigits(n, 4); }
  }

  function Power10(k: nat): (r: nat)
    ensures r > 0
  {
    if k == 0 then 1 else 10 * Power10(k - 1)
  }

  lemma {:induction false} NumberOfDigits(n: nat, width: nat)
    requires n < Power10(width)
    ensures Number(Digits(n, width)) == n
  {
    if width > 0 {
      NumberOfDigits(n / 10, width - 1);
      var d := Digits(n, width);
      assert d[..width - 1] == Digits(n / 10, width - 1);
    }
  }

  lemma TimestampTells(t: Moment)
    requires OnClock(t)
    ensures TellsTime(ToIcsUtc(t), t)
  {
    TimestampForm(t);
    SlicesOf(Digits(t.year, 4), Digits(t.month, 2), Digits(t.day, 2), Digits(t.hour, 2), Digits(t.minute, 2), Digits(t.second, 2));
    hide Digits, Number, ToIcsUtc;
    DigitsRead(t.year);
    DigitsRead(t.month);
    DigitsRead(t.day);
    DigitsRead(t.hour);
    DigitsRead(t.minute);
    DigitsRead(t.second);
  }

  lemma SlicesOf(y: JsString, mo: JsString, d: JsString, h: JsString, mi: JsString, s: JsString)
    requires |y| == 4 && |mo| == |d| == |h| == |mi| == |s| == 2
    ensures
      var z := y + mo + d + [CAPITAL_T] + h + mi + s + [CAPITAL_Z];
      && |z| == 16 && z[8] == CAPITAL_T && z[15] == CAPITAL_Z
      && z[..4] == y && z[4..6] == mo && z[6..8] == d && z[9..11] == h && z[11..13] == mi && z[13..15] == s
  {
  }

  const NAMES := [
    "BEGIN", "VERSION", "PRODID", "CALSCALE", "METHOD", "BEGIN", "UID", "DTSTAMP", "DTSTART", "DTEND",
    "SUMMARY", "DESCRIPTION", "LOCATION", "STATUS", "END", "END"]

  lemma NamesAreCapital()
    ensures forall k :: 0 <= k < |NAMES| ==> forall i :: 0 <= i < |NAMES[k]| ==> NAMES[k][i] < 128 as char
  {
  }

  lemma JsIsInjective(a: string, b: string)
    requires Js(a) == Js(b) && forall i :: 0 <= i < |a| ==> a[i] < 128 as char
    requires forall i :: 0 <= i < |b| ==> b[i] < 128 as char
    ensures a == b
  {
    forall i | 0 <= i < |a|
      ensures a[i] == b[i]
    {
      assert Js(a)[i] == Js(b)[i];
    }
  }

  lemma NamesInOrder(s: Showing)
    ensures |Properties(s)| == 16 == |NAMES|
    ensures forall i :: 0 <= i < 16 ==> Properties(s)[i].name == Js(NAMES[i])
  {
    hide Js, ToIcsUtc, EscapeText;
  }

  lemma ValuesInOrder(s: Showing)
    ensures |Properties(s)| == 16
    ensures
      var p := Properties(s);
      && p[6].value == s.uid + Js("@affordablehomematch.com")
      && p[7].value == ToIcsUtc(s.now) && p[8].value == ToIcsUtc(s.start) && p[9].value == ToIcsUtc(s.end)
      && p[10].value == EscapeText(s.summary) && p[11].value == EscapeText(s.description) && p[12].value == EscapeText(s.location)
  {
    hide Js, ToIcsUtc, EscapeText;
  }

  /** The properties that do not depend on the showing, in their places. */
  ghost predicate Framed(read: seq<Option<Property>>) {
    && |read| == 16
    && SaysAt(read, 0, "BEGIN", Js("VCALENDAR")) && SaysAt(read, 1, "VERSION", Js("2.0"))
    && SaysAt(read, 2, "PRODID", Js("-//Affordable Home Match//Showing//EN"))
    && SaysAt(read, 3, "CALSCALE", Js("GREGORIAN")) && SaysAt(read, 4, "METHOD", Js("PUBLISH"))
    && SaysAt(read, 5, "BEGIN", Js("VEVENT")) && SaysAt(read, 13, "STATUS", Js("CONFIRMED"))
    && SaysAt(read, 14, "END", Js("VEVENT")) && SaysAt(read, 15, "END", Js("VCALENDAR"))
  }

  lemma FrameInOrder(s: Showing)
    ensures
      var p := Properties(s);
      && |p| == 16
      && p[0].value == Js("VCALENDAR") && p[1].value == Js("2.0") && p[2].value == Js("-//Affordable Home Match//Showing//EN")
      && p[3].value == Js("GREGORIAN") && p[4].value == Js("PUBLISH") && p[5].value == Js("VEVENT")
      && p[13].value == Js("CONFIRMED") && p[14].value == Js("VEVENT") && p[15].value == Js("VCALENDAR")
  {
    hide Js, ToIcsUtc, EscapeText;
  }

  /** Everything was read in order. */
  ghost predicate AllRead(read: seq<Option<Property>>, p: seq<Property>) {
    |read| == |p| == 16 && forall i :: 0 <= i < 16 ==> read[i] == Some(p[i])
  }

  lemma FrameReadsBack(s: Showing, read: seq<Option<Property>>)
    requires AllRead(read, Properties(s))
    ensures Framed(read)
  {
    FrameInOrder(s);
    NamesInOrder(s);
    hide Js, Properties;
  }

  lemma NameIsFound(s: Showing, read: seq<Option<Property>>, i: nat)
    requires AllRead(read, Properties(s)) && 6 <= i < 13
    ensures |Properties(s)| == 16 && Says(read, NAMES[i], Properties(s)[i].value)
  {
    NamesInOrder(s);
    NamesAreCapital();
    hide Js, Properties;
    forall k | 0 <= k < 16 && read[k].Some? && read[k].value.name == Js(NAMES[i])
      ensures k == i
    {
      JsIsInjective(NAMES[k], NAMES[i]);
    }
    assert SaysAt(read, i, NAMES[i], Properties(s)[i].value) && OnlyAt(read, i, NAMES[i]);
  }

  lemma TimeIsSaid(read: seq<Option<Property>>, name: string, t: Moment)
    requires Says(read, name, ToIcsUtc(t))
    ensures SaysTime(read, name, t)
  {
    if OnClock(t) { TimestampTells(t); }
    hide Says, ToIcsUtc, TellsTime;
  }

  lemma TextIsSaid(read: seq<Option<Property>>, name: string, text: JsString)
    requires Says(read, name, EscapeText(text))
    ensures SaysText(read, name, text)
  {
    UnescapeUndoes(text);
    hide Says, EscapeText;
  }

  /**
   Splitting, unfolding and unescaping a calendar: sixteen properties, of which one each is named for the
   identity, the three times and the three texts and says what was given, and the rest is as written here.
   No line the file is split into is longer than 75 units.
   */
  lemma CalendarReadsBack(s: Showing)
    requires OneLine(s.uid)
    ensures forall c :: c in PhysicalLines(Calendar(s)) ==> |c| <= 75
    ensures
      var read := ReadCalendar(Calendar(s));
      && Framed(read)
      && Says(read, "UID", s.uid + Js("@affordablehomematch.com"))
      && SaysTime(read, "DTSTAMP", s.now) && SaysTime(read, "DTSTART", s.start) && SaysTime(read, "DTEND", s.end)
      && SaysText(read, "SUMMARY", s.summary) && SaysText(read, "DESCRIPTION", s.description)
      && SaysText(read, "LOCATION", s.location)
  {
    var read := ReadCalendar(Calendar(s));
    assert WIDTH == 75;
    assert NAMES[6] == "UID" && NAMES[7] == "DTSTAMP" && NAMES[8] == "DTSTART" && NAMES[9] == "DTEND";
    assert NAMES[10] == "SUMMARY" && NAMES[11] == "DESCRIPTION" && NAMES[12] == "LOCATION";
    hide *;
    CalendarLines(s);
    AllChunksFit(Lines(Properties(s)));
    PropertiesReadBack(s);
    ValuesInOrder(s);
    IsAllRead(read, Properties(s));
    FrameReadsBack(s, read);
    EveryNameIsFound(s, read);
    TimeIsSaid(read, "DTSTAMP", s.now);
    TimeIsSaid(read, "DTSTART", s.start);
    TimeIsSaid(read, "DTEND", s.end);
    TextIsSaid(read, "SUMMARY", s.summary);
    TextIsSaid(read, "DESCRIPTION", s.description);
    TextIsSaid(read, "LOCATION", s.location);
  }

  lemma IsAllRead(read: seq<Option<Property>>, p: seq<Property>)
    requires |read| == |p| == 16 && forall i :: 0 <= i < |p| ==> read[i] == Some(p[i])
    ensures AllRead(read, p)
  {
  }

  lemma EveryNameIsFound(s: Showing, read: seq<Option<Property>>)
    requires AllRead(read, Properties(s))
    ensures |Properties(s)| == 16
    ensures forall i :: 6 <= i < 13 ==> Says(read, NAMES[i], Properties(s)[i].value)
  {
    forall i | 6 <= i < 13
      ensures |Properties(s)| == 16 && Says(read, NAMES[i], Properties(s)[i].value)
    {
      NameIsFound(s, read, i);
    }
  }
}
