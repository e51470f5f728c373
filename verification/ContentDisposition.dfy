/**
 * File names in an HTTP header: the API prints them (content-disposition.util.ts) and the dashboard
 * parses them back (api.ts).
 */
module ContentDisposition {
  import opened JsText
  import opened Platform
  import opened UriComponent

  const QUOTE: CodeUnit := 0x22
  const SEMICOLON: CodeUnit := 0x3B
  const UNDERSCORE: CodeUnit := 0x5F

  datatype Mode = Inline | Attachment

  // --- The printer ---

  predicate Stripped(u: CodeUnit) { u == 0x0D || u == 0x0A || u == QUOTE }

  predicate Printable(u: CodeUnit) { 0x20 <= u <= 0x7E }

  function Clean(s: JsString): (r: JsString)
    ensures forall i :: 0 <= i < |r| ==> !Stripped(r[i])
  {
    if s == [] then [] else (if Stripped(s[0]) then [] else [s[0]]) + Clean(s[1..])
  }

  function Ascii(s: JsString): (r: JsString)
    ensures |r| == |s|
    ensures forall i :: 0 <= i < |s| ==> r[i] == if Printable(s[i]) then s[i] else UNDERSCORE
  {
    seq(|s|, i requires 0 <= i < |s| => if Printable(s[i]) then s[i] else UNDERSCORE)
  }

  function Download(): JsString { Js("download") }

  function Opening(): JsString { Js("filename=\"") }

  function Middle(): JsString { Js("\"; filename*=UTF-8''") }

  function Fallback(cleaned: JsString): JsString {
    if cleaned == [] then Download() else Ascii(cleaned)
  }

  function ModeText(mode: Mode): JsString {
    match mode case Inline => Js("inline; ") case Attachment => Js("attachment; ")
  }

  function Start(mode: Mode): JsString { ModeText(mode) + Opening() }

  function Header(mode: Mode, fallback: JsString, encoded: JsString): JsString {
    Start(mode) + fallback + Middle() + encoded
  }

  /** None is the URIError of encodeURIComponent. */
  function Build(fileName: JsString, mode: Mode): Option<JsString> {
    var cleaned := Clean(fileName);
    var encoded := Encode(cleaned);
    if encoded.None? then None else Some(Header(mode, Fallback(cleaned), encoded.value))
  }

  // --- The parser ---

  /** Case-insensitive comparison: no unit beyond ASCII has an ASCII letter as its case variant. */
  function LowerUnit(u: CodeUnit): CodeUnit { if 0x41 <= u <= 0x5A then u + 0x20 else u }

  predicate ReadsAt(d: JsString, i: int, lower: JsString) {
    0 <= i <= i + |lower| <= |d| && forall j :: 0 <= j < |lower| ==> LowerUnit(d[i + j]) == lower[j]
  }

  function Marker(): JsString { Js("filename*=utf-8''") }

  function PlainKey(): JsString { Js("filename=") }

  const MARKER_LENGTH := 17

  /** filename\*=UTF-8''([^;]+) matches here. */
  predicate StarAt(d: JsString, i: int) {
    ReadsAt(d, i, Marker()) && i + MARKER_LENGTH < |d| && d[i + MARKER_LENGTH] != SEMICOLON
  }

  function LeftmostStar(d: JsString, from: nat): (r: Option<nat>)
    ensures r.Some? ==> StarAt(d, r.value)
    decreases |d| - from
  {
    if from >= |d| then None else if StarAt(d, from) then Some(from) else LeftmostStar(d, from + 1)
  }

  predicate InName(u: CodeUnit) { u != QUOTE && u != SEMICOLON }

  /** Where the name of filename="?([^";]+)"? starts, if that matches here. */
  function PlainAt(d: JsString, i: nat): (r: Option<nat>)
    ensures r.Some? ==> r.value < |d| && InName(d[r.value])
  {
    if !ReadsAt(d, i, PlainKey()) then None
    else
      var j := if i + 9 < |d| && d[i + 9] == QUOTE then i + 10 else i + 9;
      if j < |d| && InName(d[j]) then Some(j) else None
  }

  function LeftmostPlain(d: JsString, from: nat): (r: Option<nat>)
    ensures r.Some? ==> r.value < |d| && InName(d[r.value])
    decreases |d| - from
  {
    if from >= |d| then None
    else if PlainAt(d, from).Some? then PlainAt(d, from) else LeftmostPlain(d, from + 1)
  }

  function BeforeSemicolon(s: JsString): JsString {
    if s == [] || s[0] == SEMICOLON then [] else [s[0]] + BeforeSemicolon(s[1..])
  }

  function NamePrefix(s: JsString): JsString {
    if s == [] || !InName(s[0]) then [] else [s[0]] + NamePrefix(s[1..])
  }

  /** What the extended parameter at `star` says; None is the URIError of decodeURIComponent. */
  function ExtendedName(d: JsString, star: nat): Option<JsString>
    requires StarAt(d, star)
  {
    Decode(BeforeSemicolon(d[star + MARKER_LENGTH..]))
  }

  function PlainName(d: JsString): JsString {
    var start := LeftmostPlain(d, 0);
    if start.Some? then NamePrefix(d[start.value..]) else Download()
  }

  /** No header reads as []. */
  function Parse(d: JsString): Option<JsString> {
    var star := LeftmostStar(d, 0);
    if star.Some? then ExtendedName(d, star.value) else Some(PlainName(d))
  }

  // --- Printing, then parsing ---

  // The literals, spelled out.

  lemma InlineUnits()
    ensures Js("inline; ") == [0x69, 0x6E, 0x6C, 0x69, 0x6E, 0x65, 0x3B, 0x20]
  {
    var s := "inline; ";
    assert |s| == 8;
  }

  lemma AttachmentUnits()
    ensures Js("attachment; ") == [0x61, 0x74, 0x74, 0x61, 0x63, 0x68, 0x6D, 0x65, 0x6E, 0x74, 0x3B, 0x20]
  {
    var s := "attachment; ";
    assert |s| == 12;
  }

  lemma StartUnits()
    ensures Opening() == [0x66, 0x69, 0x6C, 0x65, 0x6E, 0x61, 0x6D, 0x65, 0x3D, 0x22]
  {
    var s := "filename=\"";
    assert |s| == 10;
  }

  lemma MiddleUnits()
    ensures Middle() == [0x22, 0x3B, 0x20, 0x66, 0x69, 0x6C, 0x65, 0x6E, 0x61, 0x6D, 0x65, 0x2A, 0x3D, 0x55, 0x54, 0x46, 0x2D, 0x38, 0x27, 0x27]
  {
    var s := "\"; filename*=UTF-8''";
    assert |s| == 20;
  }

  lemma MarkerText()
    ensures Marker() == [0x66, 0x69, 0x6C, 0x65, 0x6E, 0x61, 0x6D, 0x65, 0x2A, 0x3D, 0x75, 0x74, 0x66, 0x2D, 0x38, 0x27, 0x27]
  {
    var s := "filename*=utf-8''";
    assert |s| == 17;
  }

  lemma PlainUnits()
    ensures PlainKey() == [0x66, 0x69, 0x6C, 0x65, 0x6E, 0x61, 0x6D, 0x65, 0x3D]
  {
    var s := "filename=";
    assert |s| == 9;
  }

  lemma DownloadUnits()
    ensures Download() == [0x64, 0x6F, 0x77, 0x6E, 0x6C, 0x6F, 0x61, 0x64]
  {
    var s := "download";
    assert |s| == 8;
  }

  /** The name holds what the parser takes for the extended parameter. */
  predicate LiveMarkerAt(name: JsString, k: int) {
    ReadsAt(name, k, Marker()) && (k + MARKER_LENGTH < |name| ==> name[k + MARKER_LENGTH] != SEMICOLON)
  }

  predicate HasLiveMarker(name: JsString) {
    exists k :: 0 <= k < |name| && LiveMarkerAt(name, k)
  }

  lemma MarkerUnits()
    ensures |Marker()| == MARKER_LENGTH && Marker()[0] == 0x66 && Marker()[8] == 0x2A
    ensures forall j :: 0 <= j < MARKER_LENGTH ==> Printable(Marker()[j]) && Marker()[j] != UNDERSCORE && Marker()[j] != QUOTE
  {
    MarkerText();
    hide Js;
  }

  /** Start(mode), spelled out as far as it matters: an f only where the parameter name starts. */
  lemma StartUnitsOf(mode: Mode)
    ensures |Start(mode)| == |ModeText(mode)| + 10 && |ModeText(mode)| > 0
    ensures forall j :: 0 <= j < |Start(mode)| ==> (LowerUnit(Start(mode)[j]) == 0x66 <==> j == |ModeText(mode)|)
    ensures forall j :: 0 <= j < |Start(mode)| ==> Printable(Start(mode)[j]) && (Start(mode)[j] == QUOTE <==> j == |Start(mode)| - 1)
    ensures Start(mode)[|ModeText(mode)|..] == Opening() && PlainKey() <= Opening()
    ensures Start(mode)[|ModeText(mode)| + 8] == 0x3D
  {
    ModeUnits(mode);
    OpeningUnits();
    hide Js, ModeText, Opening;
    var t, o := ModeText(mode), Opening();
    assert forall j :: 0 <= j < |Start(mode)| ==> Start(mode)[j] == if j < |t| then t[j] else o[j - |t|];
    hide Start;
  }

  lemma ModeUnits(mode: Mode)
    ensures |ModeText(mode)| > 0
    ensures forall j :: 0 <= j < |ModeText(mode)| ==>
      LowerUnit(ModeText(mode)[j]) != 0x66 && Printable(ModeText(mode)[j]) && ModeText(mode)[j] != QUOTE
  {
    InlineUnits();
    AttachmentUnits();
    hide Js;
  }

  lemma OpeningUnits()
    ensures |Opening()| == 10 && PlainKey() <= Opening() && Opening()[8] == 0x3D
    ensures forall j :: 0 <= j < |Opening()| ==>
      (LowerUnit(Opening()[j]) == 0x66 <==> j == 0) && Printable(Opening()[j]) && (Opening()[j] == QUOTE <==> j == 9)
  {
    StartUnits();
    PlainUnits();
    hide Js;
  }

  lemma ReadsNot(d: JsString, i: nat, lower: JsString, j: nat)
    requires j < |lower| && (i + j < |d| ==> LowerUnit(d[i + j]) != lower[j])
    ensures !ReadsAt(d, i, lower)
  {
  }

  /** Nothing before the name starts a marker. */
  lemma StartHasNoMarker(mode: Mode, d: JsString, i: nat)
    requires Start(mode) <= d && i < |Start(mode)|
    ensures !ReadsAt(d, i, Marker())
  {
    MarkerUnits();
    StartUnitsOf(mode);
    hide Js, Start, ModeText, Marker, ReadsAt;
    assert d[i] == Start(mode)[i];
    if i == |ModeText(mode)| {
      assert d[i + 8] == Start(mode)[i + 8];
      ReadsNot(d, i, Marker(), 8);
    } else {
      ReadsNot(d, i, Marker(), 0);
    }
  }

  lemma LeftmostIs(d: JsString, from: nat, i: nat)
    requires from <= i < |d| && StarAt(d, i)
    requires forall j :: from <= j < i ==> !StarAt(d, j)
    ensures LeftmostStar(d, from) == Some(i)
    decreases i - from
  {
    if from < i { LeftmostIs(d, from + 1, i); }
  }

  lemma NoStar(d: JsString, from: nat)
    requires forall j :: from <= j < |d| ==> !StarAt(d, j)
    ensures LeftmostStar(d, from) == None
    decreases |d| - from
  {
    if from < |d| { NoStar(d, from + 1); }
  }

  lemma {:induction false} BeforeSemicolonStops(s: JsString, rest: JsString)
    ensures BeforeSemicolon(s + [SEMICOLON] + rest) == BeforeSemicolon(s)
    ensures |BeforeSemicolon(s)| <= |s|
  {
    if s != [] {
      assert (s + [SEMICOLON] + rest)[1..] == s[1..] + [SEMICOLON] + rest;
      BeforeSemicolonStops(s[1..], rest);
    }
  }

  lemma {:induction false} BeforeSemicolonAll(s: JsString)
    requires forall k :: 0 <= k < |s| ==> s[k] != SEMICOLON
    ensures BeforeSemicolon(s) == s
  {
    if s != [] { BeforeSemicolonAll(s[1..]); }
  }

  /** Where the parts of a header lie: the real marker starts three units after the quoted name. */
  lemma Layout(mode: Mode, fallback: JsString, encoded: JsString)
    ensures
      var h := Header(mode, fallback, encoded);
      var q := |Start(mode)| + |fallback|;
      |h| == q + 20 + |encoded| && Start(mode) <= h && h[|Start(mode)|..q] == fallback
      && h[q] == QUOTE && h[q + 1] == SEMICOLON && h[q + 2] == 0x20 && ReadsAt(h, q + 3, Marker()) && h[q + 20..] == encoded
  {
    var h := Header(mode, fallback, encoded);
    var q := |Start(mode)| + |fallback|;
    MiddleUnits();
    MarkerText();
    var middle := Middle();
    hide Start, Js;
    assert forall j :: 0 <= j < |Marker()| ==> LowerUnit(middle[3 + j]) == Marker()[j];
    hide LowerUnit, Marker;
    assert forall j :: 0 <= j < |middle| ==> h[q + j] == middle[j];
  }

  /** Which positions of a header match the extended parameter, up to where it really is. */
  lemma StarsOfHeader(mode: Mode, fallback: JsString, encoded: JsString, i: nat)
    requires i <= |Start(mode)| + |fallback| + 3
    requires forall k :: 0 <= k < |fallback| ==> fallback[k] != QUOTE
    requires forall k :: 0 <= k < |encoded| ==> encoded[k] != SEMICOLON
    ensures
      var h := Header(mode, fallback, encoded);
      var n := |Start(mode)|;
      (StarAt(h, i) <==> ((n <= i < n + |fallback| && LiveMarkerAt(fallback, i - n))
                          || (i == n + |fallback| + 3 && encoded != [])))
  {
    var h := Header(mode, fallback, encoded);
    var n := |Start(mode)|;
    var q := n + |fallback|;
    Layout(mode, fallback, encoded);
    MarkerUnits();
    hide Header, Start, Marker;
    if i < n {
      StartHasNoMarker(mode, h, i);
    } else if i < q {
      StarsOfName(h, n, fallback, i);
    } else if i < q + 3 {
      ReadsNot(h, i, Marker(), 0);
    } else {
      assert encoded != [] ==> h[q + 20..][0] == encoded[0];
    }
  }

  lemma StarsOfName(h: JsString, n: nat, fallback: JsString, i: nat)
    requires n <= i < n + |fallback| < |h| && h[n..n + |fallback|] == fallback && h[n + |fallback|] == QUOTE
    ensures StarAt(h, i) <==> LiveMarkerAt(fallback, i - n)
  {
    MarkerUnits();
    hide Marker;
    var q := n + |fallback|;
    assert forall k :: n <= k < q ==> h[k] == h[n..q][k - n];
    if i + MARKER_LENGTH > q {
      ReadsNot(h, i, Marker(), q - i);
    } else {
      assert ReadsAt(h, i, Marker()) <==> ReadsAt(fallback, i - n, Marker());
    }
  }

  /** Folding to ASCII neither makes nor breaks a marker. */
  lemma AsciiKeepsMarkers(name: JsString, k: int)
    ensures LiveMarkerAt(Ascii(name), k) <==> LiveMarkerAt(name, k)
  {
    MarkerUnits();
    var a := Ascii(name);
    assert forall i, j :: 0 <= i < |name| && 0 <= j < MARKER_LENGTH ==>
      (LowerUnit(a[i]) == Marker()[j] <==> LowerUnit(name[i]) == Marker()[j]);
    hide LowerUnit, Marker;
    assert ReadsAt(a, k, Marker()) <==> ReadsAt(name, k, Marker());
  }

  lemma EmptyHeader(mode: Mode)
    ensures Build([], mode) == Some(Header(mode, Download(), []))
  {
    assert Clean([]) == [] && Encode([]) == Some([]);
    hide Clean, Encode, Js, Header, Download;
  }

  /** Where the plain name of the empty name's header is. */
  lemma EmptyHeaderName(mode: Mode)
    ensures
      var h := Header(mode, Download(), []);
      var n := |Start(mode)|;
      (n < |h| && Start(mode) <= h && Download() < h[n..] && InName(h[n]) && !InName(h[n..][|Download()|]))
  {
    var h := Header(mode, Download(), []);
    var n := |Start(mode)|;
    DownloadUnits();
    DownloadIsName();
    hide *;
    Layout(mode, Download(), []);
    assert h[n] == h[n..n + 8][0] == Download()[0];
    assert h[n..][8] == QUOTE && h[n..][..8] == h[n..n + 8];
  }

  /** The empty name is printed, and read, as "download". */
  lemma EmptyNameReadsAsDownload(mode: Mode)
    ensures Build([], mode).Some? && Parse(Build([], mode).value) == Some(Download())
  {
    var h := Header(mode, Download(), []);
    hide *;
    EmptyHeader(mode);
    EmptyHeaderName(mode);
    DownloadIsName();
    DownloadHasNoStar(mode);
    NoStar(h, 0);
    StartReads(mode, h);
    PlainIs(h, 0, |ModeText(mode)|);
    ParseFromPlain(h, |Start(mode)|);
    NameIs(Download(), h[|Start(mode)|..]);
  }

  lemma DownloadIsName()
    ensures forall k :: 0 <= k < |Download()| ==> InName(Download()[k])
    ensures !InName(QUOTE)
  {
    DownloadUnits();
    hide Js;
  }

  lemma DownloadHasNoStar(mode: Mode)
    ensures forall i :: 0 <= i < |Header(mode, Download(), [])| ==> !StarAt(Header(mode, Download(), []), i)
  {
    DownloadUnits();
    MarkerUnits();
    Layout(mode, Download(), []);
    forall i | 0 <= i < |Header(mode, Download(), [])|
      ensures !StarAt(Header(mode, Download(), []), i)
    {
      hide Js, Download, Marker, Header, Start, ReadsAt, LowerUnit;
      if i <= |Start(mode)| + |Download()| + 3 {
        StarsOfHeader(mode, Download(), [], i);
        DownloadIsUnmarked(i - |Start(mode)|);
      }
    }
  }

  lemma DownloadIsUnmarked(k: int)
    ensures 0 <= k < |Download()| ==> !LiveMarkerAt(Download(), k)
  {
    DownloadUnits();
    MarkerUnits();
    hide Js, Download, Marker, ReadsAt;
    if 0 <= k < |Download()| { ReadsNot(Download(), k, Marker(), 0); }
  }

  /** The plain parameter of a header is read from the start of the quoted name. */
  lemma StartReads(mode: Mode, d: JsString)
    requires Start(mode) <= d && |Start(mode)| < |d| && InName(d[|Start(mode)|])
    ensures |ModeText(mode)| < |d| && PlainAt(d, |ModeText(mode)|) == Some(|Start(mode)|)
    ensures forall i :: 0 <= i < |ModeText(mode)| ==> PlainAt(d, i) == None
  {
    var t := |ModeText(mode)|;
    var f, g := PlainKey(), Opening();
    PlainUnits();
    StartUnits();
    StartUnitsOf(mode);
    hide Js, Start, ModeText;
    assert forall j :: 0 <= j < |f| ==> LowerUnit(f[j]) == f[j];
    assert forall j :: 0 <= j < |g| ==> d[t + j] == Start(mode)[t..][j];
    hide PlainKey, Opening;
    assert ReadsAt(d, t, f);
    forall i | 0 <= i < t
      ensures !ReadsAt(d, i, f)
    {
      assert d[i] == Start(mode)[i];
      ReadsNot(d, i, f, 0);
    }
  }

  lemma PlainIs(d: JsString, from: nat, i: nat)
    requires from <= i < |d| && PlainAt(d, i).Some? && forall j :: from <= j < i ==> PlainAt(d, j) == None
    ensures LeftmostPlain(d, from) == PlainAt(d, i)
    decreases i - from
  {
    if from < i { PlainIs(d, from + 1, i); }
  }

  lemma {:induction false} NameIs(name: JsString, d: JsString)
    requires name < d && !InName(d[|name|]) && forall k :: 0 <= k < |name| ==> InName(name[k])
    ensures NamePrefix(d) == name
  {
    if name != [] {
      assert d[0] == name[0];
      NameIs(name[1..], d[1..]);
    }
  }

  /** What matters of a header for its parser. */
  ghost predicate Laid(h: JsString, n: nat, cleaned: JsString, encoded: JsString) {
    var q := n + |cleaned|;
    && q + 20 <= |h| && h[n..q] == Ascii(cleaned) && h[q] == QUOTE && h[q + 1] == SEMICOLON && h[q + 20..] == encoded
    && forall i :: 0 <= i <= q + 3 ==>
      (StarAt(h, i) <==> ((n <= i < q && LiveMarkerAt(cleaned, i - n)) || (i == q + 3 && encoded != [])))
  }

  lemma HeaderIsLaid(mode: Mode, cleaned: JsString, encoded: JsString)
    requires forall k :: 0 <= k < |cleaned| ==> cleaned[k] != QUOTE
    requires forall k :: 0 <= k < |encoded| ==> Plain(encoded[k])
    ensures Laid(Header(mode, Ascii(cleaned), encoded), |Start(mode)|, cleaned, encoded)
  {
    Layout(mode, Ascii(cleaned), encoded);
    hide StarAt, LiveMarkerAt, Header, Start;
    forall i | 0 <= i <= |Start(mode)| + |cleaned| + 3
      ensures StarAt(Header(mode, Ascii(cleaned), encoded), i)
        <==> ((|Start(mode)| <= i < |Start(mode)| + |cleaned| && LiveMarkerAt(cleaned, i - |Start(mode)|))
              || (i == |Start(mode)| + |cleaned| + 3 && encoded != []))
    {
      StarsOfHeader(mode, Ascii(cleaned), encoded, i);
      AsciiKeepsMarkers(cleaned, i - |Start(mode)|);
    }
  }

  lemma ParseFromStar(h: JsString, star: nat)
    requires LeftmostStar(h, 0) == Some(star) && star + MARKER_LENGTH < |h|
    ensures Parse(h) == Decode(BeforeSemicolon(h[star + MARKER_LENGTH..]))
  {
    hide Decode, PlainName, LeftmostStar, BeforeSemicolon, StarAt;
  }

  lemma ParseFromPlain(h: JsString, start: nat)
    requires LeftmostStar(h, 0) == None && LeftmostPlain(h, 0) == Some(start)
    ensures start < |h| && Parse(h) == Some(NamePrefix(h[start..]))
  {
    hide LeftmostStar, LeftmostPlain, NamePrefix, ExtendedName, Download, StarAt;
  }

  /** A name without a live marker is read back from the extended parameter. */
  lemma UnmarkedReadsBack(h: JsString, n: nat, cleaned: JsString, encoded: JsString)
    requires Laid(h, n, cleaned, encoded) && cleaned != [] && !HasLiveMarker(cleaned)
    requires encoded != [] && forall k :: 0 <= k < |encoded| ==> encoded[k] != SEMICOLON
    ensures Parse(h) == Decode(encoded)
  {
    var r := n + |cleaned| + 3;
    hide StarAt, LiveMarkerAt, Decode, LeftmostStar, LeftmostPlain, BeforeSemicolon, Parse;
    LeftmostIs(h, 0, r);
    hide Laid, HasLiveMarker;
    ParseFromStar(h, r);
    BeforeSemicolonAll(encoded);
  }

  ghost predicate FirstMarker(name: JsString, k: int) {
    0 <= k < |name| && LiveMarkerAt(name, k) && forall j :: 0 <= j < k ==> !LiveMarkerAt(name, j)
  }

  lemma FirstMarkerExists(name: JsString, k: int) returns (first: int)
    requires 0 <= k < |name| && LiveMarkerAt(name, k)
    ensures FirstMarker(name, first)
    decreases k
  {
    hide LiveMarkerAt;
    if j :| 0 <= j < k && LiveMarkerAt(name, j) {
      first := FirstMarkerExists(name, j);
    } else {
      first := k;
    }
  }

  /** What follows a marker in the quoted name, its closing quote included, up to a semicolon. */
  function AfterMarker(name: JsString, k: nat): JsString
    requires k + MARKER_LENGTH <= |name|
  {
    BeforeSemicolon(Ascii(name)[k + MARKER_LENGTH..] + [QUOTE])
  }

  lemma MarkerFitsIn(name: JsString, k: int)
    requires LiveMarkerAt(name, k)
    ensures 0 <= k && k + MARKER_LENGTH <= |name|
  {
    MarkerUnits();
    hide Marker;
  }

  lemma TextAfterMarker(h: JsString, n: nat, cleaned: JsString, encoded: JsString, k: nat)
    requires Laid(h, n, cleaned, encoded) && k + MARKER_LENGTH <= |cleaned|
    ensures BeforeSemicolon(h[n + k + MARKER_LENGTH..]) == AfterMarker(cleaned, k)
    ensures |AfterMarker(cleaned, k)| < |cleaned|
  {
    var q := n + |cleaned|;
    var text := Ascii(cleaned)[k + MARKER_LENGTH..] + [QUOTE];
    hide StarAt, LiveMarkerAt, BeforeSemicolon;
    BeforeSemicolonStops(text, h[q + 2..]);
    assert h[n + k + MARKER_LENGTH..q] == h[n..q][k + MARKER_LENGTH..];
    assert h[n + k + MARKER_LENGTH..] == h[n + k + MARKER_LENGTH..q] + [h[q]] + [h[q + 1]] + h[q + 2..];
    assert h[n + k + MARKER_LENGTH..] == text + [SEMICOLON] + h[q + 2..];
  }

  /** With one, a shorter text is read instead: whatever follows the first marker. */
  lemma MarkedIsLost(h: JsString, n: nat, cleaned: JsString, encoded: JsString, k: nat)
    requires Laid(h, n, cleaned, encoded) && FirstMarker(cleaned, k)
    ensures k + MARKER_LENGTH <= |cleaned| && Parse(h) == Decode(AfterMarker(cleaned, k))
    ensures Parse(h).Some? ==> |Parse(h).value| < |cleaned|
  {
    assert LiveMarkerAt(cleaned, k);
    hide *;
    MarkerFitsIn(cleaned, k);
    FirstMarkerIsStar(h, n, cleaned, encoded, k);
    TextAfterMarker(h, n, cleaned, encoded, k);
    ParseFromStar(h, n + k);
    DecodeShrinks(AfterMarker(cleaned, k));
  }

  lemma FirstMarkerIsStar(h: JsString, n: nat, cleaned: JsString, encoded: JsString, k: nat)
    requires Laid(h, n, cleaned, encoded) && FirstMarker(cleaned, k) && k + MARKER_LENGTH <= |cleaned|
    ensures n + k + MARKER_LENGTH < |h| && LeftmostStar(h, 0) == Some(n + k)
  {
    hide StarAt, LiveMarkerAt, LeftmostStar, Ascii;
    LeftmostIs(h, 0, n + k);
  }

  lemma NoSeparators(encoded: JsString)
    requires forall k :: 0 <= k < |encoded| ==> Plain(encoded[k])
    ensures forall k :: 0 <= k < |encoded| ==> encoded[k] != SEMICOLON
  {
  }

  lemma HeaderOf(fileName: JsString, mode: Mode)
    requires Build(fileName, mode).Some? && Clean(fileName) != []
    ensures
      var cleaned := Clean(fileName);
      && Encode(cleaned).Some? && Encode(cleaned).value != []
      && (forall k :: 0 <= k < |Encode(cleaned).value| ==> Encode(cleaned).value[k] != SEMICOLON)
      && Build(fileName, mode) == Some(Header(mode, Ascii(cleaned), Encode(cleaned).value))
      && Laid(Build(fileName, mode).value, |Start(mode)|, cleaned, Encode(cleaned).value)
  {
    var cleaned := Clean(fileName);
    var encoded := Encode(cleaned).value;
    assert Build(fileName, mode) == Some(Header(mode, Ascii(cleaned), encoded));
    EncodedIsPlain(cleaned);
    NoSeparators(encoded);
    hide *;
    HeaderIsLaid(mode, cleaned, encoded);
  }

  /** What is read for a name with a live marker. */
  lemma MarkedNameReads(fileName: JsString, mode: Mode, k: nat)
    requires Build(fileName, mode).Some? && FirstMarker(Clean(fileName), k)
    ensures k + MARKER_LENGTH <= |Clean(fileName)|
    ensures Parse(Build(fileName, mode).value) == Decode(AfterMarker(Clean(fileName), k))
  {
    var cleaned := Clean(fileName);
    assert cleaned != [];
    hide *;
    HeaderOf(fileName, mode);
    MarkedIsLost(Build(fileName, mode).value, |Start(mode)|, cleaned, Encode(cleaned).value, k);
  }

  /** The dashboard reads the cleaned name back exactly if it is not empty and holds no live marker. */
  lemma HeaderRoundTrip(fileName: JsString, mode: Mode)
    requires Build(fileName, mode).Some?
    ensures Parse(Build(fileName, mode).value) == Some(Clean(fileName))
            <==> Clean(fileName) != [] && !HasLiveMarker(Clean(fileName))
  {
    var cleaned := Clean(fileName);
    if cleaned == [] {
      assert Clean([]) == [];
      assert Build(fileName, mode) == Build([], mode);
      hide *;
      EmptyNameReadsAsDownload(mode);
      DownloadUnits();
    } else if HasLiveMarker(cleaned) {
      var k :| 0 <= k < |cleaned| && LiveMarkerAt(cleaned, k);
      hide *;
      HeaderOf(fileName, mode);
      var first := FirstMarkerExists(cleaned, k);
      FirstIsNat(cleaned, first);
      MarkedIsLost(Build(fileName, mode).value, |Start(mode)|, cleaned, Encode(cleaned).value, first);
    } else {
      hide *;
      HeaderOf(fileName, mode);
      UriComponent.RoundTrip(cleaned);
      UnmarkedReadsBack(Build(fileName, mode).value, |Start(mode)|, cleaned, Encode(cleaned).value);
    }
  }

  lemma FirstIsNat(name: JsString, k: int)
    requires FirstMarker(name, k)
    ensures k >= 0
  {
  }

  function Example(): JsString { Js("filename*=UTF-8''a.pdf") }

  lemma ExampleUnits()
    ensures Example()
      == [0x66, 0x69, 0x6C, 0x65, 0x6E, 0x61, 0x6D, 0x65, 0x2A, 0x3D, 0x55, 0x54, 0x46, 0x2D, 0x38, 0x27, 0x27, 0x61, 0x2E, 0x70, 0x64, 0x66]
  {
    var s := "filename*=UTF-8''a.pdf";
    assert |s| == 22;
  }

  /** A name that reads as another: the parser returns a.pdf" for filename*=UTF-8''a.pdf. */
  lemma MarkerFoolsTheParser(mode: Mode)
    ensures
      var name := Example();
      && Clean(name) == name && Build(name, mode).Some?
      && Parse(Build(name, mode).value) == Some(Js("a.pdf\"")) && Js("a.pdf\"") != name
  {
    var name := Example();
    ExampleIsMarked();
    AfterExample();
    hide *;
    NothingToClean(name);
    AsciiIsWellFormed(name);
    HeaderIsPrintable(name, mode);
    MarkedNameReads(name, mode, 0);
  }

  lemma ExampleIsMarked()
    ensures FirstMarker(Example(), 0) && AsciiOnly(Example()) && forall k :: 0 <= k < |Example()| ==> !Stripped(Example()[k])
  {
    ExampleUnits();
    MarkerText();
    hide Js;
    assert forall j :: 0 <= j < |Marker()| ==> LowerUnit(Example()[0 + j]) == Marker()[j];
    hide Example, Marker;
    assert LiveMarkerAt(Example(), 0);
  }

  lemma AfterExample()
    ensures |Example()| == 22 && Decode(AfterMarker(Example(), 0)) == Some(Js("a.pdf\"")) && |Js("a.pdf\"")| == 6
  {
    var tail: JsString := [0x61, 0x2E, 0x70, 0x64, 0x66, QUOTE];
    TailUnits();
    ExampleUnits();
    hide Js, Decode, BeforeSemicolon;
    assert Ascii(Example())[17..] + [QUOTE] == tail;
    BeforeSemicolonAll(tail);
    NothingToDecode(tail);
  }

  lemma TailUnits()
    ensures Js("a.pdf\"") == [0x61, 0x2E, 0x70, 0x64, 0x66, QUOTE]
  {
    var s := "a.pdf\"";
    assert |s| == 6;
  }

  lemma {:induction false} NothingToDecode(s: JsString)
    requires PERCENT !in s
    ensures Decode(s) == Some(s)
  {
    if s != [] {
      NothingToDecode(s[1..]);
      assert [s[0]] + s[1..] == s;
    }
  }

  lemma {:induction false} NothingToClean(s: JsString)
    requires forall k :: 0 <= k < |s| ==> !Stripped(s[k])
    ensures Clean(s) == s
  {
    if s != [] { NothingToClean(s[1..]); }
  }

  /** A header is printable ASCII whose only quotes delimit the fallback; building fails on unpaired surrogates only. */
  lemma HeaderIsPrintable(fileName: JsString, mode: Mode)
    ensures Build(fileName, mode).Some? <==> WellFormed(Clean(fileName))
    ensures
      var header := Build(fileName, mode);
      var name := Fallback(Clean(fileName));
      header.Some? ==>
        forall k :: 0 <= k < |header.value| ==>
          Printable(header.value[k])
          && (header.value[k] == QUOTE <==> k == |Start(mode)| - 1 || k == |Start(mode)| + |name|)
  {
    var cleaned := Clean(fileName);
    UriComponent.RoundTrip(cleaned);
    if Encode(cleaned).Some? {
      EncodedIsPlain(cleaned);
      StartUnitsOf(mode);
      FallbackIsPrintable(cleaned);
      MiddleIsPrintable();
      var encoded := Encode(cleaned).value;
      assert Build(fileName, mode) == Some(Start(mode) + Fallback(cleaned) + Middle() + encoded);
      hide *;
      QuotesDelimit(Start(mode), Fallback(cleaned), Middle(), encoded);
    }
  }

  lemma QuotesDelimit(start: JsString, name: JsString, middle: JsString, encoded: JsString)
    requires forall k :: 0 <= k < |start| ==> Printable(start[k]) && (start[k] == QUOTE <==> k == |start| - 1)
    requires forall k :: 0 <= k < |name| ==> Printable(name[k]) && name[k] != QUOTE
    requires middle != [] && forall k :: 0 <= k < |middle| ==> Printable(middle[k]) && (middle[k] == QUOTE <==> k == 0)
    requires forall k :: 0 <= k < |encoded| ==> Plain(encoded[k])
    ensures
      var h := start + name + middle + encoded;
      forall k :: 0 <= k < |h| ==> Printable(h[k]) && (h[k] == QUOTE <==> k == |start| - 1 || k == |start| + |name|)
  {
    assert forall u: CodeUnit :: Plain(u) ==> Printable(u) && u != QUOTE;
  }

  lemma FallbackIsPrintable(cleaned: JsString)
    requires forall k :: 0 <= k < |cleaned| ==> !Stripped(cleaned[k])
    ensures forall k :: 0 <= k < |Fallback(cleaned)| ==> Printable(Fallback(cleaned)[k]) && Fallback(cleaned)[k] != QUOTE
  {
    DownloadUnits();
    hide Js;
  }

  lemma MiddleIsPrintable()
    ensures Middle() != []
    ensures forall k :: 0 <= k < |Middle()| ==> Printable(Middle()[k]) && (Middle()[k] == QUOTE <==> k == 0)
  {
    MiddleUnits();
    hide Js;
  }

  // --- What is printed, unit by unit ---

  /** Cleaning works unit by unit... */
  lemma {:induction false} CleanOfConcat(a: JsString, b: JsString)
    ensures Clean(a + b) == Clean(a) + Clean(b)
  {
    if a == [] {
      assert a + b == b;
    } else {
      assert (a + b)[1..] == a[1..] + b;
      CleanOfConcat(a[1..], b);
    }
  }

  /** ... and drops carriage returns, line feeds and quotes only. */
  lemma CleanOfOne(u: CodeUnit)
    ensures Clean([u]) == if u == 0x0D || u == 0x0A || u == 0x22 then [] else [u]
  {
    assert Clean([]) == [];
  }

  /** The name in printable ASCII, with an underscore for everything else; a missing name is a download. */
  predicate Shows(shown: JsString, name: JsString) {
    if name == [] then shown == Js("download")
    else
      |shown| == |name| && forall k :: 0 <= k < |name| ==> shown[k] == if 0x20 <= name[k] <= 0x7E then name[k] else 0x5F
  }

  /** The header: the mode, the shown name in quotes, and the encoded name. */
  lemma HeaderText(fileName: JsString, mode: Mode) returns (shown: JsString)
    requires Build(fileName, mode).Some?
    ensures Shows(shown, Clean(fileName)) && Encode(Clean(fileName)).Some?
    ensures Build(fileName, mode).value ==
      Js(if mode == Inline then "inline; filename=\"" else "attachment; filename=\"") + shown + Js("\"; filename*=UTF-8''")
      + Encode(Clean(fileName)).value
  {
    shown := Fallback(Clean(fileName));
    StartIs(mode);
    hide Js, Clean, Encode, ModeText;
  }

  lemma StartIs(mode: Mode)
    ensures Start(mode) == Js(if mode == Inline then "inline; filename=\"" else "attachment; filename=\"")
  {
    JsOfConcat("inline; ", "filename=\"");
    JsOfConcat("attachment; ", "filename=\"");
    assert "inline; " + "filename=\"" == "inline; filename=\"";
    assert "attachment; " + "filename=\"" == "attachment; filename=\"";
    hide Js;
  }

  lemma JsOfConcat(a: string, b: string)
    ensures Js(a + b) == Js(a) + Js(b)
  {
  }
}
