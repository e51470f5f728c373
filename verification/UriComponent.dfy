/** encodeURIComponent and decodeURIComponent (percent-encoding, section 2.1 of RFC 3986). */
module UriComponent {
  import opened JsText
  import opened Platform

  const PERCENT: CodeUnit := 0x25

  predicate Alphanumeric(u: CodeUnit) { 0x30 <= u <= 0x39 || 0x41 <= u <= 0x5A || 0x61 <= u <= 0x7A }

  /** What encodeURIComponent leaves alone: letters, digits and - _ . ! ~ * ' ( ) */
  predicate Kept(u: CodeUnit) {
    Alphanumeric(u) || u == 0x2D || u == 0x5F || u == 0x2E || u == 0x21 || u == 0x7E || 0x27 <= u <= 0x2A
  }

  function HexDigit(n: int): CodeUnit
    requires 0 <= n < 16
  {
    if n < 10 then 0x30 + n else 0x41 + (n - 10)
  }

  function HexValue(u: CodeUnit): Option<int> {
    if 0x30 <= u <= 0x39 then Some(u as int - 0x30)
    else if 0x41 <= u <= 0x46 then Some(u as int - 0x41 + 10)
    else if 0x61 <= u <= 0x66 then Some(u as int - 0x61 + 10)
    else None
  }

  function Escape(b: Octet): JsString { [PERCENT, HexDigit(b / 16), HexDigit(b % 16)] }

  function EscapeAll(o: seq<Octet>): (r: JsString)
    ensures |r| == 3 * |o|
  {
    if o == [] then [] else Escape(o[0]) + EscapeAll(o[1..])
  }

  /** None is the URIError for an unpaired surrogate. */
  function Encode(s: JsString): Option<JsString> {
    if s == [] then Some([])
    else if LoneFirst(s) then None
    else
      var rest := Encode(s[FirstWidth(s)..]);
      if rest.None? then None
      else Some((if Kept(s[0]) then [s[0]] else EscapeAll(Utf8(FirstPoint(s)))) + rest.value)
  }

  /** The octet an escape at the start of `s` stands for. */
  function FirstOctet(s: JsString): (r: Option<int>)
    ensures r.Some? ==> |s| >= 3 && 0 <= r.value < 0x100
  {
    if |s| < 3 || s[0] != PERCENT || HexValue(s[1]).None? || HexValue(s[2]).None? then None
    else Some(HexValue(s[1]).value * 16 + HexValue(s[2]).value)
  }

  function FirstOctets(s: JsString, n: nat): (r: Option<seq<Octet>>)
    ensures r.Some? ==> |r.value| == n && 3 * n <= |s|
    decreases n
  {
    if n == 0 then Some([])
    else if FirstOctet(s).None? then None
    else
      var rest := FirstOctets(s[3..], n - 1);
      if rest.None? then None else Some([FirstOctet(s).value] + rest.value)
  }

  /** None is a URIError: a bad escape, or octets that are no UTF-8. */
  function Decode(s: JsString): Option<JsString> {
    if s == [] then Some([])
    else if s[0] != PERCENT then
      var rest := Decode(s[1..]);
      if rest.None? then None else Some([s[0]] + rest.value)
    else if FirstOctet(s).None? then None
    else
      var n := LeadLength(FirstOctet(s).value);
      if n == 0 || FirstOctets(s, n).None? || ScalarFrom(FirstOctets(s, n).value).None? then None
      else
        var rest := Decode(s[3 * n..]);
        if rest.None? then None else Some(Units(ScalarFrom(FirstOctets(s, n).value).value) + rest.value)
  }

  lemma EscapeReadsBack(b: Octet, rest: JsString)
    ensures FirstOctet(Escape(b) + rest) == Some(b) && (Escape(b) + rest)[3..] == rest
  {
  }

  lemma {:induction false} EscapesReadBack(o: seq<Octet>, rest: JsString)
    ensures FirstOctets(EscapeAll(o) + rest, |o|) == Some(o) && (EscapeAll(o) + rest)[3 * |o|..] == rest
  {
    if o == [] {
      assert EscapeAll(o) + rest == rest;
    } else {
      var more := EscapeAll(o[1..]) + rest;
      assert EscapeAll(o) + rest == Escape(o[0]) + more;
      EscapeReadsBack(o[0], more);
      EscapesReadBack(o[1..], rest);
      hide FirstOctet, Escape, EscapeAll;
      assert (Escape(o[0]) + more)[3..][3 * |o[1..]|..] == rest;
      assert [o[0]] + o[1..] == o;
    }
  }

  lemma EscapedPointReadsBack(cp: int, rest: JsString)
    requires Scalar(cp) && Decode(rest).Some?
    ensures Decode(EscapeAll(Utf8(cp)) + rest) == Some(Units(cp) + Decode(rest).value)
  {
    var o := Utf8(cp);
    Utf8RoundTrip(cp);
    hide *;
    EscapesReadBack(o, rest);
    FirstEscape(o, rest);
    DecodeStep(EscapeAll(o) + rest, o, rest);
  }

  lemma FirstEscape(o: seq<Octet>, rest: JsString)
    requires o != []
    ensures FirstOctet(EscapeAll(o) + rest) == Some(o[0])
  {
    hide FirstOctet, Escape;
    EscapeReadsBack(o[0], EscapeAll(o[1..]) + rest);
    assert (Escape(o[0]) + EscapeAll(o[1..])) + rest == Escape(o[0]) + (EscapeAll(o[1..]) + rest);
  }

  /** Encoding fails on unpaired surrogates only, and decoding undoes it. */
  lemma {:induction false} RoundTrip(s: JsString)
    ensures Encode(s).Some? <==> WellFormed(s)
    ensures Encode(s).Some? ==> Decode(Encode(s).value) == Some(s)
  {
    if s != [] && !LoneFirst(s) {
      var w := FirstWidth(s);
      RoundTrip(s[w..]);
      if Encode(s).Some? {
        var rest := Encode(s[w..]).value;
        assert s == s[..w] + s[w..];
        if Kept(s[0]) {
          assert Encode(s).value == [s[0]] + rest && s == [s[0]] + s[1..];
          assert ([s[0]] + rest)[1..] == rest;
          assert Decode([s[0]] + rest) == Some([s[0]] + s[1..]);
        } else {
          UnitsOfFirst(s);
          EscapedPointReadsBack(FirstPoint(s), rest);
          assert Encode(s).value == EscapeAll(Utf8(FirstPoint(s))) + rest;
        }
      }
    }
  }

  lemma DecodeStep(e: JsString, o: seq<Octet>, rest: JsString)
    requires o != [] && LeadLength(o[0]) == |o| && FirstOctet(e) == Some(o[0]) && FirstOctets(e, |o|) == Some(o)
    requires e[3 * |o|..] == rest && ScalarFrom(o).Some? && Decode(rest).Some?
    ensures Decode(e) == Some(Units(ScalarFrom(o).value) + Decode(rest).value)
  {
    assert e != [] && e[0] == PERCENT;
  }

  /** Decoding never makes a text longer, nor empty. */
  lemma {:induction false} DecodeShrinks(s: JsString)
    ensures Decode(s).Some? ==> |Decode(s).value| <= |s| && (s != [] ==> Decode(s).value != [])
  {
    if s != [] {
      if s[0] != PERCENT {
        DecodeShrinks(s[1..]);
      } else if FirstOctet(s).Some? {
        var n := LeadLength(FirstOctet(s).value);
        if n > 0 && FirstOctets(s, n).Some? {
          DecodeShrinks(s[3 * n..]);
        }
      }
    }
  }

  /** An encoded text consists of kept characters and escapes: printable, without quotes or semicolons. */
  predicate Plain(u: CodeUnit) { Kept(u) || u == PERCENT }

  lemma {:induction false} EscapesArePlain(o: seq<Octet>)
    ensures forall k :: 0 <= k < |EscapeAll(o)| ==> Plain(EscapeAll(o)[k])
  {
    if o != [] { EscapesArePlain(o[1..]); }
  }

  lemma {:induction false} EncodedIsPlain(s: JsString)
    ensures Encode(s).Some? ==> forall k :: 0 <= k < |Encode(s).value| ==> Plain(Encode(s).value[k])
    ensures Encode(s).Some? && s != [] ==> Encode(s).value != []
  {
    if s != [] && !LoneFirst(s) {
      EncodedIsPlain(s[FirstWidth(s)..]);
      EscapesArePlain(Utf8(FirstPoint(s)));
    }
  }

  const HEX := "0123456789ABCDEF"

  lemma HexDigitIs(n: nat)
    requires n < 16
    ensures HexDigit(n) == HEX[n] as int
  {
  }

  /** Of ASCII, letters, figures and nine marks stay; anything else becomes a percent sign and two upper-case hexadecimal digits. */
  lemma EncodedAscii(u: CodeUnit)
    requires u < 0x80
    ensures
      var c := u as char;
      Encode([u]) ==
        Some(if 'a' <= c <= 'z' || 'A' <= c <= 'Z' || '0' <= c <= '9' || c in {'-', '_', '.', '!', '~', '*', '\'', '(', ')'}
             then [u] else [0x25, HEX[u / 16] as int, HEX[u % 16] as int])
  {
    HexDigitIs(u / 16);
    HexDigitIs(u % 16);
    KeptIs(u);
    hide HEX, HexDigit, Kept;
    assert FirstWidth([u]) == 1 && FirstPoint([u]) == u && Utf8(u) == [u] && !LoneFirst([u]);
    assert Encode([u][1..]) == Some([]);
    assert EscapeAll([u]) == Escape(u) + EscapeAll([]);
    assert Escape(u) + [] == Escape(u) && [u] + [] == [u];
  }

  lemma KeptIs(u: CodeUnit)
    requires u < 0x80
    ensures
      var c := u as char;
      (Kept(u) <==> 'a' <= c <= 'z' || 'A' <= c <= 'Z' || '0' <= c <= '9' || c in {'-', '_', '.', '!', '~', '*', '\'', '(', ')'})
  {
  }
}
