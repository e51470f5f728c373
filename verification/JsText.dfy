/** JavaScript strings as sequences of UTF-16 code units, and their UTF-8 bytes. */
module JsText {
  import opened Platform

  type CodeUnit = c: int | 0 <= c < 0x10000

  type JsString = seq<CodeUnit>

  type Octet = b: int | 0 <= b < 0x100

  /** A literal of the source code. */
  function Js(s: string): (r: JsString)
    ensures |r| == |s|
    ensures forall i :: 0 <= i < |s| && s[i] < 128 as char ==> r[i] == s[i] as int
  {
    seq(|s|, i requires 0 <= i < |s| => if s[i] < 128 as char then s[i] as int else 0xFFFD)
  }

  predicate High(u: CodeUnit) { 0xD800 <= u < 0xDC00 }

  predicate Low(u: CodeUnit) { 0xDC00 <= u < 0xE000 }

  predicate Surrogate(cp: int) { 0xD800 <= cp < 0xE000 }

  predicate Scalar(cp: int) { 0 <= cp < 0x110000 && !Surrogate(cp) }

  /** The string starts with a surrogate pair. */
  predicate PairFirst(s: JsString) { |s| > 1 && High(s[0]) && Low(s[1]) }

  predicate LoneFirst(s: JsString) { s != [] && Surrogate(s[0]) && !PairFirst(s) }

  /** The code point a string starts with, and how many units it takes. */
  function FirstPoint(s: JsString): (cp: int)
    requires s != [] && !LoneFirst(s)
    ensures Scalar(cp)
  {
    if PairFirst(s) then 0x10000 + (s[0] as int - 0xD800) * 0x400 + (s[1] as int - 0xDC00) else s[0]
  }

  function FirstWidth(s: JsString): (n: nat)
    requires s != []
    ensures 1 <= n <= |s|
  {
    if PairFirst(s) then 2 else 1
  }

  /** No unpaired surrogate. */
  predicate WellFormed(s: JsString) {
    s == [] || (!LoneFirst(s) && WellFormed(s[FirstWidth(s)..]))
  }

  predicate AsciiOnly(s: JsString) { forall k :: 0 <= k < |s| ==> s[k] < 0x80 }

  lemma {:induction false} AsciiIsWellFormed(s: JsString)
    requires AsciiOnly(s)
    ensures WellFormed(s)
  {
    if s != [] { AsciiIsWellFormed(s[1..]); }
  }

  /** A code point as code units. */
  function Units(cp: int): JsString
    requires Scalar(cp)
  {
    if cp < 0x10000 then [cp] else [0xD800 + (cp - 0x10000) / 0x400, 0xDC00 + (cp - 0x10000) % 0x400]
  }

  lemma UnitsOfFirst(s: JsString)
    requires s != [] && !LoneFirst(s)
    ensures Units(FirstPoint(s)) == s[..FirstWidth(s)]
  {
  }

  // --- UTF-8 ---

  function Utf8(cp: int): (r: seq<Octet>)
    requires Scalar(cp)
    ensures 1 <= |r| <= 4
  {
    if cp < 0x80 then [cp]
    else if cp < 0x800 then [0xC0 + cp / 0x40, 0x80 + cp % 0x40]
    else if cp < 0x10000 then [0xE0 + cp / 0x1000, 0x80 + cp / 0x40 % 0x40, 0x80 + cp % 0x40]
    else [0xF0 + cp / 0x40000, 0x80 + cp / 0x1000 % 0x40, 0x80 + cp / 0x40 % 0x40, 0x80 + cp % 0x40]
  }

  /** How many octets a lead octet announces; 0 if it cannot lead. */
  function LeadLength(b: Octet): nat {
    if b < 0x80 then 1 else if b < 0xC0 then 0 else if b < 0xE0 then 2 else if b < 0xF0 then 3 else if b < 0xF8 then 4 else 0
  }

  predicate Continuation(b: Octet) { 0x80 <= b < 0xC0 }

  /** Six more bits. */
  function Tail(cp: int, b: Octet): int { cp * 0x40 + (b as int - 0x80) }

  /** The scalar a whole octet sequence stands for: shortest form, no surrogate, at most 0x10FFFF. */
  function ScalarFrom(o: seq<Octet>): (r: Option<int>)
    ensures r.Some? ==> Scalar(r.value)
  {
    if o == [] || LeadLength(o[0]) != |o| || exists k :: 0 < k < |o| && !Continuation(o[k]) then None
    else if |o| == 1 then Some(o[0])
    else if |o| == 2 then
      var cp: int := Tail(o[0] as int - 0xC0, o[1]);
      if cp >= 0x80 then Some(cp) else None
    else if |o| == 3 then
      var cp: int := Tail(Tail(o[0] as int - 0xE0, o[1]), o[2]);
      if cp >= 0x800 && !Surrogate(cp) then Some(cp) else None
    else
      var cp: int := Tail(Tail(Tail(o[0] as int - 0xF0, o[1]), o[2]), o[3]);
      if 0x10000 <= cp < 0x110000 then Some(cp) else None
  }

  lemma Utf8RoundTrip(cp: int)
    requires Scalar(cp)
    ensures LeadLength(Utf8(cp)[0]) == |Utf8(cp)| && ScalarFrom(Utf8(cp)) == Some(cp)
  {
    var o := Utf8(cp);
    TailOf(cp);
    TailOf(cp / 0x40);
    TailOf(cp / 0x1000);
    assert cp / 0x40 / 0x40 == cp / 0x1000;
    assert cp / 0x1000 / 0x40 == cp / 0x40000;
    hide Tail;
    if cp < 0x80 {
      assert ScalarFrom(o) == Some(cp);
    } else if cp < 0x800 {
      assert Tail(o[0] as int - 0xC0, o[1]) == cp;
    } else if cp < 0x10000 {
      assert Tail(o[0] as int - 0xE0, o[1]) == cp / 0x40;
    } else {
      assert Tail(o[0] as int - 0xF0, o[1]) == cp / 0x1000;
      assert Tail(cp / 0x1000, o[2]) == cp / 0x40;
    }
  }

  lemma TailOf(cp: int)
    requires cp >= 0
    ensures Continuation(0x80 + cp % 0x40) && Tail(cp / 0x40, 0x80 + cp % 0x40) == cp
  {
  }

  /** Buffer.from(s, 'utf8'): an unpaired surrogate becomes U+FFFD. */
  function ToBytes(s: JsString): seq<Octet> {
    if s == [] then []
    else Utf8(if LoneFirst(s) then 0xFFFD else FirstPoint(s)) + ToBytes(s[FirstWidth(s)..])
  }

  /** Strict decoding of UTF-8. */
  function FromBytes(b: seq<Octet>): Option<JsString> {
    if b == [] then Some([])
    else
      var n := LeadLength(b[0]);
      if n == 0 || n > |b| || ScalarFrom(b[..n]).None? then None
      else
        var rest := FromBytes(b[n..]);
        if rest.None? then None else Some(Units(ScalarFrom(b[..n]).value) + rest.value)
  }

  function Repaired(s: JsString): JsString {
    if s == [] then []
    else (if LoneFirst(s) then [0xFFFD] else s[..FirstWidth(s)]) + Repaired(s[FirstWidth(s)..])
  }

  /** What a reader of the bytes gets: the string with every unpaired surrogate replaced. */
  lemma {:induction false} BytesReadBack(s: JsString)
    ensures FromBytes(ToBytes(s)) == Some(Repaired(s))
  {
    if s != [] {
      var cp := if LoneFirst(s) then 0xFFFD else FirstPoint(s);
      var rest := ToBytes(s[FirstWidth(s)..]);
      BytesReadBack(s[FirstWidth(s)..]);
      Utf8RoundTrip(cp);
      assert (Utf8(cp) + rest)[..|Utf8(cp)|] == Utf8(cp) && (Utf8(cp) + rest)[|Utf8(cp)|..] == rest;
      if !LoneFirst(s) { UnitsOfFirst(s); }
    }
  }

  lemma {:induction false} RepairedIfIllFormed(s: JsString)
    ensures Repaired(s) == s <==> WellFormed(s)
  {
    if s != [] {
      var n := FirstWidth(s);
      RepairedIfIllFormed(s[n..]);
      assert s == s[..n] + s[n..];
      if LoneFirst(s) {
        assert Repaired(s)[0] != s[0];
      } else {
        assert Repaired(s)[n..] == Repaired(s[n..]);
      }
    }
  }

  /** Bytes bring a string back exactly if it has no unpaired surrogate. */
  lemma BytesRoundTrip(s: JsString)
    ensures FromBytes(ToBytes(s)) == Some(s) <==> WellFormed(s)
  {
    BytesReadBack(s);
    RepairedIfIllFormed(s);
  }
}
