/** JavaScript strings as UTF-16 code units, and their UTF-8 encoding as Buffer.from(text, 'utf8') makes it. */
module Utf16 {

  type Byte = int

  /** Code units, each below 0x10000. */
  type JsString = seq<int>

  predicate Unit(u: int) {
    0 <= u < 0x10000
  }

  predicate High(u: int) {
    0xD800 <= u <= 0xDBFF
  }

  predicate Low(u: int) {
    0xDC00 <= u <= 0xDFFF
  }

  predicate StartsPair(s: JsString) {
    |s| >= 2 && High(s[0]) && Low(s[1])
  }

  /** No lone surrogate. */
  predicate WellFormed(s: JsString)
    decreases |s|
  {
    if |s| == 0 then true
    else if StartsPair(s) then WellFormed(s[2..])
    else Unit(s[0]) && !High(s[0]) && !Low(s[0]) && WellFormed(s[1..])
  }

  function CodePoint(h: int, l: int): int {
    0x10000 + (h - 0xD800) * 0x400 + (l - 0xDC00)
  }

  function FourOf(p: int): seq<Byte>
    requires 0x10000 <= p < 0x110000
  {
    [0xF0 + p / 0x40000, 0x80 + p / 0x1000 % 0x40, 0x80 + p / 0x40 % 0x40, 0x80 + p % 0x40]
  }

  function Utf8Pair(h: int, l: int): seq<Byte>
    requires High(h) && Low(l)
  {
    FourOf(CodePoint(h, l))
  }

  /** A lone surrogate is replaced by U+FFFD. */
  function Utf8Unit(u: int): seq<Byte> {
    if u < 0x80 then [u]
    else if u < 0x800 then [0xC0 + u / 0x40, 0x80 + u % 0x40]
    else if High(u) || Low(u) then [0xEF, 0xBF, 0xBD]
    else [0xE0 + u / 0x1000, 0x80 + u / 0x40 % 0x40, 0x80 + u % 0x40]
  }

  function Utf8(s: JsString): seq<Byte>
    decreases |s|
  {
    if |s| == 0 then []
    else if StartsPair(s) then Utf8Pair(s[0], s[1]) + Utf8(s[2..])
    else Utf8Unit(s[0]) + Utf8(s[1..])
  }

  // ---- Decoding ----

  function PairOf(p: int): JsString
    requires 0x10000 <= p < 0x110000
  {
    [0xD800 + (p - 0x10000) / 0x400, 0xDC00 + (p - 0x10000) % 0x400]
  }

  function FourBytes(a: int, b: int, c: int, d: int): int {
    (a - 0xF0) * 0x40000 + (b - 0x80) * 0x1000 + (c - 0x80) * 0x40 + (d - 0x80)
  }

  /** Reads bytes back as text; bytes that no text encodes to read as the empty string. */
  function Decode(b: seq<Byte>): JsString
    decreases |b|
  {
    if |b| == 0 then []
    else if b[0] < 0x80 then [b[0]] + Decode(b[1..])
    else if 0xC0 <= b[0] < 0xE0 && |b| >= 2 && b[1] >= 0x80 then
      [(b[0] - 0xC0) * 0x40 + (b[1] - 0x80)] + Decode(b[2..])
    else if 0xE0 <= b[0] < 0xF0 && |b| >= 3 && 0x80 <= b[1] < 0xC0 && 0x80 <= b[2] < 0xC0 then
      [(b[0] - 0xE0) * 0x1000 + (b[1] - 0x80) * 0x40 + (b[2] - 0x80)] + Decode(b[3..])
    else if 0xF0 <= b[0] && |b| >= 4 then
      var p := FourBytes(b[0], b[1], b[2], b[3]);
      if 0x10000 <= p < 0x110000 then PairOf(p) + Decode(b[4..]) else []
    else []
  }

  lemma DecodeUnit(u: int, rest: seq<Byte>)
    requires Unit(u) && !High(u) && !Low(u)
    ensures Decode(Utf8Unit(u) + rest) == [u] + Decode(rest)
  {
    hide FourBytes, PairOf;
    var b := Utf8Unit(u) + rest;
    assert b[|Utf8Unit(u)|..] == rest;
  }

  lemma FourBytesValue(p: int)
    requires 0 <= p
    ensures FourBytes(0xF0 + p / 0x40000, 0x80 + p / 0x1000 % 0x40, 0x80 + p / 0x40 % 0x40, 0x80 + p % 0x40) == p
  {
    var q := p / 0x40;
    var r := q / 0x40;
    assert p / 0x1000 == r && p / 0x40000 == r / 0x40;
  }

  lemma DecodeFour(p: int, rest: seq<Byte>)
    requires 0x10000 <= p < 0x110000
    ensures Decode(FourOf(p) + rest) == PairOf(p) + Decode(rest)
  {
    hide FourBytes, PairOf;
    var b := FourOf(p) + rest;
    assert b[4..] == rest;
    assert b[0] >= 0xF0;
    FourBytesValue(p);
  }

  lemma DecodePair(h: int, l: int, rest: seq<Byte>)
    requires High(h) && Low(l)
    ensures Decode(Utf8Pair(h, l) + rest) == [h, l] + Decode(rest)
  {
    hide FourBytes, PairOf, FourOf, CodePoint, Decode;
    PairOfCodePoint(h, l);
    DecodeFour(CodePoint(h, l), rest);
  }

  lemma PairOfCodePoint(h: int, l: int)
    requires High(h) && Low(l)
    ensures 0x10000 <= CodePoint(h, l) < 0x110000 && PairOf(CodePoint(h, l)) == [h, l]
  {
  }

  lemma {:induction false} DecodeInvertsUtf8(s: JsString)
    requires WellFormed(s)
    ensures Decode(Utf8(s)) == s
    decreases |s|
  {
    if |s| > 0 {
      if StartsPair(s) {
        DecodeInvertsUtf8(s[2..]);
        DecodePair(s[0], s[1], Utf8(s[2..]));
        assert s == [s[0], s[1]] + s[2..];
      } else {
        DecodeInvertsUtf8(s[1..]);
        DecodeUnit(s[0], Utf8(s[1..]));
        assert s == [s[0]] + s[1..];
      }
    }
  }

  /** Strings without lone surrogates are told apart by their bytes. */
  lemma Utf8IsInjective(s: JsString, t: JsString)
    requires WellFormed(s) && WellFormed(t) && Utf8(s) == Utf8(t)
    ensures s == t
  {
    DecodeInvertsUtf8(s);
    DecodeInvertsUtf8(t);
  }

  /** Without that check two different strings would have the same bytes. */
  lemma LoneSurrogatesCollide()
    ensures exists s, t :: s != t && Utf8(s) == Utf8(t)
  {
    var s: JsString, t: JsString := [0xD800], [0xD801];
    assert Utf8(s) == [0xEF, 0xBF, 0xBD] + Utf8([]) && Utf8(t) == [0xEF, 0xBF, 0xBD] + Utf8([]);
    assert s[0] != t[0];
  }

  /** How many units the first code point takes. */
  function HeadLength(s: JsString): (n: nat)
    requires |s| > 0
    ensures 1 <= n <= |s|
  {
    if StartsPair(s) then 2 else 1
  }

  function HeadBytes(s: JsString): seq<Byte>
    requires |s| > 0
  {
    if StartsPair(s) then Utf8Pair(s[0], s[1]) else Utf8Unit(s[0])
  }

  lemma HeadFirst(s: JsString)
    requires |s| > 0
    ensures Utf8(s) == HeadBytes(s) + Utf8(s[HeadLength(s)..])
  {
    hide Utf8Pair, Utf8Unit, High, Low;
  }

  lemma WellFormedHead(s: JsString)
    requires WellFormed(s) && |s| > 0
    ensures WellFormed(s[HeadLength(s)..]) && (High(s[0]) ==> StartsPair(s))
  {
    hide Unit;
  }

  lemma HeadOfConcat(a: JsString, b: JsString)
    requires |a| > 0 && (High(a[0]) ==> StartsPair(a))
    ensures HeadLength(a + b) == HeadLength(a) && HeadBytes(a + b) == HeadBytes(a)
    ensures (a + b)[HeadLength(a)..] == a[HeadLength(a)..] + b
  {
    hide High, Low, Utf8Pair, Utf8Unit;
    assert (a + b)[0] == a[0];
    assert StartsPair(a + b) == StartsPair(a);
  }

  lemma {:induction false} Utf8Concat(a: JsString, b: JsString)
    requires WellFormed(a)
    ensures Utf8(a + b) == Utf8(a) + Utf8(b)
    decreases |a|
  {
    hide HeadBytes, HeadLength, WellFormed;
    if |a| == 0 {
      assert a + b == b;
    } else {
      WellFormedHead(a);
      var tail := a[HeadLength(a)..];
      Utf8Concat(tail, b);
      Utf8ConcatStep(a, b, tail);
    }
  }

  lemma Utf8ConcatStep(a: JsString, b: JsString, tail: JsString)
    requires |a| > 0 && (High(a[0]) ==> StartsPair(a)) && tail == a[HeadLength(a)..]
    requires Utf8(tail + b) == Utf8(tail) + Utf8(b)
    ensures Utf8(a + b) == Utf8(a) + Utf8(b)
  {
    hide HeadBytes, HeadLength, Utf8, High, StartsPair;
    HeadOfConcat(a, b);
    HeadFirst(a);
    HeadFirst(a + b);
    assert HeadBytes(a) + (Utf8(tail) + Utf8(b)) == (HeadBytes(a) + Utf8(tail)) + Utf8(b);
  }

  lemma {:induction false} WellFormedConcat(a: JsString, b: JsString)
    requires WellFormed(a) && WellFormed(b)
    ensures WellFormed(a + b)
    decreases |a|
  {
    if |a| == 0 {
      assert a + b == b;
    } else {
      var n := if StartsPair(a) then 2 else 1;
      WellFormedConcat(a[n..], b);
      assert (a + b)[n..] == a[n..] + b;
    }
  }

  predicate Ascii(s: JsString) {
    forall i :: 0 <= i < |s| ==> 0 <= s[i] < 0x80
  }

  lemma {:induction false} AsciiText(s: JsString)
    requires Ascii(s)
    ensures WellFormed(s) && |Utf8(s)| == |s|
  {
    if |s| > 0 { AsciiText(s[1..]); }
  }

  /** The code units of a text in the source that is plain ASCII. */
  function Literal(text: string): (s: JsString)
    requires forall i :: 0 <= i < |text| ==> text[i] < 128 as char
    ensures Ascii(s) && |s| == |text|
    ensures forall i :: 0 <= i < |s| ==> s[i] == text[i] as int
  {
    seq(|text|, i requires 0 <= i < |text| => text[i] as int)
  }

  /** The loop of assertNoLoneSurrogate. */
  method NoLoneSurrogate(s: JsString) returns (ok: bool)
    requires forall i :: 0 <= i < |s| ==> Unit(s[i])
    ensures ok <==> WellFormed(s)
  {
    var i := 0;
    while i < |s|
      invariant 0 <= i <= |s|
      invariant WellFormed(s) <==> WellFormed(s[i..])
    {
      assert s[i..][1..] == s[i + 1..];
      var c := s[i];
      if 0xD800 <= c <= 0xDBFF {
        if !(i + 1 < |s| && 0xDC00 <= s[i + 1] <= 0xDFFF) { return false; }
        assert s[i..][2..] == s[i + 2..];
        i := i + 1;
      } else if 0xDC00 <= c <= 0xDFFF {
        return false;
      }
      i := i + 1;
    }
    return true;
  }
}
