/**
 * The length-prefixed framings: `frame` and u32be of packages/server/src/bpc-ha-final.ts,
 * http-outbox-transport.ts and ha-outbox-contract.ts, and the fields canonicalOpDigest frames.
 */
module Framing {
  import opened Wrappers
  import opened Utf16

  const U32_CEIL := 0x1_0000_0000

  function U32(n: int): seq<Byte>
    requires 0 <= n < U32_CEIL
  {
    [n / 0x1000000, n / 0x10000 % 0x100, n / 0x100 % 0x100, n % 0x100]
  }

  function ValueOfU32(b: seq<Byte>): int
    requires |b| == 4
  {
    Value4(b[0], b[1], b[2], b[3])
  }

  function Value4(a: int, b: int, c: int, d: int): int {
    a * 0x1000000 + b * 0x10000 + c * 0x100 + d
  }

  lemma U32Value(n: int)
    requires 0 <= n < U32_CEIL
    ensures ValueOfU32(U32(n)) == n
  {
    var q := n / 0x100;
    var r := q / 0x100;
    assert n / 0x10000 == r && n / 0x1000000 == r / 0x100;
  }

  predicate Fits(field: seq<Byte>) {
    |field| < U32_CEIL
  }

  /** One field: its length, then its bytes. */
  function Chunk(field: seq<Byte>): (c: seq<Byte>)
    requires Fits(field)
  {
    U32(|field|) + field
  }

  // ---- frame of the transport and of the digest: every field present ----

  function Frame(fields: seq<seq<Byte>>): Option<seq<Byte>> {
    if |fields| == 0 then Some([])
    else if !Fits(fields[0]) then None
    else
      match Frame(fields[1..])
      case None => None
      case Some(rest) => Some(Chunk(fields[0]) + rest)
  }

  function Unframe(b: seq<Byte>): Option<seq<seq<Byte>>>
    decreases |b|
  {
    if |b| == 0 then Some([])
    else if |b| < 4 then None
    else
      var n := ValueOfU32(b[..4]);
      if n < 0 || |b| < 4 + n then None
      else
        match Unframe(b[4 + n..])
        case None => None
        case Some(rest) => Some([b[4..4 + n]] + rest)
  }

  lemma {:induction false} UnframeInvertsFrame(fields: seq<seq<Byte>>)
    requires Frame(fields).Some?
    ensures Unframe(Frame(fields).value) == Some(fields)
  {
    hide U32, ValueOfU32;
    if |fields| > 0 {
      UnframeInvertsFrame(fields[1..]);
      var b, n := Frame(fields).value, |fields[0]|;
      U32Value(n);
      assert b == Chunk(fields[0]) + Frame(fields[1..]).value;
      U32Length(n);
      assert b[..4] == U32(n) && b[4..4 + n] == fields[0] && b[4 + n..] == Frame(fields[1..]).value;
      assert fields == [fields[0]] + fields[1..];
    }
  }

  lemma U32Length(n: int)
    requires 0 <= n < U32_CEIL
    ensures |U32(n)| == 4
  {
  }

  /** Equal framings come only from equal field lists; a field at the 32-bit ceiling is refused, not wrapped. */
  lemma FramingIsUniquelyDecodable(a: seq<seq<Byte>>, b: seq<seq<Byte>>)
    requires Frame(a).Some? && Frame(a) == Frame(b)
    ensures a == b
  {
    UnframeInvertsFrame(a);
    UnframeInvertsFrame(b);
  }

  lemma {:induction false} FramedExactlyWhenFitting(fields: seq<seq<Byte>>)
    ensures Frame(fields).Some? <==> forall i :: 0 <= i < |fields| ==> Fits(fields[i])
  {
    if |fields| > 0 {
      FramedExactlyWhenFitting(fields[1..]);
      assert fields == [fields[0]] + fields[1..];
    }
  }

  // ---- frame of the control records: null is a field of its own ----

  type Part = Option<seq<Byte>>

  function Tagged(part: Part): (b: seq<Byte>)
    requires part.Some? ==> Fits(part.value)
  {
    if part.None? then [0] else [1] + Chunk(part.value)
  }

  function FrameParts(parts: seq<Part>): Option<seq<Byte>> {
    if |parts| == 0 then Some([])
    else if parts[0].Some? && !Fits(parts[0].value) then None
    else
      match FrameParts(parts[1..])
      case None => None
      case Some(rest) => Some(Tagged(parts[0]) + rest)
  }

  function UnframeParts(b: seq<Byte>): Option<seq<Part>>
    decreases |b|
  {
    if |b| == 0 then Some([])
    else if b[0] == 0 then
      (match UnframeParts(b[1..]) case None => None case Some(rest) => Some([None] + rest))
    else if |b| < 5 then None
    else
      var n := ValueOfU32(b[1..5]);
      if n < 0 || |b| < 5 + n then None
      else
        match UnframeParts(b[5 + n..])
        case None => None
        case Some(rest) => Some([Some(b[5..5 + n])] + rest)
  }

  lemma UnframeField(field: seq<Byte>, rest: seq<Byte>)
    requires Fits(field) && UnframeParts(rest).Some?
    ensures UnframeParts([1] + Chunk(field) + rest) == Some([Some(field)] + UnframeParts(rest).value)
  {
    hide U32, ValueOfU32;
    var b := [1] + Chunk(field) + rest;
    U32Value(|field|);
    U32Length(|field|);
    assert b[1..5] == U32(|field|);
    assert b[5..5 + |field|] == field;
    assert b[5 + |field|..] == rest;
  }

  lemma {:induction false} UnframePartsInverts(parts: seq<Part>)
    requires FrameParts(parts).Some?
    ensures UnframeParts(FrameParts(parts).value) == Some(parts)
  {
    hide U32, ValueOfU32, Chunk;
    if |parts| > 0 {
      UnframePartsInverts(parts[1..]);
      var b, rest := FrameParts(parts).value, FrameParts(parts[1..]).value;
      assert parts == [parts[0]] + parts[1..];
      if parts[0].None? {
        assert b[1..] == rest;
      } else {
        UnframeField(parts[0].value, rest);
      }
    }
  }

  /** Equal framings come only from equal part lists, null distinct from the empty text. */
  lemma PartsAreUniquelyDecodable(a: seq<Part>, b: seq<Part>)
    requires FrameParts(a).Some? && FrameParts(a) == FrameParts(b)
    ensures a == b
  {
    UnframePartsInverts(a);
    UnframePartsInverts(b);
  }

  function After(done: seq<Byte>, rest: Option<seq<Byte>>): Option<seq<Byte>> {
    if rest.None? then None else Some(done + rest.value)
  }

  lemma AfterNothing(rest: Option<seq<Byte>>)
    ensures After([], rest) == rest
  {
    if rest.Some? { assert [] + rest.value == rest.value; }
  }

  lemma AfterOneMore(done: seq<Byte>, more: seq<Byte>, rest: Option<seq<Byte>>)
    ensures After(done, After(more, rest)) == After(done + more, rest)
  {
    if rest.Some? { assert done + (more + rest.value) == (done + more) + rest.value; }
  }

  /** The loop of `frame`, building the chunks in order; it throws when a length does not fit. */
  method FrameLoop(parts: seq<Part>) returns (r: Option<seq<Byte>>)
    ensures r == FrameParts(parts)
  {
    hide U32, Chunk, Tagged;
    var done: seq<Byte> := [];
    var i := 0;
    assert parts[0..] == parts;
    AfterNothing(FrameParts(parts));
    while i < |parts|
      invariant 0 <= i <= |parts|
      invariant FrameParts(parts) == After(done, FrameParts(parts[i..]))
    {
      assert parts[i..][1..] == parts[i + 1..];
      if parts[i].Some? && !Fits(parts[i].value) { return None; }
      AfterOneMore(done, Tagged(parts[i]), FrameParts(parts[i + 1..]));
      done := done + Tagged(parts[i]);
      i := i + 1;
    }
    assert parts[i..] == [] && done + [] == done;
    return Some(done);
  }

  // ---- Decimal text ----

  function Decimal(n: nat): (s: JsString)
    ensures |s| > 0 && Ascii(s)
    ensures forall i :: 0 <= i < |s| ==> 48 <= s[i] <= 57
    ensures n > 0 ==> s[0] != 48
  {
    if n < 10 then [48 + n] else Decimal(n / 10) + [48 + n % 10]
  }

  function DecimalValue(s: JsString): int {
    if |s| == 0 then 0 else DecimalValue(s[..|s| - 1]) * 10 + (s[|s| - 1] - 48)
  }

  lemma {:induction false} DecimalRoundTrip(n: nat)
    ensures DecimalValue(Decimal(n)) == n
  {
    if n < 10 {
      assert [48 + n][..0] == [];
    } else {
      DecimalRoundTrip(n / 10);
      assert (Decimal(n / 10) + [48 + n % 10])[..|Decimal(n / 10)|] == Decimal(n / 10);
    }
  }
}
