/**
 * canonicalOpDigest and assertHeaderConformant of packages/server/src/ha-outbox-contract.ts: the bytes the
 * digest of a record is taken over.
 */
module OpDigest {
  import opened Wrappers
  import opened Utf16
  import opened Framing
  import opened CanonicalJson
  import opened CanonicalWalk

  datatype Header = Header(stream: JsString, epoch: JsString, sequence: int, fence: JsString, mutation: Json)

  predicate Alnum(u: int) {
    65 <= u <= 90 || 97 <= u <= 122 || 48 <= u <= 57
  }

  /** ID_PATTERN. */
  predicate IdOk(s: JsString) {
    && 1 <= |s| <= 128
    && Alnum(s[0])
    && forall i :: 0 <= i < |s| ==> Alnum(s[i]) || s[i] in {0x3A, 0x2E, 0x5F, 0x2F, 0x2D}
  }

  /** FENCE_TOKEN_PATTERN: canonical decimal of at most 39 digits. */
  predicate FenceOk(s: JsString) {
    && 1 <= |s| <= 39
    && (forall i :: 0 <= i < |s| ==> IsDigit(s[i]))
    && (s[0] == 48 ==> |s| == 1)
  }

  predicate Conformant(h: Header) {
    IdOk(h.stream) && IdOk(h.epoch) && 1 <= h.sequence <= MAX_SAFE && FenceOk(h.fence) && Accepted(h.mutation)
  }

  const DOMAIN := Literal("selfconnect/ha-outbox/v1")
  const VERSION := Literal("1")

  function DigestFields(h: Header): (fields: seq<JsString>)
    requires h.sequence >= 0
    ensures |fields| == 7
  {
    [DOMAIN, VERSION, h.stream, h.epoch, Decimal(h.sequence), h.fence, CanonicalText(h.mutation)]
  }

  function Encoded(fields: seq<JsString>): (bytes: seq<seq<Byte>>)
    ensures |bytes| == |fields|
    ensures forall i :: 0 <= i < |fields| ==> bytes[i] == Utf8(fields[i])
  {
    seq(|fields|, i requires 0 <= i < |fields| => Utf8(fields[i]))
  }

  /** What is hashed: each field behind its length; None where canonicalOpDigest throws. */
  function Preimage(h: Header): Option<seq<Byte>> {
    if Conformant(h) then Frame(Encoded(DigestFields(h))) else None
  }

  lemma {:induction false} DecimalLength(n: nat, digits: nat, bound: nat)
    requires digits >= 1 && n < bound && bound == Pow10(digits)
    ensures |Decimal(n)| <= digits
  {
    if n >= 10 {
      assert digits >= 2 by { assert Pow10(1) == 10 * Pow10(0); }
      assert Pow10(digits) == 10 * Pow10(digits - 1);
      DecimalLength(n / 10, digits - 1, Pow10(digits - 1));
    }
  }

  function Pow10(n: nat): nat {
    if n == 0 then 1 else 10 * Pow10(n - 1)
  }

  /** The largest of 39 decimal digits. */
  const MAX_TOKEN: nat := 999999999999999999999999999999999999999

  /** A fence token up to the largest has at most 39 digits. */
  lemma FenceDigits(n: nat)
    requires n <= MAX_TOKEN
    ensures |Decimal(n)| <= 39
  {
    LargestFence();
    DecimalLength(n, 39, Pow10(39));
  }

  lemma LargestFence()
    ensures Pow10(39) == MAX_TOKEN + 1
  {
    assert Pow10(10) == 10000000000;
    assert Pow10(20) == 100000000000000000000;
    assert Pow10(30) == 1000000000000000000000000000000;
  }

  lemma FieldsAreWellFormed(h: Header, i: nat)
    requires Conformant(h) && i < 7
    ensures WellFormed(DigestFields(h)[i])
  {
    hide WellFormed, CanonicalText, Accepted, Decimal;
    AsciiText(DOMAIN);
    AsciiText(VERSION);
    AsciiText(h.stream);
    AsciiText(h.epoch);
    AsciiText(Decimal(h.sequence));
    AsciiText(h.fence);
    AcceptedOutputIsBounded(h.mutation);
  }

  lemma FieldsFit(h: Header)
    requires Conformant(h)
    ensures forall i :: 0 <= i < 7 ==> Fits(Utf8(DigestFields(h)[i]))
  {
    hide Utf8, CanonicalText, Accepted, Decimal;
    AsciiText(DOMAIN);
    AsciiText(VERSION);
    AsciiText(h.stream);
    AsciiText(h.epoch);
    AsciiText(Decimal(h.sequence));
    assert Pow10(16) == 10000000000000000 by {
      assert Pow10(4) == 10000;
      assert Pow10(8) == 100000000;
      assert Pow10(12) == 1000000000000;
    }
    DecimalLength(h.sequence, 16, Pow10(16));
    AsciiText(h.fence);
    AcceptedOutputIsBounded(h.mutation);
  }

  /** A digest is defined for exactly the conformant headers. */
  lemma DigestedExactlyWhenConformant(h: Header)
    ensures Preimage(h).Some? <==> Conformant(h)
  {
    hide DigestFields, IdOk, FenceOk, Accepted;
    if Conformant(h) {
      FieldsFit(h);
      FramedExactlyWhenFitting(Encoded(DigestFields(h)));
    }
  }

  /**
   * Equal digest preimages force an equal stream, epoch, sequence and fence token and the same mutation: with
   * a collision-free hash, a digest names one record.
   */
  lemma PreimageNamesTheRecord(a: Header, b: Header)
    requires Preimage(a).Some? && Preimage(a) == Preimage(b)
    requires UnitsIn(a.mutation) && UnitsIn(b.mutation) && Proper(a.mutation) && Proper(b.mutation)
    ensures a.stream == b.stream && a.epoch == b.epoch && a.sequence == b.sequence && a.fence == b.fence
    ensures Same(a.mutation, b.mutation)
  {
    hide Utf8, WellFormed, CanonicalText, Decimal, DecimalValue, Accepted, IdOk, FenceOk, Same, UnitsIn, Proper;
    FramingIsUniquelyDecodable(Encoded(DigestFields(a)), Encoded(DigestFields(b)));
    forall i | 0 <= i < 7 ensures DigestFields(a)[i] == DigestFields(b)[i] {
      assert Encoded(DigestFields(a))[i] == Encoded(DigestFields(b))[i];
      FieldsAreWellFormed(a, i);
      FieldsAreWellFormed(b, i);
      Utf8IsInjective(DigestFields(a)[i], DigestFields(b)[i]);
    }
    assert DigestFields(a)[2] == a.stream && DigestFields(a)[3] == a.epoch && DigestFields(a)[5] == a.fence;
    assert DigestFields(a)[4] == Decimal(a.sequence) && DigestFields(b)[4] == Decimal(b.sequence);
    assert DigestFields(a)[6] == CanonicalText(a.mutation) && DigestFields(b)[6] == CanonicalText(b.mutation);
    DecimalRoundTrip(a.sequence);
    DecimalRoundTrip(b.sequence);
    SameTextExactlyWhenSame(a.mutation, b.mutation);
  }
}
