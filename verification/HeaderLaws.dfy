/** Record headers as the outbox checks them are those the digest is defined for. */
module HeaderLaws {
  import opened Wrappers
  import opened Utf16
  import opened Framing
  import opened CanonicalJson
  import opened CanonicalWalk
  import D = OpDigest
  import O = Outbox

  function Units(text: string): JsString {
    seq(|text|, i requires 0 <= i < |text| => text[i] as int)
  }

  /** The name grammar of the outbox is ID_PATTERN on the code units. */
  lemma NamesAgree(name: string)
    ensures O.NameOk(name) <==> D.IdOk(Units(name))
  {
    if |name| > 0 { assert Units(name)[0] == name[0] as int; }
    if D.IdOk(Units(name)) {
      forall i | 0 <= i < |name| ensures O.NameChar(name[i]) || name[i] == ':' || name[i] == '.' || name[i] == '_' || name[i] == '/' || name[i] == '-' {
        assert Units(name)[i] == name[i] as int;
      }
    }
  }

  lemma {:induction false} DecimalIsCanonical(n: nat)
    ensures |Decimal(n)| >= 1 && (forall i :: 0 <= i < |Decimal(n)| ==> IsDigit(Decimal(n)[i]))
    ensures n > 0 ==> Decimal(n)[0] != 48
    ensures n < 10 ==> |Decimal(n)| == 1
  {
    if n >= 10 { DecimalIsCanonical(n / 10); }
  }

  lemma {:induction false} DecimalGrows(n: nat, digits: nat)
    requires digits >= 1 && |Decimal(n)| <= digits
    ensures n < D.Pow10(digits)
  {
    assert D.Pow10(digits) == 10 * D.Pow10(digits - 1);
    if n >= 10 {
      DecimalIsCanonical(n / 10);
      DecimalGrows(n / 10, digits - 1);
    } else {
      PowIsPositive(digits - 1);
    }
  }

  lemma {:induction false} PowIsPositive(digits: nat)
    ensures D.Pow10(digits) >= 1
  {
    if digits > 0 { PowIsPositive(digits - 1); }
  }

  lemma FencesAgree(fence: nat)
    ensures D.FenceOk(Decimal(fence)) <==> fence <= O.MAX_FENCE
  {
    DecimalIsCanonical(fence);
    if fence <= O.MAX_FENCE { D.FenceDigits(fence); }
    if |Decimal(fence)| <= 39 {
      DecimalGrows(fence, 39);
      D.LargestFence();
    }
    hide Decimal, D.Pow10;
  }

  /** A record has a digest exactly when its header passes the outbox's check and its mutation can be canonicalized. */
  lemma HeadersAgree(stream: string, epoch: string, sequence: nat, fence: nat, mutation: Json)
    ensures D.Preimage(D.Header(Units(stream), Units(epoch), sequence, Decimal(fence), mutation)).Some? <==>
              O.HeaderOk(stream, epoch, sequence, fence) && Accepted(mutation)
  {
    D.DigestedExactlyWhenConformant(D.Header(Units(stream), Units(epoch), sequence, Decimal(fence), mutation));
    NamesAgree(stream);
    NamesAgree(epoch);
    FencesAgree(fence);
    hide D.Preimage, Accepted, D.IdOk, O.NameOk, D.FenceOk, Decimal;
  }
}
