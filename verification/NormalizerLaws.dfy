/** Exactly which registrations and pairs the normalisers take, and what the 43 symbols of a 256-bit key are. */
module NormalizerLaws {
  import opened Wrappers
  import opened Pairs
  import opened PairReplica

  /** The six bits of a base64url symbol. */
  function Bits(c: char): Option<nat> {
    if 'A' <= c <= 'Z' then Some(c as nat - 65)
    else if 'a' <= c <= 'z' then Some(c as nat - 97 + 26)
    else if '0' <= c <= '9' then Some(c as nat - 48 + 52)
    else if c == '-' then Some(62)
    else if c == '_' then Some(63)
    else None
  }

  /** The number a text of symbols stands for, most significant first. */
  function Number(s: string): nat {
    if |s| == 0 then 0
    else 64 * Number(s[..|s| - 1]) + (match Bits(s[|s| - 1]) case None => 0 case Some(b) => b)
  }

  /** A key is 43 symbols, 258 bits, whose number is one of 256 bits followed by two zeros. */
  lemma KeysAre256Bits(s: string)
    ensures Key256(s) <==> |s| == 43 && (forall i :: 0 <= i < 43 ==> Bits(s[i]).Some?) && Number(s) % 4 == 0
  {
    forall c ensures B64Url(c) <==> Bits(c).Some? { SymbolBits(c); }
    if |s| == 43 && Bits(s[42]).Some? {
      SymbolBits(s[42]);
      assert s[..43] == s;
      assert Number(s) == 64 * Number(s[..42]) + Bits(s[42]).value;
      assert Number(s) % 4 == Bits(s[42]).value % 4;
    }
    if Key256(s) { SymbolBits(s[42]); }
    hide Number, Bits, EndsInZeroBits, B64Url;
  }

  lemma SymbolBits(c: char)
    ensures B64Url(c) <==> Bits(c).Some?
    ensures EndsInZeroBits(c) <==> Bits(c).Some? && Bits(c).value % 4 == 0
  {
  }

  predicate Safe(n: int) {
    0 <= n <= 9007199254740991
  }

  predicate SafeIfAny(n: Option<nat>) {
    match n case None => true case Some(x) => Safe(x)
  }

  /** A registration is taken exactly when its name, keys and numbers keep their bounds, and it has a canary class exactly as a ghost. */
  lemma RegistrationsTaken(r: Registration)
    ensures NormalizeRegistration(r).Ok? <==>
              && r.name != "" && |r.name| <= 128 && Key256(r.secretHash) && Key256(r.pubKey.x) && Key256(r.pubKey.y)
              && SafeIfAny(r.expiresAt) && SafeIfAny(r.maxRequests) && (r.kind == Some(Ghost) <==> r.canaryClass != None)
    ensures NormalizeRegistration(r).Ok? ==>
              NormalizeRegistration(r).value == r.(kind := Some(if r.kind == Some(Ghost) then Ghost else Legitimate))
  {
    hide Key256;
  }

  /** A pair is taken exactly when its registration is, its id is of base64url symbols, and its counters and times keep their bounds. */
  lemma PairsTaken(p: Pair)
    ensures NormalizePair(p).Ok? <==>
              && NormalizeRegistration(RegistrationOf(p)).Ok?
              && 1 <= |p.id| <= 64 && (forall i :: 0 <= i < |p.id| ==> Bits(p.id[i]).Some?)
              && Safe(p.created) && Safe(p.requests) && Safe(p.failedSigs) && SafeIfAny(p.lastActive)
              && (p.firstFailureAt.At? ==> Safe(p.firstFailureAt.time))
              && (p.cumulativeFailures.Some? ==> p.cumulativeFailures.value >= 0.0)
    ensures NormalizePair(p).Ok? ==> NormalizePair(p).value == p.(kind := Some(if p.kind == Some(Ghost) then Ghost else Legitimate))
  {
    forall c ensures B64Url(c) <==> Bits(c).Some? { SymbolBits(c); }
    hide ValidRegistration, Bits;
  }
}
