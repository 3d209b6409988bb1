/** Pair records, registrations and the policy predicates of packages/server/src/store.ts. */
module Pairs {
  import opened Wrappers

  datatype Scope = Read | ReadWrite | Admin
  datatype Mode = Development | Production
  datatype Status = Active | Locked | Expired | Rotated | Revoked
  datatype Kind = Legitimate | Ghost
  datatype CanaryClass = EnvFile | Docs | RegistryExfil

  /** The canonical public key: key_ops and ext are dropped by canonicalAuthorizationJwk. */
  datatype PublicKey = P256(x: string, y: string)

  /** `firstFailureAt` is optional and, when present, may be null. */
  datatype FirstFailure = Absent | Null | At(time: nat)

  datatype Pair = Pair(
    id: string,
    name: string,
    scope: Scope,
    mode: Mode,
    secretHash: string,
    pubKey: PublicKey,
    status: Status,
    created: nat,
    lastActive: Option<nat>,
    requests: nat,
    failedSigs: nat,
    cumulativeFailures: Option<real>,
    firstFailureAt: FirstFailure,
    expiresAt: Option<nat>,
    maxRequests: Option<nat>,
    kind: Option<Kind>,
    canaryClass: Option<CanaryClass>)

  datatype Registration = Registration(
    name: string,
    scope: Scope,
    mode: Mode,
    secretHash: string,
    pubKey: PublicKey,
    expiresAt: Option<nat>,
    maxRequests: Option<nat>,
    kind: Option<Kind>,
    canaryClass: Option<CanaryClass>)

  /** Authorization-relevant state that must still match at the final use claim. */
  datatype UsePolicy = UsePolicy(
    status: Status,
    scope: Scope,
    mode: Mode,
    secretHash: string,
    pubKey: PublicKey,
    expiresAt: Option<nat>,
    maxRequests: Option<nat>,
    kind: Kind,
    canaryClass: Option<CanaryClass>)

  datatype UseClaim = Claimed | Missing | Inactive | PolicyChanged | TimeExpired | UsageExhausted

  function KindOr(kind: Option<Kind>): Kind {
    match kind
    case Some(k) => k
    case None => Legitimate
  }

  predicate HasInitialState(p: Pair) {
    && p.status == Active
    && p.lastActive == None
    && p.requests == 0
    && p.failedSigs == 0
    && p.cumulativeFailures == None
    && p.firstFailureAt == Absent
  }

  predicate MatchesRegistration(p: Pair, r: Registration) {
    && p.name == r.name
    && p.scope == r.scope
    && p.mode == r.mode
    && p.secretHash == r.secretHash
    && p.pubKey == r.pubKey
    && p.expiresAt == r.expiresAt
    && p.maxRequests == r.maxRequests
    && KindOr(p.kind) == KindOr(r.kind)
    && p.canaryClass == r.canaryClass
  }

  predicate RotationPolicyMatches(current: Pair, replacement: Pair) {
    && current.name == replacement.name
    && current.scope == replacement.scope
    && current.mode == replacement.mode
    && current.secretHash == replacement.secretHash
    && current.expiresAt == replacement.expiresAt
    && current.maxRequests == replacement.maxRequests
    && KindOr(current.kind) == KindOr(replacement.kind)
    && current.canaryClass == replacement.canaryClass
  }

  function SuccessfulUsePolicy(p: Pair): UsePolicy {
    UsePolicy(p.status, p.scope, p.mode, p.secretHash, p.pubKey, p.expiresAt, p.maxRequests,
              KindOr(p.kind), p.canaryClass)
  }

  predicate UsePolicyMatches(p: Pair, expected: UsePolicy) {
    SuccessfulUsePolicy(p) == expected
  }

  /** A positive cap has been reached; a cap of zero is none. */
  predicate CapReached(p: Pair, requests: nat) {
    p.maxRequests.Some? && p.maxRequests.value > 0 && requests >= p.maxRequests.value
  }

  /** The expiry, where there is one, lies before this time. */
  predicate ElapsedAt(p: Pair, at: nat) {
    p.expiresAt.Some? && p.expiresAt.value < at
  }

  /** The pair written back by a claimed use. */
  function AfterUse(p: Pair, at: nat): Pair {
    p.(requests := p.requests + 1,
       lastActive := Some(at),
       failedSigs := 0,
       cumulativeFailures := Some(0.0),
       firstFailureAt := Null,
       status := if CapReached(p, p.requests + 1) then Expired else p.status)
  }
}
