/**
 * The record domain of packages/server/src/pg-durable-pair-store.ts: what the normalisers accept, how a
 * pair is laid out in a database row, how a payload is sealed into an outbox mutation, and what the
 * replica's applier does with that mutation.
 */
module PairReplica {
  import opened Wrappers
  import opened Pairs

  datatype Error =
    | Invalid
    | NotProvisioned
    | StaleFence
    | Backpressure
    | SequenceExhausted
    | CapacityReached
    | IdentityExists
    | CallbackThrew
    | CounterExhausted
    | PreconditionFailed
    | LeaseLost
    | CorruptRow
    | ReceiptMismatch
    | QuarantineConflict

  // ---- Normalisers ----

  predicate SafeNat(n: int) {
    0 <= n <= MAX_SAFE
  }

  predicate SafeOption(n: Option<nat>) {
    n.Some? ==> SafeNat(n.value)
  }

  predicate B64Url(c: char) {
    'A' <= c <= 'Z' || 'a' <= c <= 'z' || '0' <= c <= '9' || c == '_' || c == '-'
  }

  predicate IdOk(s: string) {
    1 <= |s| <= 64 && forall i :: 0 <= i < |s| ==> B64Url(s[i])
  }

  predicate TokenOk(s: string) {
    1 <= |s| <= 256
  }

  /** Every fourth symbol of the alphabet: A to Z, a to z, 0 to 9, then two that do not qualify. */
  predicate EndsInZeroBits(c: char) {
    if 'A' <= c <= 'Z' then (c as int - 'A' as int) % 4 == 0
    else if 'a' <= c <= 'z' then (c as int - 'a' as int) % 4 == 2
    else '0' <= c <= '9' && (c as int - '0' as int) % 4 == 0
  }

  /** 32 bytes of unpadded base64url: the last of 43 symbols carries two zero padding bits. */
  predicate Key256(s: string) {
    |s| == 43 && (forall i :: 0 <= i < 42 ==> B64Url(s[i])) && EndsInZeroBits(s[42])
  }

  predicate ValidRegistration(r: Registration) {
    && 1 <= |r.name| <= 128
    && Key256(r.secretHash)
    && Key256(r.pubKey.x) && Key256(r.pubKey.y)
    && SafeOption(r.expiresAt) && SafeOption(r.maxRequests)
    && (KindOr(r.kind) == Ghost <==> r.canaryClass.Some?)
  }

  function RegistrationOf(p: Pair): Registration {
    Registration(p.name, p.scope, p.mode, p.secretHash, p.pubKey, p.expiresAt, p.maxRequests, p.kind, p.canaryClass)
  }

  predicate ValidPair(p: Pair) {
    && ValidRegistration(RegistrationOf(p))
    && IdOk(p.id)
    && SafeNat(p.created) && SafeNat(p.requests) && SafeNat(p.failedSigs)
    && SafeOption(p.lastActive)
    && (p.firstFailureAt.At? ==> SafeNat(p.firstFailureAt.time))
    && (p.cumulativeFailures.Some? ==> p.cumulativeFailures.value >= 0.0)
  }

  /** normalizePair: refuses an invalid record, fills in the default kind. */
  function NormalizePair(p: Pair): Result<Pair, Error> {
    if ValidPair(p) then Ok(p.(kind := Some(KindOr(p.kind)))) else Err(Invalid)
  }

  function NormalizeRegistration(r: Registration): Result<Registration, Error> {
    if ValidRegistration(r) then Ok(r.(kind := Some(KindOr(r.kind)))) else Err(Invalid)
  }

  predicate CanonicalPair(p: Pair) {
    NormalizePair(p) == Ok(p)
  }

  predicate CanonicalRegistration(r: Registration) {
    NormalizeRegistration(r) == Ok(r)
  }

  // ---- Database rows ----

  /** A bpc_pairs row: `undefined` and `null` share NULL, so firstFailureAt loses a distinction. */
  datatype Row = Row(
    id: string,
    name: string,
    scope: Scope,
    mode: Mode,
    secretHash: string,
    pubKey: PublicKey,
    status: Status,
    created: nat,
    lastActive: Option<nat>,
    requests: nat,
    failedSigs: nat,
    cumulativeFailures: Option<real>,
    firstFailureAt: Option<nat>,
    maxRequests: Option<nat>,
    kind: Kind,
    canaryClass: Option<CanaryClass>,
    expiresAt: Option<nat>)

  datatype PendingRow = PendingRow(registration: Registration, requestedAt: nat)

  datatype Tables = Tables(pairs: map<string, Row>, pending: map<string, PendingRow>)

  const EmptyTables := Tables(map[], map[])

  /** pairParams: the parameters of every INSERT into bpc_pairs. */
  function ToRow(p: Pair): Row {
    Row(p.id, p.name, p.scope, p.mode, p.secretHash, p.pubKey, p.status, p.created, p.lastActive, p.requests,
        p.failedSigs, p.cumulativeFailures,
        if p.firstFailureAt.At? then Some(p.firstFailureAt.time) else None,
        p.maxRequests, KindOr(p.kind), p.canaryClass, p.expiresAt)
  }

  /** rowToPair. */
  function FromRow(r: Row): Pair {
    Pair(r.id, r.name, r.scope, r.mode, r.secretHash, r.pubKey, r.status, r.created, r.lastActive, r.requests,
         r.failedSigs, r.cumulativeFailures,
         if r.firstFailureAt.Some? then At(r.firstFailureAt.value) else Absent,
         r.expiresAt, r.maxRequests, Some(r.kind), r.canaryClass)
  }

  ghost predicate TablesOk(t: Tables) {
    && (forall id :: id in t.pairs ==> t.pairs[id].id == id && CanonicalPair(FromRow(t.pairs[id])))
    && (forall tok :: tok in t.pending ==>
          TokenOk(tok) && CanonicalRegistration(t.pending[tok].registration) && SafeNat(t.pending[tok].requestedAt))
  }

  /** Reading a row back and writing it again changes nothing. */
  lemma RowRoundTrip(r: Row)
    ensures ToRow(FromRow(r)) == r
  {
  }

  function UpsertPair(t: Tables, p: Pair): Tables {
    t.(pairs := t.pairs[p.id := ToRow(p)])
  }

  function DeletePair(t: Tables, id: string): Tables {
    t.(pairs := t.pairs - {id})
  }

  function UpsertPending(t: Tables, token: string, r: Registration, requestedAt: nat): Tables {
    t.(pending := t.pending[token := PendingRow(r, requestedAt)])
  }

  function DeletePending(t: Tables, token: string): Tables {
    t.(pending := t.pending - {token})
  }

  // ---- Sealed payloads and mutations ----

  datatype MutationKind = PairSetV1 | PendingSetV1 | PairApproveV1 | PairRotateV1

  datatype Aad =
    | PairAad(stream: string, kind: MutationKind, pairId: string)
    | PendingAad(stream: string, kind: MutationKind, token: string, requestedAt: nat)

  /** AES-256-GCM as a term: only the additional data it was sealed with opens it, to the payload it holds. */
  datatype Sealed =
    | SealedPair(pair: Pair, aad: Aad)
    | SealedRegistration(registration: Registration, aad: Aad)

  datatype Mutation =
    | PairSet(pairId: string, sealed: Sealed)
    | PairDelete(pairId: string)
    | PendingSet(token: string, requestedAt: nat, sealed: Sealed)
    | PendingDelete(token: string)
    | PairApprove(token: string, requestedAt: nat, expectedPending: Sealed, pairId: string, sealed: Sealed)
    | PairRotate(oldPairId: string, expectedOld: Sealed, newPairId: string, sealed: Sealed)

  /** normalizeMutation: the shape check of both the source's sanitizer and the receiver's re-check. */
  predicate Sanitized(m: Mutation) {
    match m
    case PairSet(id, _) => IdOk(id)
    case PairDelete(id) => IdOk(id)
    case PendingSet(token, at, _) => TokenOk(token) && SafeNat(at)
    case PendingDelete(token) => TokenOk(token)
    case PairApprove(token, at, _, id, _) => TokenOk(token) && SafeNat(at) && IdOk(id)
    case PairRotate(oldId, _, newId, _) => IdOk(oldId) && IdOk(newId) && oldId != newId
  }

  function SealPair(p: Pair, aad: Aad): Result<Sealed, Error> {
    match NormalizePair(p)
    case Err(e) => Err(e)
    case Ok(clean) => if aad.PairAad? && clean.id == aad.pairId then Ok(SealedPair(clean, aad)) else Err(Invalid)
  }

  function OpenPair(s: Sealed, aad: Aad): Result<Pair, Error> {
    if !(aad.PairAad? && IdOk(aad.pairId) && s.SealedPair? && s.aad == aad) then Err(Invalid) else
    match NormalizePair(s.pair)
    case Err(e) => Err(e)
    case Ok(p) => if p.id == aad.pairId then Ok(p) else Err(Invalid)
  }

  function SealRegistration(r: Registration, aad: Aad): Result<Sealed, Error> {
    if !(aad.PendingAad? && TokenOk(aad.token) && SafeNat(aad.requestedAt)) then Err(Invalid) else
    match NormalizeRegistration(r)
    case Err(e) => Err(e)
    case Ok(clean) => Ok(SealedRegistration(clean, aad))
  }

  function OpenRegistration(s: Sealed, aad: Aad): Result<Registration, Error> {
    if !(aad.PendingAad? && TokenOk(aad.token) && SafeNat(aad.requestedAt) && s.SealedRegistration? && s.aad == aad)
    then Err(Invalid)
    else NormalizeRegistration(s.registration)
  }

  // ---- The replica ----

  function ApproveOnReplica(t: Tables, m: Mutation, pending: Registration, approved: Pair): Result<Tables, Error>
    requires m.PairApprove?
  {
    if !(HasInitialState(approved) && MatchesRegistration(approved, pending)) then
      Err(PreconditionFailed)
    else if !(&& m.token in t.pending
              && t.pending[m.token].requestedAt == m.requestedAt
              && NormalizeRegistration(t.pending[m.token].registration) == Ok(pending)) then
      Err(PreconditionFailed)
    else if m.pairId in t.pairs then
      Err(IdentityExists)
    else
      Ok(UpsertPair(DeletePending(t, m.token), approved))
  }

  function RotateOnReplica(t: Tables, m: Mutation, expected: Pair, replacement: Pair): Result<Tables, Error>
    requires m.PairRotate?
  {
    if !(expected.status == Active && HasInitialState(replacement) && RotationPolicyMatches(expected, replacement)) then
      Err(PreconditionFailed)
    else if !(m.oldPairId in t.pairs && NormalizePair(FromRow(t.pairs[m.oldPairId])) == Ok(expected)) then
      Err(PreconditionFailed)
    else if m.newPairId in t.pairs then
      Err(IdentityExists)
    else
      Ok(UpsertPair(UpsertPair(t, expected.(status := Rotated)), replacement))
  }

  /** PgPairMutationApplier.applyInTx. */
  function ApplyMutation(stream: string, t: Tables, m: Mutation): Result<Tables, Error> {
    if !Sanitized(m) then Err(Invalid) else
    match m
    case PairSet(id, sealed) =>
      (match OpenPair(sealed, PairAad(stream, PairSetV1, id))
       case Err(e) => Err(e)
       case Ok(p) => Ok(UpsertPair(t, p)))
    case PairDelete(id) => Ok(DeletePair(t, id))
    case PendingSet(token, at, sealed) =>
      (match OpenRegistration(sealed, PendingAad(stream, PendingSetV1, token, at))
       case Err(e) => Err(e)
       case Ok(r) => Ok(UpsertPending(t, token, r, at)))
    case PendingDelete(token) => Ok(DeletePending(t, token))
    case PairApprove(token, at, expectedPending, id, sealed) =>
      (match OpenRegistration(expectedPending, PendingAad(stream, PairApproveV1, token, at))
       case Err(e) => Err(e)
       case Ok(pending) =>
         match OpenPair(sealed, PairAad(stream, PairApproveV1, id))
         case Err(e) => Err(e)
         case Ok(approved) => ApproveOnReplica(t, m, pending, approved))
    case PairRotate(oldId, expectedOld, newId, sealed) =>
      (match OpenPair(expectedOld, PairAad(stream, PairRotateV1, oldId))
       case Err(e) => Err(e)
       case Ok(expected) =>
         match OpenPair(sealed, PairAad(stream, PairRotateV1, newId))
         case Err(e) => Err(e)
         case Ok(replacement) => RotateOnReplica(t, m, expected, replacement))
  }

  function Then(stream: string, before: Result<Tables, Error>, m: Mutation): Result<Tables, Error> {
    if before.Err? then before else ApplyMutation(stream, before.value, m)
  }

  /** The replica after applying a whole log, or the first refusal. */
  function Replay(stream: string, t: Tables, log: seq<Mutation>): Result<Tables, Error> {
    if |log| == 0 then Ok(t) else Then(stream, Replay(stream, t, log[..|log| - 1]), log[|log| - 1])
  }

  lemma ReplaySnoc(stream: string, t: Tables, log: seq<Mutation>, m: Mutation)
    ensures Replay(stream, t, log + [m]) == Then(stream, Replay(stream, t, log), m)
  {
    assert (log + [m])[..|log + [m]| - 1] == log;
  }

  /** What is sealed opens again under the same additional data, and under no other. */
  lemma OpenSealedPair(p: Pair, aad: Aad, other: Aad)
    requires SealPair(p, aad).Ok?
    ensures OpenPair(SealPair(p, aad).value, other) == (if other == aad then NormalizePair(p) else Err(Invalid))
  {
  }
}
