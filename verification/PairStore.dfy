/**
 * PgTransactionalPairStore of packages/server/src/pg-durable-pair-store.ts. Every operation that changes
 * a table also emits one outbox mutation; the change is made by one of two source code paths (plain
 * statements, or the governed database function) and, later, by the replica's applier.
 */
module PairStore {
  import opened Wrappers
  import opened Pairs
  import opened PairReplica
  import opened Outbox

  /** What an atomicMutate callback does with the current pair. */
  datatype MutateResult = Unchanged | Replace(pair: Pair) | Throws

  datatype Operation =
    | SetPair(value: Pair)
    | DeletePairOp(pairId: string)
    | SetPending(token: string, registration: Registration, requestedAt: int)
    | DeletePendingOp(token: string)
    | AtomicMutate(pairId: string, mutate: Pair -> MutateResult)
    | ApprovePending(token: string, expected: Registration, requestedAt: int, pair: Pair, maxActivePairs: int)
    | RotatePair(expectedOld: Pair, replacement: Pair)
    | ClaimSuccessfulUse(pairId: string, at: int, policy: UsePolicy)
    | ExpireIfElapsed(pairId: string, now: int)
    | ExpireIfUsageExhausted(pairId: string)
    | LockIfFailureThreshold(pairId: string, minimumFailures: int)

  datatype Reply = Done | Flag(value: bool) | Claim(outcome: UseClaim) | Found(pair: Option<Pair>)

  /** The local table change, as the governed database function names it. */
  datatype Dml =
    | DmlPairUpsert(pair: Pair)
    | DmlPairDelete(pairId: string)
    | DmlPendingUpsert(token: string, registration: Registration, requestedAt: nat)
    | DmlPendingDelete(token: string)
    | DmlPairApprove(token: string, registration: Registration, requestedAt: nat, limit: nat, pair: Pair)
    | DmlPairRotate(expectedOld: Pair, replacement: Pair)

  /** An operation throws, leaves the tables alone, or appends a mutation and changes the tables with it. */
  datatype Effect = Fails(error: Error) | Keeps(reply: Reply) | Writes(mutation: Mutation, dml: Dml, reply: Reply)

  function ActiveIds(pairs: map<string, Row>): set<string> {
    set id | id in pairs && pairs[id].status == Active
  }

  /** A pair.set mutation carrying `next`, and the upsert that goes with it. */
  function WritePair(stream: string, next: Pair, reply: Reply): Effect {
    match SealPair(next, PairAad(stream, PairSetV1, next.id))
    case Err(e) => Fails(e)
    case Ok(sealed) => Writes(PairSet(next.id, sealed), DmlPairUpsert(next), reply)
  }

  function AtomicMutateEffect(stream: string, t: Tables, pairId: string, mutate: Pair -> MutateResult): Effect {
    if !IdOk(pairId) then Fails(Invalid)
    else if pairId !in t.pairs then Keeps(Found(None))
    else
      var current := FromRow(t.pairs[pairId]);
      match mutate(current)
      case Throws => Fails(CallbackThrew)
      case Unchanged => Keeps(Found(Some(current)))
      case Replace(candidate) =>
        match NormalizePair(candidate)
        case Err(e) => Fails(e)
        case Ok(next) =>
          if next.id != pairId then Fails(Invalid)
          else WritePair(stream, next, Found(Some(FromRow(ToRow(next)))))
  }

  function ApproveEffect(stream: string, t: Tables, token: string, expected: Registration, requestedAt: int,
                         pairValue: Pair, maxActivePairs: int): Effect
  {
    if !TokenOk(token) || !SafeNat(maxActivePairs) || maxActivePairs < 1 then Fails(Invalid) else
    match NormalizeRegistration(expected)
    case Err(e) => Fails(e)
    case Ok(registration) =>
      match NormalizePair(pairValue)
      case Err(e) => Fails(e)
      case Ok(pair) =>
        if !(HasInitialState(pair) && MatchesRegistration(pair, registration)) || !SafeNat(requestedAt) then
          Fails(Invalid)
        else
          match SealRegistration(registration, PendingAad(stream, PairApproveV1, token, requestedAt))
          case Err(e) => Fails(e)
          case Ok(expectedPending) =>
            match SealPair(pair, PairAad(stream, PairApproveV1, pair.id))
            case Err(e) => Fails(e)
            case Ok(sealed) =>
              if token !in t.pending then Keeps(Flag(false))
              else if t.pending[token].requestedAt != requestedAt
                      || NormalizeRegistration(t.pending[token].registration) != Ok(registration) then
                Keeps(Flag(false))
              else if |ActiveIds(t.pairs)| >= maxActivePairs then Fails(CapacityReached)
              else if pair.id in t.pairs then Fails(IdentityExists)
              else Writes(PairApprove(token, requestedAt, expectedPending, pair.id, sealed),
                          DmlPairApprove(token, registration, requestedAt, maxActivePairs, pair), Flag(true))
  }

  function RotateEffect(stream: string, t: Tables, oldValue: Pair, newValue: Pair): Effect {
    match NormalizePair(oldValue)
    case Err(e) => Fails(e)
    case Ok(expectedOld) =>
      match NormalizePair(newValue)
      case Err(e) => Fails(e)
      case Ok(replacement) =>
        if expectedOld.id == replacement.id then Fails(Invalid)
        else if !(expectedOld.status == Active && HasInitialState(replacement)
                  && RotationPolicyMatches(expectedOld, replacement)) then Fails(Invalid)
        else
          match SealPair(expectedOld, PairAad(stream, PairRotateV1, expectedOld.id))
          case Err(e) => Fails(e)
          case Ok(sealedOld) =>
            match SealPair(replacement, PairAad(stream, PairRotateV1, replacement.id))
            case Err(e) => Fails(e)
            case Ok(sealed) =>
              if expectedOld.id !in t.pairs
                 || NormalizePair(FromRow(t.pairs[expectedOld.id])) != Ok(expectedOld) then Keeps(Flag(false))
              else if replacement.id in t.pairs then Keeps(Flag(false))
              else Writes(PairRotate(expectedOld.id, sealedOld, replacement.id, sealed),
                          DmlPairRotate(expectedOld, replacement), Flag(true))
  }

  function ClaimEffect(stream: string, t: Tables, pairId: string, at: int, policy: UsePolicy): Effect {
    if !IdOk(pairId) || !SafeNat(at) then Fails(Invalid)
    else if pairId !in t.pairs then Keeps(Claim(Missing))
    else
      var current := FromRow(t.pairs[pairId]);
      if current.status == Expired && ElapsedAt(current, at) then Keeps(Claim(TimeExpired))
      else if current.status == Expired && CapReached(current, current.requests) then Keeps(Claim(UsageExhausted))
      else if current.status != Active then Keeps(Claim(Inactive))
      else if ElapsedAt(current, at) then WritePair(stream, current.(status := Expired), Claim(TimeExpired))
      else if CapReached(current, current.requests) then
        WritePair(stream, current.(status := Expired), Claim(UsageExhausted))
      else if !UsePolicyMatches(current, policy) then Keeps(Claim(PolicyChanged))
      else if current.requests + 1 > MAX_SAFE then Fails(CounterExhausted)
      else WritePair(stream, AfterUse(current, at), Claim(Claimed))
  }

  /** conditionalStatus: change the status of a pair that still satisfies the predicate. */
  function ConditionalStatus(stream: string, t: Tables, pairId: string, test: Pair -> bool, status: Status): Effect {
    if !IdOk(pairId) then Fails(Invalid)
    else if pairId !in t.pairs || !test(FromRow(t.pairs[pairId])) then Keeps(Flag(false))
    else WritePair(stream, FromRow(t.pairs[pairId]).(status := status), Flag(true))
  }

  function ElapsedTest(now: nat): Pair -> bool {
    (p: Pair) => p.status == Active && ElapsedAt(p, now)
  }

  function CapTest(): Pair -> bool {
    (p: Pair) => p.status == Active && CapReached(p, p.requests)
  }

  function FailureTest(minimum: int): Pair -> bool {
    (p: Pair) => p.status == Active && p.failedSigs >= minimum
  }

  function SetPairEffect(stream: string, value: Pair): Effect {
    match NormalizePair(value)
    case Err(e) => Fails(e)
    case Ok(pair) => WritePair(stream, pair, Done)
  }

  function SetPendingEffect(stream: string, token: string, value: Registration, at: int): Effect {
    if !TokenOk(token) || !SafeNat(at) then Fails(Invalid) else
    match NormalizeRegistration(value)
    case Err(e) => Fails(e)
    case Ok(r) =>
      match SealRegistration(r, PendingAad(stream, PendingSetV1, token, at))
      case Err(e) => Fails(e)
      case Ok(sealed) => Writes(PendingSet(token, at, sealed), DmlPendingUpsert(token, r, at), Done)
  }

  function OperationEffect(stream: string, t: Tables, op: Operation): Effect {
    match op
    case SetPair(value) => SetPairEffect(stream, value)
    case DeletePairOp(id) => if IdOk(id) then Writes(PairDelete(id), DmlPairDelete(id), Done) else Fails(Invalid)
    case SetPending(token, value, at) => SetPendingEffect(stream, token, value, at)
    case DeletePendingOp(token) =>
      if TokenOk(token) then Writes(PendingDelete(token), DmlPendingDelete(token), Done) else Fails(Invalid)
    case AtomicMutate(id, mutate) => AtomicMutateEffect(stream, t, id, mutate)
    case ApprovePending(token, expected, at, pair, limit) => ApproveEffect(stream, t, token, expected, at, pair, limit)
    case RotatePair(expectedOld, replacement) => RotateEffect(stream, t, expectedOld, replacement)
    case ClaimSuccessfulUse(id, at, policy) => ClaimEffect(stream, t, id, at, policy)
    case ExpireIfElapsed(id, now) =>
      if !SafeNat(now) then Fails(Invalid)
      else ConditionalStatus(stream, t, id, ElapsedTest(now), Expired)
    case ExpireIfUsageExhausted(id) =>
      ConditionalStatus(stream, t, id, CapTest(), Expired)
    case LockIfFailureThreshold(id, minimum) =>
      if !SafeNat(minimum) || minimum < 1 then Fails(Invalid)
      else ConditionalStatus(stream, t, id, FailureTest(minimum), Locked)
  }

  // ---- The two source paths for the table change ----

  /** The statements the store itself issues. */
  function PlainDml(t: Tables, dml: Dml): Result<Tables, Error> {
    match dml
    case DmlPairUpsert(p) => Ok(UpsertPair(t, p))
    case DmlPairDelete(id) => Ok(DeletePair(t, id))
    case DmlPendingUpsert(token, r, at) => Ok(UpsertPending(t, token, r, at))
    case DmlPendingDelete(token) => Ok(DeletePending(t, token))
    case DmlPairApprove(token, r, at, limit, p) =>
      if !(token in t.pending && t.pending[token].requestedAt == at) then Err(PreconditionFailed)
      else if p.id in t.pairs then Err(IdentityExists)
      else Ok(UpsertPair(DeletePending(t, token), p))
    case DmlPairRotate(expectedOld, replacement) =>
      var rotated := UpsertPair(t, expectedOld.(status := Rotated));
      if replacement.id in rotated.pairs then Err(IdentityExists)
      else Ok(UpsertPair(rotated, replacement))
  }

  /** bpc_ha.apply_pair_mutation: rotation updates the status of a row that equals the expected one. */
  function GovernedDml(t: Tables, dml: Dml): Result<Tables, Error> {
    match dml
    case DmlPairUpsert(p) => Ok(UpsertPair(t, p))
    case DmlPairDelete(id) => Ok(DeletePair(t, id))
    case DmlPendingUpsert(token, r, at) => Ok(UpsertPending(t, token, r, at))
    case DmlPendingDelete(token) => Ok(DeletePending(t, token))
    case DmlPairApprove(token, r, at, limit, p) =>
      if !(token in t.pending && t.pending[token] == PendingRow(r, at)) then Err(PreconditionFailed)
      else if |ActiveIds(t.pairs)| >= limit then Err(CapacityReached)
      else if p.id in t.pairs then Err(IdentityExists)
      else Ok(UpsertPair(DeletePending(t, token), p))
    case DmlPairRotate(expectedOld, replacement) =>
      if !(expectedOld.id in t.pairs && t.pairs[expectedOld.id] == ToRow(expectedOld)) then Err(PreconditionFailed)
      else
        var rotated := t.(pairs := t.pairs[expectedOld.id := t.pairs[expectedOld.id].(status := Rotated)]);
        if replacement.id in rotated.pairs then Err(IdentityExists)
        else Ok(UpsertPair(rotated, replacement))
  }

  /** All three paths of a write leave the same well-formed tables. */
  ghost predicate Agrees(stream: string, t: Tables, e: Effect) {
    e.Writes? ==>
      && Sanitized(e.mutation)
      && PlainDml(t, e.dml).Ok?
      && GovernedDml(t, e.dml) == PlainDml(t, e.dml)
      && ApplyMutation(stream, t, e.mutation) == PlainDml(t, e.dml)
      && TablesOk(PlainDml(t, e.dml).value)
  }

  lemma UpsertKeepsTablesOk(t: Tables, p: Pair)
    requires TablesOk(t) && ValidPair(p)
    ensures TablesOk(UpsertPair(t, p))
  {
  }

  lemma WritePairAgrees(stream: string, t: Tables, next: Pair, reply: Reply)
    requires TablesOk(t)
    ensures Agrees(stream, t, WritePair(stream, next, reply))
  {
    if WritePair(stream, next, reply).Writes? {
      OpenSealedPair(next, PairAad(stream, PairSetV1, next.id), PairAad(stream, PairSetV1, next.id));
      UpsertKeepsTablesOk(t, next);
    }
  }

  lemma SetPendingAgrees(stream: string, t: Tables, token: string, value: Registration, at: int)
    requires TablesOk(t)
    ensures Agrees(stream, t, SetPendingEffect(stream, token, value, at))
  {
    hide CanonicalPair;
  }

  /** An approval that writes has sealed exactly the pending row and the new pair it checked. */
  ghost predicate ApproveWrite(stream: string, t: Tables, e: Effect, token: string, at: nat, limit: nat, r: Registration, p: Pair) {
    && e == Writes(PairApprove(token, at, SealedRegistration(r, PendingAad(stream, PairApproveV1, token, at)),
                               p.id, SealedPair(p, PairAad(stream, PairApproveV1, p.id))),
                   DmlPairApprove(token, r, at, limit, p), Flag(true))
    && CanonicalRegistration(r) && CanonicalPair(p) && IdOk(p.id) && TokenOk(token) && SafeNat(at)
    && HasInitialState(p) && MatchesRegistration(p, r)
    && token in t.pending && t.pending[token].requestedAt == at
    && NormalizeRegistration(t.pending[token].registration) == Ok(r)
    && |ActiveIds(t.pairs)| < limit && p.id !in t.pairs
  }

  lemma ApproveWrites(stream: string, t: Tables, token: string, expected: Registration, at: int, pair: Pair, limit: int)
    requires ApproveEffect(stream, t, token, expected, at, pair, limit).Writes?
    ensures SafeNat(at) && limit >= 0
    ensures var e := ApproveEffect(stream, t, token, expected, at, pair, limit);
            e.dml.DmlPairApprove? && ApproveWrite(stream, t, e, token, at, limit, e.dml.registration, e.dml.pair)
  {
  }

  lemma ApproveWriteAgrees(stream: string, t: Tables, e: Effect, token: string, at: nat, limit: nat, r: Registration, p: Pair)
    requires TablesOk(t) && ApproveWrite(stream, t, e, token, at, limit, r, p)
    ensures Agrees(stream, t, e)
  {
    assert CanonicalRegistration(t.pending[token].registration);
    assert OpenRegistration(e.mutation.expectedPending, PendingAad(stream, PairApproveV1, token, at)) == Ok(r);
    OpensCanonical(p, PairAad(stream, PairApproveV1, p.id));
    UpsertKeepsTablesOk(DeletePending(t, token), p);
  }

  lemma ApproveAgrees(stream: string, t: Tables, token: string, expected: Registration, at: int, pair: Pair, limit: int)
    requires TablesOk(t)
    ensures Agrees(stream, t, ApproveEffect(stream, t, token, expected, at, pair, limit))
  {
    var e := ApproveEffect(stream, t, token, expected, at, pair, limit);
    if e.Writes? {
      ApproveWrites(stream, t, token, expected, at, pair, limit);
      ApproveWriteAgrees(stream, t, e, token, at, limit, e.dml.registration, e.dml.pair);
    }
  }

  /** A rotation that writes has sealed exactly the current row and the replacement it checked. */
  ghost predicate RotateWrite(stream: string, t: Tables, e: Effect, current: Pair, next: Pair) {
    && e == Writes(PairRotate(current.id, SealedPair(current, PairAad(stream, PairRotateV1, current.id)),
                              next.id, SealedPair(next, PairAad(stream, PairRotateV1, next.id))),
                   DmlPairRotate(current, next), Flag(true))
    && CanonicalPair(current) && CanonicalPair(next) && IdOk(current.id) && IdOk(next.id) && current.id != next.id
    && current.status == Active && HasInitialState(next) && RotationPolicyMatches(current, next)
    && current.id in t.pairs && NormalizePair(FromRow(t.pairs[current.id])) == Ok(current)
    && next.id !in t.pairs
  }

  lemma RotateWrites(stream: string, t: Tables, oldValue: Pair, newValue: Pair)
    requires RotateEffect(stream, t, oldValue, newValue).Writes?
    ensures var e := RotateEffect(stream, t, oldValue, newValue);
            e.dml.DmlPairRotate? && RotateWrite(stream, t, e, e.dml.expectedOld, e.dml.replacement)
  {
  }

  lemma OpensCanonical(p: Pair, aad: Aad)
    requires CanonicalPair(p) && IdOk(p.id) && aad.PairAad? && aad.pairId == p.id
    ensures OpenPair(SealedPair(p, aad), aad) == Ok(p)
  {
  }

  lemma RotationKeepsTablesOk(t: Tables, current: Pair, next: Pair)
    requires TablesOk(t) && CanonicalPair(current) && CanonicalPair(next)
    ensures TablesOk(UpsertPair(UpsertPair(t, current.(status := Rotated)), next))
  {
    UpsertKeepsTablesOk(t, current.(status := Rotated));
    UpsertKeepsTablesOk(UpsertPair(t, current.(status := Rotated)), next);
  }

  lemma StoredRowIsCanonical(t: Tables, id: string, p: Pair)
    requires TablesOk(t) && id in t.pairs && NormalizePair(FromRow(t.pairs[id])) == Ok(p)
    ensures t.pairs[id] == ToRow(p)
  {
    assert CanonicalPair(FromRow(t.pairs[id]));
    RowRoundTrip(t.pairs[id]);
  }

  lemma RotateWriteAgrees(stream: string, t: Tables, e: Effect, current: Pair, next: Pair)
    requires TablesOk(t) && RotateWrite(stream, t, e, current, next)
    ensures Agrees(stream, t, e)
  {
    hide RotationPolicyMatches, HasInitialState;
    StoredRowIsCanonical(t, current.id, current);
    OpensCanonical(current, PairAad(stream, PairRotateV1, current.id));
    OpensCanonical(next, PairAad(stream, PairRotateV1, next.id));
    RotationKeepsTablesOk(t, current, next);
  }

  lemma RotateAgrees(stream: string, t: Tables, oldValue: Pair, newValue: Pair)
    requires TablesOk(t)
    ensures Agrees(stream, t, RotateEffect(stream, t, oldValue, newValue))
  {
    var e := RotateEffect(stream, t, oldValue, newValue);
    if e.Writes? {
      RotateWrites(stream, t, oldValue, newValue);
      RotateWriteAgrees(stream, t, e, e.dml.expectedOld, e.dml.replacement);
    }
  }

  lemma AtomicMutateAgrees(stream: string, t: Tables, id: string, mutate: Pair -> MutateResult)
    requires TablesOk(t)
    ensures Agrees(stream, t, AtomicMutateEffect(stream, t, id, mutate))
  {
    var e := AtomicMutateEffect(stream, t, id, mutate);
    if e.Writes? { WritePairAgrees(stream, t, e.dml.pair, e.reply); }
  }

  lemma ClaimAgrees(stream: string, t: Tables, id: string, at: int, policy: UsePolicy)
    requires TablesOk(t)
    ensures Agrees(stream, t, ClaimEffect(stream, t, id, at, policy))
  {
    var e := ClaimEffect(stream, t, id, at, policy);
    if e.Writes? { WritePairAgrees(stream, t, e.dml.pair, e.reply); }
  }

  lemma ConditionalStatusAgrees(stream: string, t: Tables, id: string, test: Pair -> bool, status: Status)
    requires TablesOk(t)
    ensures Agrees(stream, t, ConditionalStatus(stream, t, id, test, status))
  {
    var e := ConditionalStatus(stream, t, id, test, status);
    if e.Writes? { WritePairAgrees(stream, t, e.dml.pair, e.reply); }
  }

  lemma DeletePairAgrees(stream: string, t: Tables, id: string)
    requires TablesOk(t)
    ensures Agrees(stream, t, OperationEffect(stream, t, DeletePairOp(id)))
  {
    hide CanonicalPair, CanonicalRegistration;
  }

  lemma DeletePendingAgrees(stream: string, t: Tables, token: string)
    requires TablesOk(t)
    ensures Agrees(stream, t, OperationEffect(stream, t, DeletePendingOp(token)))
  {
    hide CanonicalPair, CanonicalRegistration;
  }

  /**
   * Whatever an operation writes, the plain statements, the governed database function and the replica's
   * applier leave the same tables, and the applier's preconditions hold.
   */
  lemma OperationAgrees(stream: string, t: Tables, op: Operation)
    requires TablesOk(t)
    ensures Agrees(stream, t, OperationEffect(stream, t, op))
  {
    hide TablesOk, ApplyMutation, GovernedDml, AtomicMutateEffect, ApproveEffect, RotateEffect, ClaimEffect, ConditionalStatus,
         SetPendingEffect, WritePair;
    match op
    case SetPair(value) =>
      if NormalizePair(value).Ok? { WritePairAgrees(stream, t, NormalizePair(value).value, Done); }
    case DeletePairOp(id) => DeletePairAgrees(stream, t, id);
    case SetPending(token, value, at) => SetPendingAgrees(stream, t, token, value, at);
    case DeletePendingOp(token) => DeletePendingAgrees(stream, t, token);
    case AtomicMutate(id, mutate) => AtomicMutateAgrees(stream, t, id, mutate);
    case ApprovePending(token, expected, at, pair, limit) => ApproveAgrees(stream, t, token, expected, at, pair, limit);
    case RotatePair(expectedOld, replacement) => RotateAgrees(stream, t, expectedOld, replacement);
    case ClaimSuccessfulUse(id, at, policy) => ClaimAgrees(stream, t, id, at, policy);
    case ExpireIfElapsed(id, now) =>
      if SafeNat(now) {
        ConditionalStatusAgrees(stream, t, id, ElapsedTest(now), Expired);
      }
    case ExpireIfUsageExhausted(id) =>
      ConditionalStatusAgrees(stream, t, id, CapTest(), Expired);
    case LockIfFailureThreshold(id, minimum) =>
      ConditionalStatusAgrees(stream, t, id, FailureTest(minimum), Locked);
  }

  // ---- The source authority: tables and outbox together ----

  datatype Authority = Authority(source: Source, tables: Tables)

  /** How a scope writes: the fence token it presents, its admission bound and the path of its table change. */
  datatype TxScope = TxScope(fence: nat, maxPending: nat, governed: bool)

  function RunDml(t: Tables, dml: Dml, governed: bool): Result<Tables, Error> {
    if governed then GovernedDml(t, dml) else PlainDml(t, dml)
  }

  /**
   * One withOutboxTx scope, by either source path: the row and the table change commit together, or any
   * error rolls both back.
   */
  function CommitEffect(a: Authority, e: Effect, scope: TxScope): (Authority, Result<Reply, Error>) {
    match e
    case Fails(error) => (a, Err(error))
    case Keeps(reply) => (a, Ok(reply))
    case Writes(m, dml, reply) =>
      match Append(a.source, a.source.stream, m, scope.fence, scope.maxPending)
      case Err(error) => (a, Err(error))
      case Ok(s) =>
        match RunDml(a.tables, dml, scope.governed)
        case Err(error) => (a, Err(error))
        case Ok(t) => (Authority(s, t), Ok(reply))
  }

  function Commit(a: Authority, op: Operation, scope: TxScope): (Authority, Result<Reply, Error>) {
    CommitEffect(a, OperationEffect(a.source.stream, a.tables, op), scope)
  }

  /** The source's tables are the replay of its own log through the replica's applier. */
  ghost predicate LogIsState(a: Authority) {
    && SourceOk(a.source)
    && TablesOk(a.tables)
    && Replay(a.source.stream, EmptyTables, Mutations(Records(a.source.rows))) == Ok(a.tables)
  }

  /** A commit leaves the source alone or appends one row to it. */
  ghost predicate ExtendsByOneRow(s: Source, s': Source, maxPending: nat) {
    s' == s
    || (&& |s'.rows| == |s.rows| + 1 && s'.rows[..|s.rows|] == s.rows
        && FirstUnacked(s'.rows) == FirstUnacked(s.rows)
        && PendingCount(s'.rows) <= maxPending
        && s' == s.(rows := s'.rows, sequence := s'.sequence))
  }

  lemma AppendExtendsReplay(s: Source, t: Tables, m: Mutation, fence: nat, maxPending: nat)
    requires SourceOk(s)
    requires Replay(s.stream, EmptyTables, Mutations(Records(s.rows))) == Ok(t)
    requires Append(s, s.stream, m, fence, maxPending).Ok?
    ensures var s' := Append(s, s.stream, m, fence, maxPending).value;
            && SourceOk(s')
            && ExtendsByOneRow(s, s', maxPending)
            && Replay(s.stream, EmptyTables, Mutations(Records(s'.rows))) == ApplyMutation(s.stream, t, m)
  {
    hide ApplyMutation, Replay, PendingCount, MarksOk, RecordsOk, FirstUnacked;
    var s' := Append(s, s.stream, m, fence, maxPending).value;
    AppendKeepsSourceOk(s, s.stream, m, fence, maxPending);
    assert Mutations(Records(s'.rows)) == Mutations(Records(s.rows)) + [m];
    ReplaySnoc(s.stream, EmptyTables, Mutations(Records(s.rows)), m);
  }

  lemma EffectKeepsLogIsState(a: Authority, e: Effect, scope: TxScope)
    requires LogIsState(a)
    requires Agrees(a.source.stream, a.tables, e)
    ensures LogIsState(CommitEffect(a, e, scope).0)
    ensures ExtendsByOneRow(a.source, CommitEffect(a, e, scope).0.source, scope.maxPending)
  {
    if e.Writes? && Append(a.source, a.source.stream, e.mutation, scope.fence, scope.maxPending).Ok? {
      AppendExtendsReplay(a.source, a.tables, e.mutation, scope.fence, scope.maxPending);
    }
  }

  lemma CommitKeepsLogIsState(a: Authority, op: Operation, scope: TxScope)
    requires LogIsState(a)
    ensures LogIsState(Commit(a, op, scope).0)
    ensures ExtendsByOneRow(a.source, Commit(a, op, scope).0.source, scope.maxPending)
  {
    OperationAgrees(a.source.stream, a.tables, op);
    EffectKeepsLogIsState(a, OperationEffect(a.source.stream, a.tables, op), scope);
  }

  datatype CommitStep = CommitStep(op: Operation, scope: TxScope)

  function CommitAll(a: Authority, steps: seq<CommitStep>): Authority {
    if |steps| == 0 then a
    else Commit(CommitAll(a, steps[..|steps| - 1]), steps[|steps| - 1].op, steps[|steps| - 1].scope).0
  }

  function NewAuthority(stream: string, epoch: string, fence: nat): Authority {
    Authority(Source(stream, epoch, 0, Some(fence), [], map[], None, None), EmptyTables)
  }

  /**
   * After any sequence of operations from empty tables, each by either path, the source's tables equal
   * the replay of its own outbox rows through the replica's applier, and the applier refuses no prefix.
   */
  lemma {:induction false} LogRefinement(stream: string, epoch: string, fence: nat, steps: seq<CommitStep>)
    ensures var a := CommitAll(NewAuthority(stream, epoch, fence), steps);
            && LogIsState(a)
            && a.source.stream == stream
            && forall n :: 0 <= n <= |a.source.rows| ==> Replay(stream, EmptyTables, Mutations(Records(a.source.rows))[..n]).Ok?
  {
    var a := CommitAll(NewAuthority(stream, epoch, fence), steps);
    if |steps| > 0 {
      LogRefinement(stream, epoch, fence, steps[..|steps| - 1]);
      var last := steps[|steps| - 1];
      CommitKeepsLogIsState(CommitAll(NewAuthority(stream, epoch, fence), steps[..|steps| - 1]), last.op, last.scope);
    }
    forall n | 0 <= n <= |a.source.rows| ensures Replay(stream, EmptyTables, Mutations(Records(a.source.rows))[..n]).Ok? {
      ReplayPrefix(stream, EmptyTables, Mutations(Records(a.source.rows)), n);
    }
  }

  /** A log that replays completely replays every prefix completely. */
  lemma {:induction false} ReplayPrefix(stream: string, t: Tables, log: seq<Mutation>, n: nat)
    requires n <= |log|
    requires Replay(stream, t, log).Ok?
    ensures Replay(stream, t, log[..n]).Ok?
  {
    if n < |log| {
      ReplayPrefix(stream, t, log[..|log| - 1], n);
      assert log[..|log| - 1][..n] == log[..n];
    } else {
      assert log[..n] == log;
    }
  }
}
