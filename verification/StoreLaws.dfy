/**
 * The durable pair store against the memory store: by either write path a committed operation answers what the
 * memory store answers on the same pairs, and leaves the rows of the pairs the memory store leaves.
 */
module StoreLaws {
  import opened Wrappers
  import opened Pairs
  import opened PairReplica
  import opened Outbox
  import opened PairStore
  import A = Authorization
  import Verdicts

  /** The pairs the tables hold. */
  function Held(t: Tables): map<string, Pair> {
    map id | id in t.pairs :: FromRow(t.pairs[id])
  }

  /** The rows of these pairs. */
  predicate RowsOf(rows: map<string, Row>, pairs: map<string, Pair>) {
    rows.Keys == pairs.Keys && forall id :: id in rows ==> rows[id] == ToRow(pairs[id])
  }

  /** What the outbox asks of a transaction that writes. */
  predicate Admits(s: Source, scope: TxScope) {
    s.fence == Some(scope.fence) && PendingCount(s.rows) < scope.maxPending && HeaderOk(s.stream, s.epoch, s.sequence + 1, scope.fence)
  }

  lemma HeldRows(t: Tables)
    ensures RowsOf(t.pairs, Held(t))
  {
  }

  lemma HeldWith(t: Tables, p: Pair)
    ensures RowsOf(t.pairs[p.id := ToRow(p)], Held(t)[p.id := p])
  {
  }

  /** A writing effect commits exactly when the outbox admits it, by either path, with the rows of the plain statements. */
  lemma WritesCommit(a: Authority, e: Effect, scope: TxScope)
    requires TablesOk(a.tables) && Agrees(a.source.stream, a.tables, e) && e.Writes?
    ensures var (a', r) := CommitEffect(a, e, scope);
            && (r.Ok? <==> Admits(a.source, scope))
            && (r.Ok? ==> r.value == e.reply && a'.tables == PlainDml(a.tables, e.dml).value && |a'.source.rows| == |a.source.rows| + 1)
            && (r.Err? ==> a' == a && OutboxError(r.error))
  {
    hide TablesOk, ApplyMutation, PlainDml, GovernedDml, Sanitized, HeaderOk, PendingCount;
    Verdicts.AppendsExactly(a.source, a.source.stream, e.mutation, scope.fence, scope.maxPending);
  }

  /** What an append can fail with. */
  predicate OutboxError(e: Error) {
    e == NotProvisioned || e == StaleFence || e == Backpressure || e == SequenceExhausted || e == Invalid
  }

  /** A valid pair, upserted. */
  lemma UpsertCommits(a: Authority, p: Pair, reply: Reply, scope: TxScope)
    requires TablesOk(a.tables) && ValidPair(p)
    ensures var (a', r) := CommitEffect(a, WritePair(a.source.stream, p, reply), scope);
            && (r.Ok? <==> Admits(a.source, scope))
            && (r.Ok? ==> r.value == reply && a'.tables == Tables(a.tables.pairs[p.id := ToRow(p)], a.tables.pending))
            && (r.Err? ==> a' == a && OutboxError(r.error))
  {
    WritePairAgrees(a.source.stream, a.tables, p, reply);
    WritesCommit(a, WritePair(a.source.stream, p, reply), scope);
    hide TablesOk, CommitEffect, Admits, Agrees;
  }

  lemma StoredIsValid(t: Tables, id: string)
    requires TablesOk(t) && id in t.pairs
    ensures ValidPair(FromRow(t.pairs[id])) && t.pairs[id].id == id && FromRow(t.pairs[id]).kind.Some?
  {
  }

  // ---- Uses ----

  /** The counter of the pair would leave the safe integers. */
  predicate Overflows(pairs: map<string, Pair>, id: string, outcome: UseClaim) {
    outcome == Claimed && id in pairs && pairs[id].requests == MAX_SAFE
  }

  /** What a claim does, in the memory store's terms: nothing but answer, or write the pair that store would leave. */
  lemma ClaimEffectIs(stream: string, t: Tables, id: string, at: nat, policy: UsePolicy)
    requires IdOk(id) && SafeNat(at) && (id in t.pairs ==> SafeNat(t.pairs[id].requests))
    ensures var (pairs, outcome) := A.ClaimUse(Held(t), id, at, policy);
            ClaimEffect(stream, t, id, at, policy) ==
              if Overflows(Held(t), id, outcome) then Fails(CounterExhausted)
              else if pairs == Held(t) then Keeps(Claim(outcome))
              else WritePair(stream, pairs[id], Claim(outcome))
  {
    hide WritePair, UsePolicyMatches, CapReached, ElapsedAt;
    if id in t.pairs {
      var p := FromRow(t.pairs[id]);
      if p.status == Active { ChangesShow(Held(t), id, p.(status := Expired)); }
      ChangesShow(Held(t), id, AfterUse(p, at));
    }
  }

  /** What a claim leaves is well formed, under the same id. */
  lemma ClaimLeaves(t: Tables, id: string, at: nat, policy: UsePolicy)
    requires TablesOk(t) && SafeNat(at)
    ensures var (pairs, outcome) := A.ClaimUse(Held(t), id, at, policy);
            pairs == Held(t)
            || (id in pairs && pairs == Held(t)[id := pairs[id]] && pairs[id].id == id
                && (!Overflows(Held(t), id, outcome) ==> ValidPair(pairs[id])))
  {
    hide ValidPair, UsePolicyMatches, CapReached, ElapsedAt, TablesOk;
    if id in t.pairs {
      StoredIsValid(t, id);
      var p := FromRow(t.pairs[id]);
      ExpiredIsValid(p);
      if p.requests + 1 <= MAX_SAFE { UsedIsValid(p, at); }
      RequestsAreSafe(p);
    }
  }

  lemma RequestsAreSafe(p: Pair)
    requires ValidPair(p)
    ensures SafeNat(p.requests) && IdOk(p.id)
  {
  }

  /**
   * A claim answers what the memory store answers and leaves the rows of its pairs; it fails exactly when the
   * arguments are malformed, the counter of the pair would leave the safe integers, or it has to write and the
   * outbox does not admit it.
   */
  lemma ClaimsAgree(a: Authority, id: string, at: int, policy: UsePolicy, scope: TxScope)
    requires TablesOk(a.tables)
    ensures var (a', r) := Commit(a, ClaimSuccessfulUse(id, at, policy), scope);
            && (r.Err? ==> a' == a)
            && (!IdOk(id) || !SafeNat(at) ==> r == Err(Invalid))
            && (IdOk(id) && SafeNat(at) ==>
                  var (pairs, outcome) := A.ClaimUse(Held(a.tables), id, at, policy);
                  && (r == Err(CounterExhausted) <==> Overflows(Held(a.tables), id, outcome))
                  && (r.Ok? <==> !Overflows(Held(a.tables), id, outcome) && (pairs != Held(a.tables) ==> Admits(a.source, scope)))
                  && (r.Ok? ==> r.value == Claim(outcome) && RowsOf(a'.tables.pairs, pairs) && a'.tables.pending == a.tables.pending))
  {
    if IdOk(id) && SafeNat(at) {
      if id in a.tables.pairs { StoredIsValid(a.tables, id); RequestsAreSafe(FromRow(a.tables.pairs[id])); }
      ClaimEffectIs(a.source.stream, a.tables, id, at, policy);
      ClaimLeaves(a.tables, id, at, policy);
      HeldRows(a.tables);
      var (pairs, outcome) := A.ClaimUse(Held(a.tables), id, at, policy);
      hide TablesOk, ValidPair, CommitEffect, WritePair, A.ClaimUse, ClaimEffect, Admits;
      if pairs != Held(a.tables) && !Overflows(Held(a.tables), id, outcome) {
        UpsertCommits(a, pairs[id], Claim(outcome), scope);
        HeldWith(a.tables, pairs[id]);
      }
      KeepsNothing(a, scope);
    }
  }

  lemma ChangesShow(pairs: map<string, Pair>, id: string, p: Pair)
    requires id in pairs && pairs[id] != p
    ensures pairs[id := p] != pairs
  {
    assert pairs[id := p][id] == p;
  }

  lemma ExpiredIsValid(p: Pair)
    requires ValidPair(p)
    ensures ValidPair(p.(status := Expired)) && ValidPair(p.(status := Locked))
  {
    assert RegistrationOf(p.(status := Expired)) == RegistrationOf(p);
    assert RegistrationOf(p.(status := Locked)) == RegistrationOf(p);
  }

  lemma UsedIsValid(p: Pair, at: nat)
    requires ValidPair(p) && SafeNat(at) && p.requests + 1 <= MAX_SAFE
    ensures ValidPair(AfterUse(p, at)) && AfterUse(p, at).id == p.id && AfterUse(p, at) != p
  {
    assert RegistrationOf(AfterUse(p, at)) == RegistrationOf(p);
  }

  /** An effect that writes nothing leaves the authority alone. */
  lemma KeepsNothing(a: Authority, scope: TxScope)
    ensures forall reply :: CommitEffect(a, Keeps(reply), scope) == (a, Ok(reply))
    ensures forall error :: CommitEffect(a, Fails(error), scope) == (a, Err(error))
  {
  }

  // ---- Conditional changes of status ----

  /** One pair changes, or none: the answer says which, and only a change asks the outbox. */
  ghost predicate AnswersChange(a: Authority, after: Authority, r: Result<Reply, Error>, pairs: map<string, Pair>, scope: TxScope) {
    && (r.Err? ==> after == a)
    && (r.Ok? <==> (pairs != Held(a.tables) ==> Admits(a.source, scope)))
    && (r.Ok? ==>
          r.value == Flag(pairs != Held(a.tables)) && RowsOf(after.tables.pairs, pairs) && after.tables.pending == a.tables.pending)
  }

  lemma StatusCommits(a: Authority, id: string, test: Pair -> bool, status: Status, scope: TxScope)
    requires TablesOk(a.tables) && IdOk(id) && (status == Expired || status == Locked)
    requires forall p :: test(p) ==> p.status != status
    ensures var pairs := if id in Held(a.tables) && test(Held(a.tables)[id])
                         then Held(a.tables)[id := Held(a.tables)[id].(status := status)] else Held(a.tables);
            var (a', r) := CommitEffect(a, ConditionalStatus(a.source.stream, a.tables, id, test, status), scope);
            AnswersChange(a, a', r, pairs, scope)
  {
    HeldRows(a.tables);
    KeepsNothing(a, scope);
    if id in a.tables.pairs && test(FromRow(a.tables.pairs[id])) {
      StoredIsValid(a.tables, id);
      var p := FromRow(a.tables.pairs[id]);
      ExpiredIsValid(p);
      ChangesShow(Held(a.tables), id, p.(status := status));
      HeldWith(a.tables, p.(status := status));
      UpsertCommits(a, p.(status := status), Flag(true), scope);
    }
    hide TablesOk, ValidPair, CommitEffect, WritePair, Admits;
  }

  /** The three conditional transitions change what the memory store's change, and answer whether they did. */
  lemma TransitionsAgree(a: Authority, id: string, now: nat, minimum: nat, scope: TxScope)
    requires TablesOk(a.tables) && IdOk(id)
    ensures SafeNat(now) ==>
              var (a', r) := Commit(a, ExpireIfElapsed(id, now), scope);
              AnswersChange(a, a', r, A.ExpireIfElapsed(Held(a.tables), id, now), scope)
    ensures var (a', r) := Commit(a, ExpireIfUsageExhausted(id), scope);
            AnswersChange(a, a', r, A.ExpireIfExhausted(Held(a.tables), id), scope)
    ensures SafeNat(minimum) && minimum >= 1 ==>
              var (a', r) := Commit(a, LockIfFailureThreshold(id, minimum), scope);
              AnswersChange(a, a', r, A.LockIfFailing(Held(a.tables), id, minimum), scope)
  {
    StatusCommits(a, id, ElapsedTest(now), Expired, scope);
    StatusCommits(a, id, CapTest(), Expired, scope);
    StatusCommits(a, id, FailureTest(minimum), Locked, scope);
    hide TablesOk, CommitEffect, ConditionalStatus, AnswersChange, CapReached, ElapsedAt;
  }

  lemma MalformedTransitionsFail(a: Authority, id: string, now: int, minimum: int, scope: TxScope)
    ensures !IdOk(id) || !SafeNat(now) ==> Commit(a, ExpireIfElapsed(id, now), scope) == (a, Err(Invalid))
    ensures !IdOk(id) ==> Commit(a, ExpireIfUsageExhausted(id), scope) == (a, Err(Invalid))
    ensures !IdOk(id) || !SafeNat(minimum) || minimum < 1 ==> Commit(a, LockIfFailureThreshold(id, minimum), scope) == (a, Err(Invalid))
  {
  }

  // ---- Rotation and approval ----

  /** The form in which a pair or registration is stored: an absent kind is the legitimate one. */
  function Normal(p: Pair): Pair {
    p.(kind := Some(if p.kind == Some(Ghost) then Ghost else Legitimate))
  }

  function NormalRegistration(r: Registration): Registration {
    r.(kind := Some(if r.kind == Some(Ghost) then Ghost else Legitimate))
  }

  lemma NormalIsNormalized(p: Pair)
    ensures NormalizePair(p) == if ValidPair(p) then Ok(Normal(p)) else Err(Invalid)
    ensures ValidPair(p) ==> ValidPair(Normal(p)) && NormalizePair(Normal(p)) == Ok(Normal(p))
  {
    if ValidPair(p) { assert RegistrationOf(Normal(p)) == NormalRegistration(RegistrationOf(p)); }
  }

  lemma StoredIsNormal(t: Tables, id: string)
    requires TablesOk(t) && id in t.pairs
    ensures NormalizePair(FromRow(t.pairs[id])) == Ok(FromRow(t.pairs[id]))
  {
  }

  /** A rotation that is well formed in itself: both pairs valid, apart, the old one active, the new one fresh with its policy. */
  predicate RotationOk(expected: Pair, replacement: Pair) {
    && ValidPair(expected) && ValidPair(replacement) && expected.id != replacement.id
    && expected.status == Active && HasInitialState(replacement) && RotationPolicyMatches(Normal(expected), Normal(replacement))
  }

  lemma RotateEffectIs(stream: string, t: Tables, expected: Pair, replacement: Pair)
    requires TablesOk(t)
    ensures var (p, q) := (Normal(expected), Normal(replacement));
            var e := RotateEffect(stream, t, expected, replacement);
            if !RotationOk(expected, replacement) then e == Fails(Invalid)
            else if !A.MayRotate(Held(t), p, q) then e == Keeps(Flag(false))
            else e.Writes? && e.dml == DmlPairRotate(p, q) && e.reply == Flag(true)
  {
    NormalIsNormalized(expected);
    NormalIsNormalized(replacement);
    if expected.id in t.pairs { StoredIsNormal(t, expected.id); }
    ValidIds(expected);
    ValidIds(replacement);
    hide ValidPair, RotationPolicyMatches, TablesOk;
  }

  lemma ValidIds(p: Pair)
    ensures ValidPair(p) ==> IdOk(p.id)
  {
  }

  /** A rotation answers whether the memory store would rotate, and leaves the rows of the pairs that store would leave. */
  lemma RotationsAgree(a: Authority, expected: Pair, replacement: Pair, scope: TxScope)
    requires TablesOk(a.tables)
    ensures var (a', r) := Commit(a, RotatePair(expected, replacement), scope);
            var pairs := A.Rotate(Held(a.tables), Normal(expected), Normal(replacement));
            && (!RotationOk(expected, replacement) ==> (a', r) == (a, Err(Invalid)))
            && (RotationOk(expected, replacement) ==> AnswersChange(a, a', r, pairs, scope))
  {
    var p, q := Normal(expected), Normal(replacement);
    RotateEffectIs(a.source.stream, a.tables, expected, replacement);
    RotateAgrees(a.source.stream, a.tables, expected, replacement);
    KeepsNothing(a, scope);
    HeldRows(a.tables);
    var e := RotateEffect(a.source.stream, a.tables, expected, replacement);
    if RotationOk(expected, replacement) && A.MayRotate(Held(a.tables), p, q) {
      WritesCommit(a, e, scope);
      RotatedRows(a.tables, p, q);
      assert p.(status := Rotated) != p;
    }
    hide TablesOk, CommitEffect, RotateEffect, RotationOk, Admits, Agrees, RotationPolicyMatches;
  }

  lemma RotatedRows(t: Tables, p: Pair, q: Pair)
    requires A.MayRotate(Held(t), p, q)
    ensures PlainDml(t, DmlPairRotate(p, q)).Ok?
    ensures RowsOf(PlainDml(t, DmlPairRotate(p, q)).value.pairs, A.Rotate(Held(t), p, q))
    ensures PlainDml(t, DmlPairRotate(p, q)).value.pending == t.pending
    ensures A.Rotate(Held(t), p, q) != Held(t)
  {
    assert p.id in Held(t) && q.id !in Held(t);
    assert A.Rotate(Held(t), p, q)[q.id] == q;
    hide HasInitialState, RotationPolicyMatches;
  }

  /** The pending entries the tables hold. */
  function HeldPending(t: Tables): map<string, A.PendingEntry> {
    map token | token in t.pending :: A.PendingEntry(t.pending[token].registration, t.pending[token].requestedAt)
  }

  predicate ApprovalOk(token: string, expected: Registration, at: int, pair: Pair, maxActive: int) {
    && TokenOk(token) && SafeNat(at) && SafeNat(maxActive) && maxActive >= 1
    && ValidRegistration(expected) && ValidPair(pair)
    && HasInitialState(pair) && MatchesRegistration(Normal(pair), NormalRegistration(expected))
  }

  lemma SameActive(t: Tables)
    ensures ActiveIds(t.pairs) == A.ActivePairs(Held(t))
  {
  }

  lemma PendingIsNormal(t: Tables, token: string, r: Registration)
    requires TablesOk(t) && token in t.pending
    ensures NormalizeRegistration(t.pending[token].registration) == Ok(t.pending[token].registration)
  {
  }

  lemma ApproveEffectIs(stream: string, t: Tables, token: string, expected: Registration, at: int, pair: Pair, maxActive: int)
    requires TablesOk(t)
    ensures var e := ApproveEffect(stream, t, token, expected, at, pair, maxActive);
            if !ApprovalOk(token, expected, at, pair, maxActive) then e == Fails(Invalid)
            else
              var (entry, p) := (A.PendingEntry(NormalRegistration(expected), at), Normal(pair));
              if !(token in HeldPending(t) && HeldPending(t)[token] == entry) then e == Keeps(Flag(false))
              else if |A.ActivePairs(Held(t))| >= maxActive then e == Fails(CapacityReached)
              else if pair.id in t.pairs then e == Fails(IdentityExists)
              else e.Writes? && e.dml == DmlPairApprove(token, NormalRegistration(expected), at, maxActive, p) && e.reply == Flag(true)
  {
    NormalIsNormalized(pair);
    SameActive(t);
    if token in t.pending { PendingIsNormal(t, token, expected); }
    ValidIds(pair);
    hide ValidPair, ActiveIds, A.ActivePairs, TablesOk;
  }

  /**
   * An approval goes through exactly when it is well formed, the memory store would approve it and the outbox admits
   * it; the pending entry is then gone and the pair stored. It answers false exactly when the entry is not the
   * expected one.
   */
  lemma ApprovalsAgree(a: Authority, token: string, expected: Registration, at: int, pair: Pair, maxActive: int, scope: TxScope)
    requires TablesOk(a.tables)
    ensures var (a', r) := Commit(a, ApprovePending(token, expected, at, pair, maxActive), scope);
            && (r.Err? ==> a' == a)
            && (!ApprovalOk(token, expected, at, pair, maxActive) ==> r == Err(Invalid))
            && (ApprovalOk(token, expected, at, pair, maxActive) ==>
                  var (entry, p) := (A.PendingEntry(NormalRegistration(expected), at), Normal(pair));
                  && (r == Ok(Flag(true)) <==>
                        A.MayApprove(Held(a.tables), HeldPending(a.tables), token, entry, p, maxActive) && Admits(a.source, scope))
                  && (r == Ok(Flag(false)) <==> !(token in HeldPending(a.tables) && HeldPending(a.tables)[token] == entry))
                  && (r.Ok? ==> r.value == Flag(true) || r.value == Flag(false))
                  && (r == Ok(Flag(true)) ==>
                        a'.tables == Tables(a.tables.pairs[pair.id := ToRow(p)], a.tables.pending - {token}))
                  && (r == Ok(Flag(false)) ==> a' == a))
  {
    ApproveEffectIs(a.source.stream, a.tables, token, expected, at, pair, maxActive);
    KeepsNothing(a, scope);
    var e := ApproveEffect(a.source.stream, a.tables, token, expected, at, pair, maxActive);
    if e.Writes? {
      ApprovalCommits(a, token, expected, at, pair, maxActive, scope);
      MayApproveIs(a.tables, token, expected, at, pair, maxActive);
    }
    hide TablesOk, CommitEffect, ApproveEffect, Admits, ValidPair, A.ActivePairs, PlainDml;
    if ApprovalOk(token, expected, at, pair, maxActive) { MayApproveIs(a.tables, token, expected, at, pair, maxActive); }
    hide ApprovalOk, HeldPending, A.MayApprove;
  }

  lemma ApprovalCommits(a: Authority, token: string, expected: Registration, at: int, pair: Pair, maxActive: int, scope: TxScope)
    requires TablesOk(a.tables) && ApproveEffect(a.source.stream, a.tables, token, expected, at, pair, maxActive).Writes?
    ensures var e := ApproveEffect(a.source.stream, a.tables, token, expected, at, pair, maxActive);
            var (a', r) := CommitEffect(a, e, scope);
            && (r.Ok? <==> Admits(a.source, scope))
            && (r.Ok? ==> r == Ok(Flag(true))
                          && a'.tables == Tables(a.tables.pairs[pair.id := ToRow(Normal(pair))], a.tables.pending - {token}))
            && (r.Err? ==> a' == a && OutboxError(r.error))
  {
    ApproveEffectIs(a.source.stream, a.tables, token, expected, at, pair, maxActive);
    ApproveAgrees(a.source.stream, a.tables, token, expected, at, pair, maxActive);
    WritesCommit(a, ApproveEffect(a.source.stream, a.tables, token, expected, at, pair, maxActive), scope);
    hide TablesOk, CommitEffect, ApproveEffect, Admits, ValidPair, A.ActivePairs, ApprovalOk, HeldPending;
  }

  /** What the memory store asks besides that the approval is well formed. */
  lemma MayApproveIs(t: Tables, token: string, expected: Registration, at: int, pair: Pair, maxActive: int)
    requires ApprovalOk(token, expected, at, pair, maxActive)
    ensures var entry := A.PendingEntry(NormalRegistration(expected), at);
            A.MayApprove(Held(t), HeldPending(t), token, entry, Normal(pair), maxActive) <==>
              && token in HeldPending(t) && HeldPending(t)[token] == entry
              && |A.ActivePairs(Held(t))| < maxActive && pair.id !in t.pairs
  {
    hide ValidPair, ValidRegistration, A.ActivePairs;
  }

  // ---- Plain writes ----

  /** The writes without a condition: exactly a valid argument is stored, or a named row removed, when the outbox admits it. */
  lemma SetsAndDeletes(a: Authority, value: Pair, id: string, token: string, registration: Registration, at: int, scope: TxScope)
    requires TablesOk(a.tables)
    ensures var (a', r) := Commit(a, SetPair(value), scope);
            && (r.Ok? <==> ValidPair(value) && Admits(a.source, scope)) && (r.Err? ==> a' == a)
            && (r.Ok? ==> a'.tables == Tables(a.tables.pairs[value.id := ToRow(value)], a.tables.pending))
    ensures var (a', r) := Commit(a, DeletePairOp(id), scope);
            && (r.Ok? <==> IdOk(id) && Admits(a.source, scope)) && (r.Err? ==> a' == a)
            && (r.Ok? ==> a'.tables == Tables(a.tables.pairs - {id}, a.tables.pending))
    ensures var (a', r) := Commit(a, SetPending(token, registration, at), scope);
            && (r.Ok? <==> TokenOk(token) && SafeNat(at) && ValidRegistration(registration) && Admits(a.source, scope)) && (r.Err? ==> a' == a)
            && (r.Ok? ==> a'.tables == Tables(a.tables.pairs, a.tables.pending[token := PendingRow(NormalRegistration(registration), at)]))
    ensures var (a', r) := Commit(a, DeletePendingOp(token), scope);
            && (r.Ok? <==> TokenOk(token) && Admits(a.source, scope)) && (r.Err? ==> a' == a)
            && (r.Ok? ==> a'.tables == Tables(a.tables.pairs, a.tables.pending - {token}))
  {
    SetCommits(a, value, scope);
    PendingCommits(a, token, registration, at, scope);
    DeletesCommit(a, id, token, scope);
    hide Commit, TablesOk, Admits, ValidPair;
  }

  lemma SetCommits(a: Authority, value: Pair, scope: TxScope)
    requires TablesOk(a.tables)
    ensures var (a', r) := Commit(a, SetPair(value), scope);
            && (r.Ok? <==> ValidPair(value) && Admits(a.source, scope)) && (r.Err? ==> a' == a)
            && (r.Ok? ==> a'.tables == Tables(a.tables.pairs[value.id := ToRow(value)], a.tables.pending))
  {
    NormalIsNormalized(value);
    KeepsNothing(a, scope);
    if ValidPair(value) { UpsertCommits(a, Normal(value), Done, scope); }
    hide TablesOk, CommitEffect, WritePair, Admits, ValidPair;
  }

  lemma PendingCommits(a: Authority, token: string, registration: Registration, at: int, scope: TxScope)
    requires TablesOk(a.tables)
    ensures var (a', r) := Commit(a, SetPending(token, registration, at), scope);
            && (r.Ok? <==> TokenOk(token) && SafeNat(at) && ValidRegistration(registration) && Admits(a.source, scope)) && (r.Err? ==> a' == a)
            && (r.Ok? ==> a'.tables == Tables(a.tables.pairs, a.tables.pending[token := PendingRow(NormalRegistration(registration), at)]))
  {
    KeepsNothing(a, scope);
    SetPendingAgrees(a.source.stream, a.tables, token, registration, at);
    var e := SetPendingEffect(a.source.stream, token, registration, at);
    if e.Writes? { WritesCommit(a, e, scope); }
    hide TablesOk, CommitEffect, Admits, Agrees;
  }

  lemma DeletesCommit(a: Authority, id: string, token: string, scope: TxScope)
    requires TablesOk(a.tables)
    ensures var (a', r) := Commit(a, DeletePairOp(id), scope);
            && (r.Ok? <==> IdOk(id) && Admits(a.source, scope)) && (r.Err? ==> a' == a)
            && (r.Ok? ==> a'.tables == Tables(a.tables.pairs - {id}, a.tables.pending))
    ensures var (a', r) := Commit(a, DeletePendingOp(token), scope);
            && (r.Ok? <==> TokenOk(token) && Admits(a.source, scope)) && (r.Err? ==> a' == a)
            && (r.Ok? ==> a'.tables == Tables(a.tables.pairs, a.tables.pending - {token}))
  {
    KeepsNothing(a, scope);
    OperationAgrees(a.source.stream, a.tables, DeletePairOp(id));
    OperationAgrees(a.source.stream, a.tables, DeletePendingOp(token));
    var e, f := OperationEffect(a.source.stream, a.tables, DeletePairOp(id)), OperationEffect(a.source.stream, a.tables, DeletePendingOp(token));
    if e.Writes? { WritesCommit(a, e, scope); }
    if f.Writes? { WritesCommit(a, f, scope); }
    hide TablesOk, CommitEffect, Admits, Agrees, IdOk, TokenOk;
  }

  /** A callback's pair is stored exactly when it is valid and keeps its id; a callback that throws or keeps changes nothing. */
  lemma MutatesExactly(a: Authority, id: string, mutate: Pair -> MutateResult, scope: TxScope)
    requires TablesOk(a.tables)
    ensures var (a', r) := Commit(a, AtomicMutate(id, mutate), scope);
            && (r.Err? ==> a' == a)
            && (!IdOk(id) ==> r == Err(Invalid))
            && (IdOk(id) && id !in a.tables.pairs ==> a' == a && r == Ok(Found(None)))
            && (IdOk(id) && id in a.tables.pairs ==>
                  match mutate(FromRow(a.tables.pairs[id]))
                  case Throws => r == Err(CallbackThrew)
                  case Unchanged => a' == a && r == Ok(Found(Some(FromRow(a.tables.pairs[id]))))
                  case Replace(p) =>
                    && (r.Ok? <==> ValidPair(p) && p.id == id && Admits(a.source, scope))
                    && (r.Ok? ==> r.value == Found(Some(FromRow(ToRow(p))))
                                  && a'.tables == Tables(a.tables.pairs[id := ToRow(p)], a.tables.pending)))
  {
    KeepsNothing(a, scope);
    if IdOk(id) && id in a.tables.pairs {
      match mutate(FromRow(a.tables.pairs[id]))
      case Replace(p) => {
        NormalIsNormalized(p);
        if ValidPair(p) { UpsertCommits(a, Normal(p), Found(Some(FromRow(ToRow(Normal(p))))), scope); }
      }
      case _ =>
    }
    hide TablesOk, CommitEffect, WritePair, Admits, ValidPair;
  }

  // ---- The statements on any tables ----

  /** An approval's statements, on whatever tables: the store's own check the entry's time and the id, the governed function all again. */
  lemma ApprovalStatements(t: Tables, token: string, r: Registration, at: nat, limit: nat, p: Pair)
    ensures var done := Ok(Tables(t.pairs[p.id := ToRow(p)], t.pending - {token}));
            PlainDml(t, DmlPairApprove(token, r, at, limit, p)) ==
              if token !in t.pending || t.pending[token].requestedAt != at then Err(PreconditionFailed)
              else if p.id in t.pairs then Err(IdentityExists) else done
    ensures var done := Ok(Tables(t.pairs[p.id := ToRow(p)], t.pending - {token}));
            GovernedDml(t, DmlPairApprove(token, r, at, limit, p)) ==
              if token !in t.pending || t.pending[token] != PendingRow(r, at) then Err(PreconditionFailed)
              else if |set id | id in t.pairs && t.pairs[id].status == Active| >= limit then Err(CapacityReached)
              else if p.id in t.pairs then Err(IdentityExists) else done
  {
    assert ActiveIds(t.pairs) == set id | id in t.pairs && t.pairs[id].status == Active;
  }

  /** A rotation's statements: both refuse an id that is stored, and the governed function a row that is not the expected one. */
  lemma RotationStatements(t: Tables, p: Pair, q: Pair)
    requires p.id != q.id
    ensures PlainDml(t, DmlPairRotate(p, q)) ==
              if q.id in t.pairs then Err(IdentityExists)
              else Ok(Tables(t.pairs[p.id := ToRow(p.(status := Rotated))][q.id := ToRow(q)], t.pending))
    ensures GovernedDml(t, DmlPairRotate(p, q)) ==
              if p.id !in t.pairs || t.pairs[p.id] != ToRow(p) then Err(PreconditionFailed)
              else if q.id in t.pairs then Err(IdentityExists)
              else Ok(Tables(t.pairs[p.id := ToRow(p.(status := Rotated))][q.id := ToRow(q)], t.pending))
  {
  }
}
