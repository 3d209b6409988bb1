/** The store object itself: each method runs one withOutboxTx scope on the tables and the outbox. */
module PairAuthority {
  import opened Wrappers
  import opened Pairs
  import opened PairReplica
  import opened Outbox
  import opened PairStore

  class PgTransactionalPairStore {
    const db: PgSourceDatabase
    const fenceToken: nat
    const maxPendingRows: nat
    /** true when the table change goes through bpc_ha.apply_pair_mutation. */
    const governed: bool
    var pairs: map<string, Row>
    var pending: map<string, PendingRow>

    ghost function View(): Authority
      reads this, db
    {
      Authority(db.View(), Tables(pairs, pending))
    }

    function Tx(): TxScope {
      TxScope(fenceToken, maxPendingRows, governed)
    }

    constructor (stream: string, epoch: string, fence: nat, maxPendingRows: nat, governed: bool)
      ensures fresh(db)
      ensures View() == NewAuthority(stream, epoch, fence)
      ensures fenceToken == fence && this.maxPendingRows == maxPendingRows && this.governed == governed
    {
      db := new PgSourceDatabase(stream, epoch, fence);
      fenceToken, this.maxPendingRows, this.governed := fence, maxPendingRows, governed;
      pairs, pending := map[], map[];
    }

    /** The local table change of a scope whose outbox row has been appended. */
    method ChangeTables(dml: Dml) returns (error: Option<Error>)
      modifies this
      ensures match RunDml(old(Tables(pairs, pending)), dml, governed)
              case Err(e) => error == Some(e) && Tables(pairs, pending) == old(Tables(pairs, pending))
              case Ok(t) => error == None && Tables(pairs, pending) == t
    {
      match dml {
      case DmlPairUpsert(p) => pairs := pairs[p.id := ToRow(p)];
      case DmlPairDelete(id) => pairs := pairs - {id};
      case DmlPendingUpsert(token, r, at) => pending := pending[token := PendingRow(r, at)];
      case DmlPendingDelete(token) => pending := pending - {token};
      case DmlPairApprove(token, r, at, limit, p) =>
        if token !in pending || pending[token].requestedAt != at { return Some(PreconditionFailed); }
        if governed {
          if pending[token].registration != r { return Some(PreconditionFailed); }
          if |ActiveIds(pairs)| >= limit { return Some(CapacityReached); }
        }
        if p.id in pairs { return Some(IdentityExists); }
        pending := pending - {token};
        pairs := pairs[p.id := ToRow(p)];
      case DmlPairRotate(expectedOld, replacement) =>
        var before := pairs;
        if governed {
          if expectedOld.id !in pairs || pairs[expectedOld.id] != ToRow(expectedOld) { return Some(PreconditionFailed); }
          pairs := pairs[expectedOld.id := pairs[expectedOld.id].(status := Rotated)];
        } else {
          pairs := pairs[expectedOld.id := ToRow(expectedOld.(status := Rotated))];
        }
        if replacement.id in pairs {
          pairs := before;  // the transaction rolls back
          return Some(IdentityExists);
        }
        pairs := pairs[replacement.id := ToRow(replacement)];
      }
      return None;
    }

    /** Append first, then change the tables; an error in either rolls both back. */
    method Write(m: Mutation, dml: Dml, reply: Reply) returns (r: Result<Reply, Error>)
      modifies this, db
      ensures (View(), r) == CommitEffect(old(View()), Writes(m, dml, reply), Tx())
    {
      hide RunDml, Append, NextRecord;
      ghost var before := db.View();
      var rows, sequence := db.rows, db.sequence;
      var appended := db.AppendInTx(db.stream, m, fenceToken, maxPendingRows);
      if appended.Err? { return Err(appended.error); }
      AppendTouches(before, db.stream, m, fenceToken, maxPendingRows);
      var error := ChangeTables(dml);
      if error.Some? {
        db.rows, db.sequence := rows, sequence;  // the transaction rolls back
        assert db.View() == before;
        assert Tables(pairs, pending) == old(Tables(pairs, pending));
        r := Err(error.value);
        assert CommitEffect(old(View()), Writes(m, dml, reply), Tx()) == (old(View()), r);
        return;
      }
      r := Ok(reply);
      assert CommitEffect(old(View()), Writes(m, dml, reply), Tx()) == (View(), r);
    }

    lemma AppendTouches(s: Source, stream: string, m: Mutation, fence: nat, maxPending: nat)
      requires Append(s, stream, m, fence, maxPending).Ok?
      ensures var s' := Append(s, stream, m, fence, maxPending).value; s'.(rows := s.rows, sequence := s.sequence) == s
    {
    }

    method WriteOne(next: Pair, reply: Reply) returns (r: Result<Reply, Error>)
      modifies this, db
      ensures (View(), r) == CommitEffect(old(View()), WritePair(db.stream, next, reply), Tx())
    {
      var sealed := SealPair(next, PairAad(db.stream, PairSetV1, next.id));
      if sealed.Err? { return Err(sealed.error); }
      r := Write(PairSet(next.id, sealed.value), DmlPairUpsert(next), reply);
    }

    method Set(value: Pair) returns (r: Result<Reply, Error>)
      modifies this, db
      ensures (View(), r) == CommitEffect(old(View()), SetPairEffect(db.stream, value), Tx())
    {
      var pair := NormalizePair(value);
      if pair.Err? { return Err(pair.error); }
      r := WriteOne(pair.value, Done);
    }

    method AtomicMutate(pairId: string, mutate: Pair -> MutateResult) returns (r: Result<Reply, Error>)
      modifies this, db
      ensures (View(), r) == CommitEffect(old(View()), AtomicMutateEffect(db.stream, old(Tables(pairs, pending)), pairId, mutate), Tx())
    {
      if !IdOk(pairId) { return Err(Invalid); }
      if pairId !in pairs { return Ok(Found(None)); }
      var current := FromRow(pairs[pairId]);
      match mutate(current)
      case Throws => return Err(CallbackThrew);
      case Unchanged => return Ok(Found(Some(current)));
      case Replace(candidate) =>
        var next := NormalizePair(candidate);
        if next.Err? { return Err(next.error); }
        if next.value.id != pairId { return Err(Invalid); }
        r := WriteOne(next.value, Found(Some(FromRow(ToRow(next.value)))));
    }

    method ApprovePending(token: string, expected: Registration, requestedAt: int, pairValue: Pair, maxActivePairs: int)
      returns (r: Result<Reply, Error>)
      modifies this, db
      ensures (View(), r) == CommitEffect(old(View()), ApproveEffect(db.stream, old(Tables(pairs, pending)), token, expected, requestedAt, pairValue, maxActivePairs), Tx())
    {
      if !TokenOk(token) || !SafeNat(maxActivePairs) || maxActivePairs < 1 { return Err(Invalid); }
      var registration := NormalizeRegistration(expected);
      if registration.Err? { return Err(registration.error); }
      var pair := NormalizePair(pairValue);
      if pair.Err? { return Err(pair.error); }
      if !HasInitialState(pair.value) || !MatchesRegistration(pair.value, registration.value) { return Err(Invalid); }
      if !SafeNat(requestedAt) { return Err(Invalid); }
      var expectedPending := SealRegistration(registration.value, PendingAad(db.stream, PairApproveV1, token, requestedAt));
      if expectedPending.Err? { return Err(expectedPending.error); }
      var sealed := SealPair(pair.value, PairAad(db.stream, PairApproveV1, pair.value.id));
      if sealed.Err? { return Err(sealed.error); }
      if token !in pending { return Ok(Flag(false)); }
      if pending[token].requestedAt != requestedAt
         || NormalizeRegistration(pending[token].registration) != Ok(registration.value) { return Ok(Flag(false)); }
      if |ActiveIds(pairs)| >= maxActivePairs { return Err(CapacityReached); }
      if pair.value.id in pairs { return Err(IdentityExists); }
      r := Write(PairApprove(token, requestedAt, expectedPending.value, pair.value.id, sealed.value),
                 DmlPairApprove(token, registration.value, requestedAt, maxActivePairs, pair.value), Flag(true));
    }

    method RotatePair(oldValue: Pair, newValue: Pair) returns (r: Result<Reply, Error>)
      modifies this, db
      ensures (View(), r) == CommitEffect(old(View()), RotateEffect(db.stream, old(Tables(pairs, pending)), oldValue, newValue), Tx())
    {
      var expectedOld := NormalizePair(oldValue);
      if expectedOld.Err? { return Err(expectedOld.error); }
      var replacement := NormalizePair(newValue);
      if replacement.Err? { return Err(replacement.error); }
      if expectedOld.value.id == replacement.value.id { return Err(Invalid); }
      if expectedOld.value.status != Active || !HasInitialState(replacement.value)
         || !RotationPolicyMatches(expectedOld.value, replacement.value) { return Err(Invalid); }
      var sealedOld := SealPair(expectedOld.value, PairAad(db.stream, PairRotateV1, expectedOld.value.id));
      if sealedOld.Err? { return Err(sealedOld.error); }
      var sealed := SealPair(replacement.value, PairAad(db.stream, PairRotateV1, replacement.value.id));
      if sealed.Err? { return Err(sealed.error); }
      if expectedOld.value.id !in pairs
         || NormalizePair(FromRow(pairs[expectedOld.value.id])) != Ok(expectedOld.value) { return Ok(Flag(false)); }
      if replacement.value.id in pairs { return Ok(Flag(false)); }
      r := Write(PairRotate(expectedOld.value.id, sealedOld.value, replacement.value.id, sealed.value),
                 DmlPairRotate(expectedOld.value, replacement.value), Flag(true));
    }

    method ClaimSuccessfulUse(pairId: string, at: int, policy: UsePolicy) returns (r: Result<Reply, Error>)
      modifies this, db
      ensures (View(), r) == CommitEffect(old(View()), ClaimEffect(db.stream, old(Tables(pairs, pending)), pairId, at, policy), Tx())
    {
      if !IdOk(pairId) || !SafeNat(at) { return Err(Invalid); }
      if pairId !in pairs { return Ok(Claim(Missing)); }
      var current := FromRow(pairs[pairId]);
      if current.status == Expired {
        if ElapsedAt(current, at) { return Ok(Claim(TimeExpired)); }
        if CapReached(current, current.requests) { return Ok(Claim(UsageExhausted)); }
      }
      if current.status != Active { return Ok(Claim(Inactive)); }
      if ElapsedAt(current, at) {
        r := WriteOne(current.(status := Expired), Claim(TimeExpired));
        return;
      }
      if CapReached(current, current.requests) {
        r := WriteOne(current.(status := Expired), Claim(UsageExhausted));
        return;
      }
      if !UsePolicyMatches(current, policy) { return Ok(Claim(PolicyChanged)); }
      if current.requests + 1 > MAX_SAFE { return Err(CounterExhausted); }
      r := WriteOne(AfterUse(current, at), Claim(Claimed));
    }

    method ChangeStatusIf(pairId: string, test: Pair -> bool, status: Status) returns (r: Result<Reply, Error>)
      modifies this, db
      ensures (View(), r) == CommitEffect(old(View()), ConditionalStatus(db.stream, old(Tables(pairs, pending)), pairId, test, status), Tx())
    {
      if !IdOk(pairId) { return Err(Invalid); }
      if pairId !in pairs { return Ok(Flag(false)); }
      var current := FromRow(pairs[pairId]);
      if !test(current) { return Ok(Flag(false)); }
      r := WriteOne(current.(status := status), Flag(true));
    }

    method ExpireIfElapsed(pairId: string, now: int) returns (r: Result<Reply, Error>)
      modifies this, db
      ensures (View(), r) == Commit(old(View()), Operation.ExpireIfElapsed(pairId, now), Tx())
    {
      if !SafeNat(now) { return Err(Invalid); }
      r := ChangeStatusIf(pairId, ElapsedTest(now), Expired);
    }

    method ExpireIfUsageExhausted(pairId: string) returns (r: Result<Reply, Error>)
      modifies this, db
      ensures (View(), r) == Commit(old(View()), Operation.ExpireIfUsageExhausted(pairId), Tx())
    {
      r := ChangeStatusIf(pairId, CapTest(), Expired);
    }

    method LockIfFailureThreshold(pairId: string, minimumFailures: int) returns (r: Result<Reply, Error>)
      modifies this, db
      ensures (View(), r) == Commit(old(View()), Operation.LockIfFailureThreshold(pairId, minimumFailures), Tx())
    {
      if !SafeNat(minimumFailures) || minimumFailures < 1 { return Err(Invalid); }
      r := ChangeStatusIf(pairId, FailureTest(minimumFailures), Locked);
    }

    method Delete(pairId: string) returns (r: Result<Reply, Error>)
      modifies this, db
      ensures (View(), r) == Commit(old(View()), Operation.DeletePairOp(pairId), Tx())
    {
      if !IdOk(pairId) { return Err(Invalid); }
      r := Write(PairDelete(pairId), DmlPairDelete(pairId), Done);
    }

    method SetPending(token: string, value: Registration, requestedAt: int) returns (r: Result<Reply, Error>)
      modifies this, db
      ensures (View(), r) == Commit(old(View()), Operation.SetPending(token, value, requestedAt), Tx())
    {
      if !TokenOk(token) || !SafeNat(requestedAt) { return Err(Invalid); }
      var registration := NormalizeRegistration(value);
      if registration.Err? { return Err(registration.error); }
      var sealed := SealRegistration(registration.value, PendingAad(db.stream, PendingSetV1, token, requestedAt));
      if sealed.Err? { return Err(sealed.error); }
      r := Write(PendingSet(token, requestedAt, sealed.value),
                 DmlPendingUpsert(token, registration.value, requestedAt), Done);
    }

    method DeletePending(token: string) returns (r: Result<Reply, Error>)
      modifies this, db
      ensures (View(), r) == Commit(old(View()), Operation.DeletePendingOp(token), Tx())
    {
      if !TokenOk(token) { return Err(Invalid); }
      r := Write(PendingDelete(token), DmlPendingDelete(token), Done);
    }
  }
}
