/**
 * What each operation of the memory store does to the pair it names, condition by condition and field by field,
 * and when failures lock a pair.
 */
module AuthorizationLaws {
  import opened Wrappers
  import opened Pairs
  import A = Authorization

  /** The expiry of a pair lies before a time. */
  predicate Past(p: Pair, at: nat) {
    match p.expiresAt case None => false case Some(end) => end < at
  }

  /** The accepted uses of a pair have reached its cap. */
  predicate Spent(p: Pair) {
    match p.maxRequests case None => false case Some(cap) => cap != 0 && p.requests >= cap
  }

  /** The stored pair carries what was captured. */
  predicate Unchanged(p: Pair, policy: UsePolicy) {
    && p.status == policy.status && p.scope == policy.scope && p.mode == policy.mode
    && p.secretHash == policy.secretHash && p.pubKey == policy.pubKey
    && p.expiresAt == policy.expiresAt && p.maxRequests == policy.maxRequests && p.canaryClass == policy.canaryClass
    && (p.kind == Some(policy.kind) || (p.kind == None && policy.kind == Legitimate))
  }

  /** The pair after an accepted use: one more request, fresh failure counters, expired if that was the last. */
  function Used(p: Pair, at: nat): Pair {
    Pair(p.id, p.name, p.scope, p.mode, p.secretHash, p.pubKey,
         if p.maxRequests.Some? && p.maxRequests.value != 0 && p.requests + 1 >= p.maxRequests.value then Expired else p.status,
         p.created, Some(at), p.requests + 1, 0, Some(0.0), Null, p.expiresAt, p.maxRequests, p.kind, p.canaryClass)
  }

  /**
   * A use is claimed exactly on a stored pair that is active, neither past nor spent, and unchanged; every other
   * outcome has its own condition, and a pair found past or spent while active is expired on the way.
   */
  lemma ClaimOutcomes(pairs: map<string, Pair>, id: string, at: nat, policy: UsePolicy)
    ensures A.ClaimUse(pairs, id, at, policy).1 == Missing <==> id !in pairs
    ensures id in pairs ==>
              var p, (after, outcome) := pairs[id], A.ClaimUse(pairs, id, at, policy);
              && (outcome == TimeExpired <==> (p.status == Active || p.status == Expired) && Past(p, at))
              && (outcome == UsageExhausted <==> (p.status == Active || p.status == Expired) && !Past(p, at) && Spent(p))
              && (outcome == Inactive <==> p.status != Active && (p.status == Expired ==> !Past(p, at) && !Spent(p)))
              && (outcome == PolicyChanged <==> p.status == Active && !Past(p, at) && !Spent(p) && !Unchanged(p, policy))
              && (outcome == Claimed <==> p.status == Active && !Past(p, at) && !Spent(p) && Unchanged(p, policy))
    ensures A.ClaimUse(pairs, id, at, policy).0 ==
              if id !in pairs || pairs[id].status != Active then pairs
              else if Past(pairs[id], at) || Spent(pairs[id]) then pairs[id := pairs[id].(status := Expired)]
              else if Unchanged(pairs[id], policy) then pairs[id := Used(pairs[id], at)]
              else pairs
  {
  }

  /** The three conditional transitions: exactly an active pair that meets its condition changes, and only its status. */
  lemma TransitionsExactly(pairs: map<string, Pair>, id: string, now: nat, minimum: nat)
    ensures A.ExpireIfElapsed(pairs, id, now) ==
              if id in pairs && pairs[id].status == Active && Past(pairs[id], now) then pairs[id := pairs[id].(status := Expired)] else pairs
    ensures A.ExpireIfExhausted(pairs, id) ==
              if id in pairs && pairs[id].status == Active && Spent(pairs[id]) then pairs[id := pairs[id].(status := Expired)] else pairs
    ensures A.LockIfFailing(pairs, id, minimum) ==
              if id in pairs && pairs[id].status == Active && pairs[id].failedSigs >= minimum
              then pairs[id := pairs[id].(status := Locked)] else pairs
  {
  }

  /** A pair as registrations and approvals create it. */
  predicate Initial(p: Pair) {
    && p.status == Active && p.lastActive == None && p.requests == 0 && p.failedSigs == 0
    && p.cumulativeFailures == None && p.firstFailureAt == Absent
  }

  predicate SamePolicy(p: Pair, q: Pair) {
    && p.name == q.name && p.scope == q.scope && p.mode == q.mode && p.secretHash == q.secretHash
    && p.expiresAt == q.expiresAt && p.maxRequests == q.maxRequests && p.canaryClass == q.canaryClass
    && (p.kind == Some(Ghost) <==> q.kind == Some(Ghost))
  }

  /** A rotation retires exactly an active stored pair, and stores a new one that keeps everything but id and key. */
  lemma RotatesExactly(pairs: map<string, Pair>, expected: Pair, replacement: Pair)
    ensures A.MayRotate(pairs, expected, replacement) <==>
              && expected.id in pairs && pairs[expected.id] == expected && expected.status == Active
              && replacement.id !in pairs && Initial(replacement) && SamePolicy(expected, replacement)
    ensures A.Rotate(pairs, expected, replacement) ==
              if A.MayRotate(pairs, expected, replacement)
              then pairs[expected.id := expected.(status := Rotated)][replacement.id := replacement] else pairs
    ensures A.Admit(pairs, replacement) == if Initial(replacement) && replacement.id !in pairs then pairs[replacement.id := replacement] else pairs
  {
  }

  /** A locked pair serves again once it is unlocked, if nothing else stands against it, and an unlock touches no other pair. */
  lemma UnlockRestores(p: Pair, now: nat, lockout: nat)
    requires lockout >= 1
    ensures A.PassesCapture(A.Unlock(p), now, lockout) <==>
              && (p.status == Locked || (p.status == Active && p.failedSigs < lockout))
              && !Spent(p) && (p.expiresAt.Some? && p.expiresAt.value > 0 ==> now <= p.expiresAt.value)
    ensures p.status != Locked ==> A.Unlock(p) == p
    ensures p.status == Locked ==> A.Unlock(p) == p.(status := Active, failedSigs := 0)
    ensures A.Revoke(p) == p.(status := Revoked)
  {
  }

  predicate Fits(p: Pair, r: Registration) {
    && p.name == r.name && p.scope == r.scope && p.mode == r.mode && p.secretHash == r.secretHash && p.pubKey == r.pubKey
    && p.expiresAt == r.expiresAt && p.maxRequests == r.maxRequests && p.canaryClass == r.canaryClass
    && (p.kind == Some(Ghost) <==> r.kind == Some(Ghost))
  }

  /** An approval goes through exactly for the pending entry as expected, an initial pair that fits it, room, and a new id. */
  lemma ApprovesExactly(pairs: map<string, Pair>, pending: map<string, A.PendingEntry>, token: string, expected: A.PendingEntry,
                        pair: Pair, maxActive: nat)
    ensures A.MayApprove(pairs, pending, token, expected, pair, maxActive) <==>
              && token in pending && pending[token] == expected && Initial(pair) && Fits(pair, expected.registration)
              && |set id | id in pairs && pairs[id].status == Active| < maxActive && pair.id !in pairs
  {
    assert A.ActivePairs(pairs) == set id | id in pairs && pairs[id].status == Active;
  }

  /** An update sets exactly the fields it carries, an explicit absence included. */
  lemma UpdatesExactly(p: Pair, u: A.Updates)
    ensures var q := A.Update(p, u);
            && q == p.(scope := q.scope, expiresAt := q.expiresAt, maxRequests := q.maxRequests, name := q.name)
            && (u.scope == Some(q.scope) || (u.scope == None && q.scope == p.scope))
            && (u.expiresAt == Some(q.expiresAt) || (u.expiresAt == None && q.expiresAt == p.expiresAt))
            && (u.maxRequests == Some(q.maxRequests) || (u.maxRequests == None && q.maxRequests == p.maxRequests))
            && (u.name == Some(q.name) || (u.name == None && q.name == p.name))
  {
  }

  /** A life cycle step changes exactly the stored pair it names, and no verification or use. */
  lemma StepsExactly(w: A.World, id: string, u: A.Updates, ip: Option<nat>, now: nat, lockout: nat)
    ensures var at := (p: Pair) => if id in w.pairs then w.(pairs := w.pairs[id := p]) else w;
            id in w.pairs ==>
              && A.Next(w, A.RevokePair(id)) == at(w.pairs[id].(status := Revoked))
              && A.Next(w, A.UnlockPair(id)) == at(A.Unlock(w.pairs[id]))
              && A.Next(w, A.UpdatePair(id, u)) == at(A.Update(w.pairs[id], u))
              && A.Next(w, A.Failure(id, ip, now, lockout)) == at(A.RecordFailure(w.pairs[id], ip, now, lockout))
    ensures id !in w.pairs ==>
              && A.Next(w, A.RevokePair(id)) == w && A.Next(w, A.UnlockPair(id)) == w
              && A.Next(w, A.UpdatePair(id, u)) == w && A.Next(w, A.Failure(id, ip, now, lockout)) == w
  {
  }

  /** A pair the capture lets through. */
  predicate Passes(p: Pair, now: nat, lockout: nat) {
    p.status == Active && p.failedSigs < lockout && !Spent(p) && (p.expiresAt.Some? && p.expiresAt.value > 0 ==> now <= p.expiresAt.value)
  }

  /** A new verification captures exactly a stored pair that passes; a refusal marks on an active one the first limit it met. */
  lemma CapturesExactly(w: A.World, v: nat, id: string, now: nat, lockout: nat)
    requires v !in w.verifications
    ensures A.Next(w, A.Capture(v, id, now, lockout)) ==
              if id in w.pairs && Passes(w.pairs[id], now, lockout) then w.(verifications := w.verifications[v := A.Verification(w.pairs[id])])
              else w
    ensures id in w.pairs && w.pairs[id].status == Active ==>
              var p := w.pairs[id];
              A.Refused(w, id, now, lockout).pairs ==
                if p.failedSigs >= lockout then (if lockout >= 1 then w.pairs[id := p.(status := Locked)] else w.pairs)
                else if (p.expiresAt.Some? && p.expiresAt.value > 0 && now > p.expiresAt.value) || Spent(p)
                then w.pairs[id := p.(status := Expired)]
                else w.pairs
    ensures !(id in w.pairs && w.pairs[id].status == Active) ==> A.Refused(w, id, now, lockout) == w
  {
  }

  // ---- Failures ----

  /** The score a failure leaves: what is left of the old one after a halving per whole window, and one more. */
  function Score(p: Pair, now: nat): real {
    var before := if p.cumulativeFailures.Some? then p.cumulativeFailures.value else 0.0;
    (if p.firstFailureAt.At? && now - p.firstFailureAt.time >= 300000
     then before / A.Pow2((now - p.firstFailureAt.time) / 300000) else before) + 1.0
  }

  /** A failure locks exactly an active pair whose count, of the address or its own, or whose score has reached the threshold. */
  lemma FailureLocksExactly(p: Pair, ipFailures: Option<nat>, now: nat, lockout: nat)
    ensures var q := A.RecordFailure(p, ipFailures, now, lockout);
            && q.failedSigs == (if ipFailures.Some? then ipFailures.value else p.failedSigs + 1)
            && q.cumulativeFailures == Some(Score(p, now))
            && (q.status == Locked <==>
                  p.status == Locked || (p.status == Active && (q.failedSigs >= lockout || Score(p, now) >= 2.0 * lockout as real)))
            && (p.status != Active ==> q.status == p.status)
            && q == p.(status := q.status, failedSigs := q.failedSigs, cumulativeFailures := q.cumulativeFailures,
                       firstFailureAt := At(if p.firstFailureAt.At? && now - p.firstFailureAt.time < 300000 then p.firstFailureAt.time else now))
  {
    hide A.Pow2;
  }

  /** The failures of one pair in a row, each from an address that is not known. */
  function FailedTimes(p: Pair, times: seq<nat>, lockout: nat): Pair {
    if |times| == 0 then p else A.RecordFailure(FailedTimes(p, times[..|times| - 1], lockout), None, times[|times| - 1], lockout)
  }

  lemma {:induction false} FailuresCount(p: Pair, times: seq<nat>, lockout: nat)
    ensures FailedTimes(p, times, lockout).failedSigs == p.failedSigs + |times|
    ensures p.status != Active ==> FailedTimes(p, times, lockout).status == p.status
    ensures p.status == Active ==> FailedTimes(p, times, lockout).status == Active || FailedTimes(p, times, lockout).status == Locked
  {
    if |times| > 0 {
      FailuresCount(p, times[..|times| - 1], lockout);
      FailureLocksExactly(FailedTimes(p, times[..|times| - 1], lockout), None, times[|times| - 1], lockout);
    }
    hide A.RecordFailure;
  }

  /** However far apart they come, failures that bring an active pair's count to the threshold lock it. */
  lemma EnoughFailuresLock(p: Pair, times: seq<nat>, lockout: nat)
    requires p.status == Active && |times| > 0 && p.failedSigs + |times| >= lockout
    ensures FailedTimes(p, times, lockout).status == Locked
  {
    var before := FailedTimes(p, times[..|times| - 1], lockout);
    FailuresCount(p, times[..|times| - 1], lockout);
    FailureLocksExactly(before, None, times[|times| - 1], lockout);
    hide A.RecordFailure;
  }
}
