/**
 * Authorization on an atomic store: MemoryPairStore of packages/server/src/memory-store.ts, the lifecycle
 * transitions of registry.ts and the verification pipeline of middleware.ts. The store's tail promise makes
 * each operation one step; a verification captures a pair in one step and claims its use in a later one.
 */
module Authorization {
  import opened Wrappers
  import opened Pairs

  const IP_FAILURE_WINDOW_MS: nat := 300000

  datatype PendingEntry = PendingEntry(registration: Registration, requestedAt: int)

  datatype StoreError = IdentityChanged | InvalidInitialState | CapacityReached | IdentityExists

  // ---- The transitions of one pair ----

  function Revoke(p: Pair): Pair {
    p.(status := Revoked)
  }

  function Unlock(p: Pair): Pair {
    if p.status == Locked then p.(status := Active, failedSigs := 0) else p
  }

  /** Only the fields present are changed. */
  datatype Updates = Updates(
    scope: Option<Scope>,
    expiresAt: Option<Option<nat>>,
    maxRequests: Option<Option<nat>>,
    name: Option<string>)

  function Update(p: Pair, u: Updates): Pair {
    p.(scope := if u.scope.Some? then u.scope.value else p.scope,
       expiresAt := if u.expiresAt.Some? then u.expiresAt.value else p.expiresAt,
       maxRequests := if u.maxRequests.Some? then u.maxRequests.value else p.maxRequests,
       name := if u.name.Some? then u.name.value else p.name)
  }

  function Pow2(n: nat): (r: real)
    ensures r >= 1.0
  {
    if n == 0 then 1.0 else 2.0 * Pow2(n - 1)
  }

  /** _applyCumulativeDecay: halve for each whole window since the first failure, then add this one. */
  function Decayed(p: Pair, now: nat): (q: Pair)
    ensures q == p.(cumulativeFailures := q.cumulativeFailures, firstFailureAt := q.firstFailureAt)
    ensures q.cumulativeFailures.Some?
  {
    var first := if p.firstFailureAt.At? then p.firstFailureAt.time else now;
    var windows: int := (now - first) / IP_FAILURE_WINDOW_MS;
    var score := if p.cumulativeFailures.Some? then p.cumulativeFailures.value else 0.0;
    p.(cumulativeFailures := Some((if windows > 0 then score / Pow2(windows) else score) + 1.0),
       firstFailureAt := At(if windows > 0 then now else first))
  }

  /** recordActivity of a failure, with the failures of the same address in its window when one is known. */
  function RecordFailure(p: Pair, ipFailures: Option<nat>, now: nat, lockout: nat): (q: Pair)
    ensures q.status == p.status || (p.status == Active && q.status == Locked)
    ensures SuccessfulUsePolicy(q).(status := p.status) == SuccessfulUsePolicy(p) && q.id == p.id && q.requests == p.requests
  {
    var q := Decayed(p.(failedSigs := if ipFailures.Some? then ipFailures.value else p.failedSigs + 1), now);
    if q.status == Active && (q.failedSigs >= lockout || q.cumulativeFailures.value >= (lockout * 2) as real)
    then q.(status := Locked) else q
  }

  // ---- The operations of the store ----

  function ClaimUse(pairs: map<string, Pair>, id: string, at: nat, policy: UsePolicy): (map<string, Pair>, UseClaim) {
    if id !in pairs then (pairs, Missing)
    else
      var p := pairs[id];
      if p.status == Expired && ElapsedAt(p, at) then (pairs, TimeExpired)
      else if p.status == Expired && CapReached(p, p.requests) then (pairs, UsageExhausted)
      else if p.status != Active then (pairs, Inactive)
      else if ElapsedAt(p, at) then (pairs[id := p.(status := Expired)], TimeExpired)
      else if CapReached(p, p.requests) then (pairs[id := p.(status := Expired)], UsageExhausted)
      else if !UsePolicyMatches(p, policy) then (pairs, PolicyChanged)
      else (pairs[id := AfterUse(p, at)], Claimed)
  }

  function ExpireIfElapsed(pairs: map<string, Pair>, id: string, now: nat): map<string, Pair> {
    if id in pairs && pairs[id].status == Active && ElapsedAt(pairs[id], now)
    then pairs[id := pairs[id].(status := Expired)] else pairs
  }

  function ExpireIfExhausted(pairs: map<string, Pair>, id: string): map<string, Pair> {
    if id in pairs && pairs[id].status == Active && CapReached(pairs[id], pairs[id].requests)
    then pairs[id := pairs[id].(status := Expired)] else pairs
  }

  function LockIfFailing(pairs: map<string, Pair>, id: string, minimum: nat): map<string, Pair> {
    if id in pairs && pairs[id].status == Active && pairs[id].failedSigs >= minimum
    then pairs[id := pairs[id].(status := Locked)] else pairs
  }

  predicate MayRotate(pairs: map<string, Pair>, expected: Pair, replacement: Pair) {
    && expected.id in pairs && pairs[expected.id] == expected
    && expected.status == Active && HasInitialState(replacement) && RotationPolicyMatches(expected, replacement)
    && replacement.id !in pairs
  }

  function Rotate(pairs: map<string, Pair>, expected: Pair, replacement: Pair): map<string, Pair> {
    if MayRotate(pairs, expected, replacement)
    then pairs[expected.id := expected.(status := Rotated)][replacement.id := replacement]
    else pairs
  }

  /** A pair enters the store by an approval, in its initial state and under a new identity. */
  function Admit(pairs: map<string, Pair>, p: Pair): map<string, Pair> {
    if HasInitialState(p) && p.id !in pairs then pairs[p.id := p] else pairs
  }

  function ActivePairs(pairs: map<string, Pair>): set<string> {
    set id | id in pairs && pairs[id].status == Active
  }

  /** An approval of this pending entry by this pair goes through. */
  predicate MayApprove(pairs: map<string, Pair>, pending: map<string, PendingEntry>, token: string, expected: PendingEntry,
                       pair: Pair, maxActive: nat) {
    && token in pending && pending[token] == expected
    && HasInitialState(pair) && MatchesRegistration(pair, expected.registration)
    && |ActivePairs(pairs)| < maxActive && pair.id !in pairs
  }

  // ---- Verifications among lifecycle changes ----

  /** A verification past its capture: everything it checks from here on is this value. */
  datatype Verification = Verification(auth: Pair)

  datatype Use = Use(id: string, at: nat, verified: bool)

  datatype World = World(pairs: map<string, Pair>, verifications: map<nat, Verification>, uses: seq<Use>)

  datatype Step =
    | AdmitPair(pair: Pair)
    | RevokePair(id: string)
    | UnlockPair(id: string)
    | UpdatePair(id: string, updates: Updates)
    | Failure(id: string, ipFailures: Option<nat>, now: nat, lockout: nat)
    | Expire(id: string, now: nat)
    | ExpireUsage(id: string)
    | Lock(id: string, minimum: nat)
    | RotatePair(expected: Pair, replacement: Pair)
    /** registry.claimSuccessfulUse: the pair is read first, and claimed with what was read. */
    | ReadForUse(verification: nat, id: string)
    | DirectUse(verification: nat, at: nat)
    | Capture(verification: nat, id: string, now: nat, lockout: nat)
    /** `proven` stands for the payload, secret, timestamp, scope, body, signature and nonce checks. */
    | Claim(verification: nat, at: nat, proven: bool)

  /** Steps 4 and 5 of verifyBPCRequest let this pair through. */
  predicate PassesCapture(p: Pair, now: nat, lockout: nat) {
    && p.status == Active
    && p.failedSigs < lockout
    && !(p.expiresAt.Some? && p.expiresAt.value > 0 && now > p.expiresAt.value)
    && !CapReached(p, p.requests)
  }

  function Changed(w: World, id: string, p: Pair): World {
    w.(pairs := w.pairs[id := p])
  }

  function ClaimFor(w: World, verification: nat, at: nat, verified: bool): World
    requires verification in w.verifications
  {
    var auth := w.verifications[verification].auth;
    var (pairs, outcome) := ClaimUse(w.pairs, auth.id, at, SuccessfulUsePolicy(auth));
    World(pairs, w.verifications - {verification},
          if outcome == UseClaim.Claimed then w.uses + [Use(auth.id, at, verified)] else w.uses)
  }

  function Next(w: World, step: Step): World {
    match step
    case AdmitPair(p) => w.(pairs := Admit(w.pairs, p))
    case RevokePair(id) => if id in w.pairs then Changed(w, id, Revoke(w.pairs[id])) else w
    case UnlockPair(id) => if id in w.pairs then Changed(w, id, Unlock(w.pairs[id])) else w
    case UpdatePair(id, u) => if id in w.pairs then Changed(w, id, Update(w.pairs[id], u)) else w
    case Failure(id, ip, now, lockout) =>
      if id in w.pairs then Changed(w, id, RecordFailure(w.pairs[id], ip, now, lockout)) else w
    case Expire(id, now) => w.(pairs := ExpireIfElapsed(w.pairs, id, now))
    case ExpireUsage(id) => w.(pairs := ExpireIfExhausted(w.pairs, id))
    case Lock(id, minimum) => w.(pairs := LockIfFailing(w.pairs, id, minimum))
    case RotatePair(expected, replacement) => w.(pairs := Rotate(w.pairs, expected, replacement))
    case ReadForUse(v, id) =>
      if v in w.verifications || id !in w.pairs then w
      else w.(verifications := w.verifications[v := Verification(w.pairs[id])])
    case DirectUse(v, at) => if v in w.verifications then ClaimFor(w, v, at, false) else w
    case Capture(v, id, now, lockout) =>
      if v in w.verifications || id !in w.pairs || !PassesCapture(w.pairs[id], now, lockout) then w
      else w.(verifications := w.verifications[v := Verification(w.pairs[id])])
    case Claim(v, at, proven) =>
      if v !in w.verifications then w
      else if !proven || KindOr(w.verifications[v].auth.kind) == Ghost then w.(verifications := w.verifications - {v})
      else ClaimFor(w, v, at, true)
  }

  function Run(w: World, steps: seq<Step>): World {
    if |steps| == 0 then w else Next(Run(w, steps[..|steps| - 1]), steps[|steps| - 1])
  }

  const Empty := World(map[], map[], [])

  function UsesOf(uses: seq<Use>, id: string): nat {
    if |uses| == 0 then 0 else UsesOf(uses[..|uses| - 1], id) + (if uses[|uses| - 1].id == id then 1 else 0)
  }

  lemma UsesSnoc(uses: seq<Use>, u: Use, id: string)
    ensures UsesOf(uses + [u], id) == UsesOf(uses, id) + (if u.id == id then 1 else 0)
  {
    assert (uses + [u])[..|uses|] == uses;
  }

  /** Every pair is stored under its own id, and its request counter is the number of its accepted uses. */
  ghost predicate Inv(w: World) {
    && (forall id :: id in w.pairs ==> w.pairs[id].id == id && w.pairs[id].requests == UsesOf(w.uses, id))
    && (forall id :: id !in w.pairs ==> UsesOf(w.uses, id) == 0)
    && (forall v :: v in w.verifications ==> w.verifications[v].auth.id in w.pairs)
  }

  lemma ChangedKeeps(w: World, id: string, p: Pair)
    requires Inv(w) && id in w.pairs && p.id == id && p.requests == w.pairs[id].requests
    ensures Inv(Changed(w, id, p))
  {
    hide UsesOf;
  }

  lemma AdmitKeeps(w: World, p: Pair)
    requires Inv(w) && p.id !in w.pairs && p.requests == 0
    ensures Inv(Changed(w, p.id, p))
  {
    hide UsesOf;
  }

  lemma RotateKeeps(w: World, expected: Pair, replacement: Pair)
    requires Inv(w)
    ensures Inv(w.(pairs := Rotate(w.pairs, expected, replacement)))
  {
    if MayRotate(w.pairs, expected, replacement) {
      ChangedKeeps(w, expected.id, expected.(status := Rotated));
      AdmitKeeps(Changed(w, expected.id, expected.(status := Rotated)), replacement);
    }
    hide Inv, RotationPolicyMatches, UsesOf;
  }

  /** The steps that only change the life cycle of stored pairs. */
  lemma LifecycleKeeps(w: World, step: Step)
    requires Inv(w) && !step.Claim? && !step.DirectUse?
    ensures Inv(Next(w, step))
  {
    hide RecordFailure, UsesOf, RotationPolicyMatches, CapReached, ElapsedAt, Changed, Rotate;
    match step
    case AdmitPair(p) => if HasInitialState(p) && p.id !in w.pairs { AdmitKeeps(w, p); ChangedIs(w, p.id, p); }
    case RevokePair(id) => if id in w.pairs { ChangedKeeps(w, id, Revoke(w.pairs[id])); }
    case UnlockPair(id) => if id in w.pairs { ChangedKeeps(w, id, Unlock(w.pairs[id])); }
    case UpdatePair(id, u) => if id in w.pairs { ChangedKeeps(w, id, Update(w.pairs[id], u)); }
    case Failure(id, ip, now, lockout) =>
      if id in w.pairs { ChangedKeeps(w, id, RecordFailure(w.pairs[id], ip, now, lockout)); }
    case Expire(id, _) => if id in w.pairs { StatusKeeps(w, id, Expired); }
    case ExpireUsage(id) => if id in w.pairs { StatusKeeps(w, id, Expired); }
    case Lock(id, _) => if id in w.pairs { StatusKeeps(w, id, Locked); }
    case RotatePair(expected, replacement) => RotateKeeps(w, expected, replacement);
    case _ =>
  }

  lemma ChangedIs(w: World, id: string, p: Pair)
    ensures Changed(w, id, p) == w.(pairs := w.pairs[id := p])
  {
  }

  lemma StatusKeeps(w: World, id: string, status: Status)
    requires Inv(w) && id in w.pairs
    ensures Inv(w.(pairs := w.pairs[id := w.pairs[id].(status := status)]))
  {
    ChangedKeeps(w, id, w.pairs[id].(status := status));
  }

  lemma ClaimKeeps(w: World, v: nat, at: nat, verified: bool)
    requires Inv(w) && v in w.verifications
    ensures Inv(ClaimFor(w, v, at, verified))
  {
    var auth := w.verifications[v].auth;
    forall id ensures UsesOf(w.uses + [Use(auth.id, at, verified)], id) == UsesOf(w.uses, id) + (if auth.id == id then 1 else 0) {
      UsesSnoc(w.uses, Use(auth.id, at, verified), id);
    }
  }

  lemma NextKeeps(w: World, step: Step)
    requires Inv(w)
    ensures Inv(Next(w, step))
  {
    if step.Claim? && step.verification in w.verifications {
      ClaimKeeps(w, step.verification, step.at, true);
      DroppedKeeps(w, step.verification);
    } else if step.DirectUse? && step.verification in w.verifications {
      ClaimKeeps(w, step.verification, step.at, false);
    } else if !step.Claim? && !step.DirectUse? {
      LifecycleKeeps(w, step);
    }
    hide Inv, ClaimFor, Changed, Rotate, RecordFailure;
  }

  /** The request counter of every pair equals the number of uses accepted for it, over all interleavings. */
  lemma {:induction false} UsesEqualTheCounter(steps: seq<Step>)
    ensures Inv(Run(Empty, steps))
  {
    hide Next;
    if |steps| > 0 {
      UsesEqualTheCounter(steps[..|steps| - 1]);
      NextKeeps(Run(Empty, steps[..|steps| - 1]), steps[|steps| - 1]);
    }
  }

  lemma DroppedKeeps(w: World, v: nat)
    requires Inv(w)
    ensures Inv(w.(verifications := w.verifications - {v}))
  {
  }

  // ---- What an accepted use means ----

  /** The stored pair can be used at `at` and still carries what was captured in `auth`. */
  predicate StillGood(pairs: map<string, Pair>, auth: Pair, at: nat) {
    auth.id in pairs &&
    var p := pairs[auth.id];
    && p.status == auth.status == Active && !ElapsedAt(p, at) && !CapReached(p, p.requests)
    && p.pubKey == auth.pubKey && p.secretHash == auth.secretHash && p.scope == auth.scope && p.mode == auth.mode
    && p.expiresAt == auth.expiresAt && p.maxRequests == auth.maxRequests && p.canaryClass == auth.canaryClass
    && KindOr(p.kind) == KindOr(auth.kind)
  }

  /**
   * A verification is accepted exactly when its request was proven, its pair is no ghost, and the stored pair is
   * active, unexpired, below its cap and carries exactly the key, secret, scope, mode, expiry, cap and kind that
   * were captured and checked; it then counts one use.
   */
  lemma AcceptanceMeans(w: World, v: nat, at: nat, proven: bool)
    requires v in w.verifications
    ensures var auth, w' := w.verifications[v].auth, Next(w, Claim(v, at, proven));
            && (|w'.uses| > |w.uses| <==> proven && KindOr(auth.kind) == Legitimate && StillGood(w.pairs, auth, at))
            && (|w'.uses| > |w.uses| ==> w'.uses == w.uses + [Use(auth.id, at, true)]
                                         && w'.pairs[auth.id].requests == w.pairs[auth.id].requests + 1)
  {
  }

  /** What a verification has captured is its own: only its own claim uses it up. */
  predicate LeavesAlone(step: Step, v: nat) {
    (step.Claim? || step.DirectUse?) ==> step.verification != v
  }

  lemma {:induction false} CaptureLasts(w: World, steps: seq<Step>, v: nat)
    requires v in w.verifications && forall i :: 0 <= i < |steps| ==> LeavesAlone(steps[i], v)
    ensures v in Run(w, steps).verifications && Run(w, steps).verifications[v] == w.verifications[v]
  {
    if |steps| > 0 {
      CaptureLasts(w, steps[..|steps| - 1], v);
      CaptureStays(Run(w, steps[..|steps| - 1]), steps[|steps| - 1], v);
    }
  }

  lemma CaptureStays(w: World, step: Step, v: nat)
    requires v in w.verifications && LeavesAlone(step, v)
    ensures v in Next(w, step).verifications && Next(w, step).verifications[v] == w.verifications[v]
  {
    hide ClaimUse, RecordFailure, Rotate, Admit;
  }

  predicate Terminal(s: Status) {
    s == Revoked || s == Rotated
  }

  lemma TerminalStep(w: World, step: Step, id: string)
    requires id in w.pairs && w.pairs[id].id == id && Terminal(w.pairs[id].status)
    requires forall other :: other in w.pairs ==> w.pairs[other].id == other
    ensures id in Next(w, step).pairs && Terminal(Next(w, step).pairs[id].status)
    ensures UsesOf(Next(w, step).uses, id) == UsesOf(w.uses, id)
  {
    hide RecordFailure, RotationPolicyMatches, HasInitialState, UsesOf;
    if (step.Claim? || step.DirectUse?) && step.verification in w.verifications {
      UsesSnoc(w.uses, Use(w.verifications[step.verification].auth.id, step.at, step.Claim?), id);
    }
  }

  /** No use is accepted after revocation or rotation, whatever was captured before it. */
  lemma {:induction false} NothingAfterRevocation(before: seq<Step>, after: seq<Step>, id: string)
    requires var w := Run(Empty, before); id in w.pairs && Terminal(w.pairs[id].status)
    ensures var w' := Run(Run(Empty, before), after);
            && id in w'.pairs && Terminal(w'.pairs[id].status)
            && UsesOf(w'.uses, id) == UsesOf(Run(Empty, before).uses, id)
  {
    if |after| > 0 {
      NothingAfterRevocation(before, after[..|after| - 1], id);
      var w := Run(Run(Empty, before), after[..|after| - 1]);
      RunAppend(Empty, before, after[..|after| - 1]);
      UsesEqualTheCounter(before + after[..|after| - 1]);
      TerminalStep(w, after[|after| - 1], id);
    }
  }

  lemma {:induction false} RunAppend(w: World, a: seq<Step>, b: seq<Step>)
    ensures Run(w, a + b) == Run(Run(w, a), b)
  {
    hide Next;
    if |b| == 0 {
      assert a + b == a;
    } else {
      RunAppend(w, a, b[..|b| - 1]);
      assert (a + b)[..|a + b| - 1] == a + b[..|b| - 1];
    }
  }

  predicate LeavesCap(step: Step, id: string) {
    step.UpdatePair? && step.id == id ==> step.updates.maxRequests.None?
  }

  lemma CapStep(w: World, step: Step, id: string, cap: nat)
    requires id in w.pairs && w.pairs[id].maxRequests == Some(cap) && cap > 0 && w.pairs[id].requests <= cap
    requires forall other :: other in w.pairs ==> w.pairs[other].id == other
    requires LeavesCap(step, id)
    ensures id in Next(w, step).pairs && Next(w, step).pairs[id].maxRequests == Some(cap)
    ensures Next(w, step).pairs[id].requests <= cap
  {
    hide RecordFailure, RotationPolicyMatches, UsesOf;
  }

  /** While a pair's cap is not changed, its accepted uses stay within it. */
  lemma {:induction false} UsesStayWithinTheCap(before: seq<Step>, after: seq<Step>, id: string, cap: nat)
    requires var w := Run(Empty, before);
             id in w.pairs && w.pairs[id].maxRequests == Some(cap) && cap > 0 && w.pairs[id].requests <= cap
    requires forall i :: 0 <= i < |after| ==> LeavesCap(after[i], id)
    ensures var w' := Run(Run(Empty, before), after);
            && id in w'.pairs && w'.pairs[id].maxRequests == Some(cap) && w'.pairs[id].requests <= cap
            && UsesOf(w'.uses, id) <= cap
  {
    RunAppend(Empty, before, after);
    UsesEqualTheCounter(before + after);
    if |after| > 0 {
      UsesStayWithinTheCap(before, after[..|after| - 1], id, cap);
      var w := Run(Run(Empty, before), after[..|after| - 1]);
      RunAppend(Empty, before, after[..|after| - 1]);
      UsesEqualTheCounter(before + after[..|after| - 1]);
      CapStep(w, after[|after| - 1], id, cap);
    }
  }

  // ---- The store object ----

  class MemoryPairStore {
    var pairs: map<string, Pair>
    var pending: map<string, PendingEntry>

    constructor ()
      ensures pairs == map[] && pending == map[]
    {
      pairs, pending := map[], map[];
    }

    /** atomicMutate: the callback returns a new pair, or nothing to leave the pair as it is. */
    method AtomicMutate(id: string, mutate: Pair -> Option<Pair>) returns (r: Result<Option<Pair>, StoreError>)
      modifies this
      ensures pending == old(pending)
      ensures id !in old(pairs) ==> r == Ok(None) && pairs == old(pairs)
      ensures id in old(pairs) ==>
                match mutate(old(pairs)[id])
                case None => r == Ok(Some(old(pairs)[id])) && pairs == old(pairs)
                case Some(p) =>
                  if p.id == id then r == Ok(Some(p)) && pairs == old(pairs)[id := p]
                  else r == Err(IdentityChanged) && pairs == old(pairs)
    {
      if id !in pairs { return Ok(None); }
      var next := mutate(pairs[id]);
      if next.None? { return Ok(Some(pairs[id])); }
      if next.value.id != id { return Err(IdentityChanged); }
      pairs := pairs[id := next.value];
      return Ok(next);
    }

    function ActiveCount(): nat
      reads this
    {
      |ActivePairs(pairs)|
    }

    /**
     * The entries are compared as JSON texts: equal values count as the same only when `sameOrder`, the keys of
     * the two objects stand in the same order.
     */
    method ApprovePending(token: string, expected: PendingEntry, sameOrder: bool, pair: Pair, maxActive: nat)
      returns (r: Result<bool, StoreError>)
      modifies this
      ensures r == Ok(true) <==> sameOrder && MayApprove(old(pairs), old(pending), token, expected, pair, maxActive)
      ensures r == Ok(true) ==>
                && token in old(pending) && old(pending)[token] == expected && MatchesRegistration(pair, expected.registration)
                && old(ActiveCount()) < maxActive
                && pairs == Admit(old(pairs), pair) && pairs != old(pairs) && pending == old(pending) - {token}
      ensures r != Ok(true) ==> pairs == old(pairs) && pending == old(pending)
      ensures r == Ok(false) <==> !(token in old(pending) && old(pending)[token] == expected && sameOrder)
      ensures r.Err? ==> r.error == (if !HasInitialState(pair) || !MatchesRegistration(pair, expected.registration) then InvalidInitialState
                                     else if old(ActiveCount()) >= maxActive then CapacityReached else IdentityExists)
      ensures r == Err(IdentityExists) ==> pair.id in old(pairs)
    {
      if token !in pending || pending[token] != expected || !sameOrder { return Ok(false); }
      if !HasInitialState(pair) || !MatchesRegistration(pair, expected.registration) { return Err(InvalidInitialState); }
      if ActiveCount() >= maxActive { return Err(CapacityReached); }
      if pair.id in pairs { return Err(IdentityExists); }
      pending := pending - {token};
      pairs := pairs[pair.id := pair];
      assert pair.id in pairs.Keys && pair.id !in old(pairs).Keys;
      return Ok(true);
    }

    /** The pairs are compared as JSON texts too. */
    method RotatePair(expected: Pair, sameOrder: bool, replacement: Pair) returns (rotated: bool)
      modifies this
      ensures pairs == (if sameOrder then Rotate(old(pairs), expected, replacement) else old(pairs)) && pending == old(pending)
      ensures rotated <==> sameOrder && MayRotate(old(pairs), expected, replacement)
    {
      if expected.id !in pairs || pairs[expected.id] != expected || !sameOrder { return false; }
      var current := pairs[expected.id];
      if current.status != Active || !HasInitialState(replacement) || !RotationPolicyMatches(current, replacement)
         || replacement.id in pairs { return false; }
      pairs := pairs[current.id := current.(status := Rotated)];
      pairs := pairs[replacement.id := replacement];
      return true;
    }

    method ClaimSuccessfulUse(id: string, at: nat, policy: UsePolicy) returns (outcome: UseClaim)
      modifies this
      ensures (pairs, outcome) == ClaimUse(old(pairs), id, at, policy) && pending == old(pending)
    {
      if id !in pairs { return Missing; }
      var current := pairs[id];
      if current.status == Expired {
        if ElapsedAt(current, at) { return TimeExpired; }
        if CapReached(current, current.requests) { return UsageExhausted; }
      }
      if current.status != Active { return Inactive; }
      if ElapsedAt(current, at) {
        pairs := pairs[id := current.(status := Expired)];
        return TimeExpired;
      }
      if CapReached(current, current.requests) {
        pairs := pairs[id := current.(status := Expired)];
        return UsageExhausted;
      }
      if !UsePolicyMatches(current, policy) { return PolicyChanged; }
      var requests := current.requests + 1;
      pairs := pairs[id := current.(requests := requests, lastActive := Some(at), failedSigs := 0,
                                    cumulativeFailures := Some(0.0), firstFailureAt := Null,
                                    status := if CapReached(current, requests) then Expired else current.status)];
      return Claimed;
    }

    method ExpireElapsed(id: string, now: nat) returns (expired: bool)
      modifies this
      ensures pairs == ExpireIfElapsed(old(pairs), id, now) && pending == old(pending)
      ensures expired <==> id in old(pairs) && old(pairs)[id].status == Active && ElapsedAt(old(pairs)[id], now)
    {
      if id !in pairs || pairs[id].status != Active || pairs[id].expiresAt.None? || pairs[id].expiresAt.value >= now { return false; }
      pairs := pairs[id := pairs[id].(status := Expired)];
      return true;
    }

    method ExpireIfUsageExhausted(id: string) returns (expired: bool)
      modifies this
      ensures pairs == ExpireIfExhausted(old(pairs), id) && pending == old(pending)
      ensures expired <==> id in old(pairs) && old(pairs)[id].status == Active && CapReached(old(pairs)[id], old(pairs)[id].requests)
    {
      if id !in pairs || pairs[id].status != Active || !CapReached(pairs[id], pairs[id].requests) { return false; }
      pairs := pairs[id := pairs[id].(status := Expired)];
      return true;
    }

    method LockIfFailureThreshold(id: string, minimum: nat) returns (locked: bool)
      modifies this
      ensures pairs == LockIfFailing(old(pairs), id, minimum) && pending == old(pending)
      ensures locked <==> id in old(pairs) && old(pairs)[id].status == Active && old(pairs)[id].failedSigs >= minimum
    {
      if id !in pairs || pairs[id].status != Active || pairs[id].failedSigs < minimum { return false; }
      pairs := pairs[id := pairs[id].(status := Locked)];
      return true;
    }
  }

  // ---- One verification, with anything in between ----

  /** What a refusal at the capture leaves behind: the threshold or limit it met is marked on the stored pair. */
  function Refused(w: World, id: string, now: nat, lockout: nat): World {
    if id !in w.pairs || w.pairs[id].status != Active then w
    else
      var p := w.pairs[id];
      if p.failedSigs >= lockout then (if lockout >= 1 then Next(w, Lock(id, lockout)) else w)
      else if p.expiresAt.Some? && p.expiresAt.value > 0 && now > p.expiresAt.value then Next(w, Expire(id, now))
      else Next(w, ExpireUsage(id))
  }

  /**
   * How the checks between the capture and the claim end: a check that failed in a way that counts against the
   * pair, with the failures of the same address in its window, or a denial that does not count, such as one of
   * scope, replay or quarantine.
   */
  datatype Checks = Passed | Failed(ipFailures: Option<nat>, now: nat, lockout: nat) | Denied

  /** A verification ends: its claim is made or dropped, and a counted failure is recorded. */
  function Ended(w: World, v: nat, id: string, at: nat, checks: Checks): World {
    var claimed := Next(w, Claim(v, at, checks.Passed?));
    if checks.Failed? then Next(claimed, Failure(id, checks.ipFailures, checks.now, checks.lockout)) else claimed
  }

  class Server {
    const store: MemoryPairStore
    var verifications: map<nat, Verification>
    var uses: seq<Use>

    constructor ()
      ensures fresh(store) && View() == Empty && Inv(View())
    {
      store := new MemoryPairStore();
      verifications, uses := map[], [];
      new;
      UsesEqualTheCounter([]);
    }

    function View(): World
      reads this, store
    {
      World(store.pairs, verifications, uses)
    }

    /** What other requests and the life cycle do meanwhile. */
    method Meanwhile(steps: seq<Step>)
      requires Inv(View())
      modifies this, store
      ensures View() == Run(old(View()), steps) && Inv(View())
    {
      RunKeepsInv(View(), steps);
      var w := Run(View(), steps);
      store.pairs, verifications, uses := w.pairs, w.verifications, w.uses;
    }

    /** Steps 4 and 5: None when the request is refused there. */
    method CaptureContext(id: string, now: nat, lockout: nat) returns (auth: Option<Pair>)
      modifies store
      ensures auth.Some? <==> id in old(View()).pairs && PassesCapture(old(View()).pairs[id], now, lockout)
      ensures auth.Some? ==> auth.value == old(View()).pairs[id] && View() == old(View())
      ensures auth.None? ==> View() == Refused(old(View()), id, now, lockout)
      ensures verifications == old(verifications) && uses == old(uses)
    {
      if id !in store.pairs { return None; }
      var pair := store.pairs[id];
      if pair.status != Active { return None; }
      if pair.failedSigs >= lockout {
        if lockout >= 1 { var locked := store.LockIfFailureThreshold(id, lockout); }
        return None;
      }
      if pair.expiresAt.Some? && pair.expiresAt.value > 0 && now > pair.expiresAt.value {
        var expired := store.ExpireElapsed(id, now);
        return None;
      }
      if CapReached(pair, pair.requests) {
        var expired := store.ExpireIfUsageExhausted(id);
        return None;
      }
      return Some(pair);
    }

    /** recordActivity of a failure. */
    method RecordActivity(id: string, ipFailures: Option<nat>, now: nat, lockout: nat)
      requires id in store.pairs ==> store.pairs[id].id == id
      modifies store
      ensures View() == Next(old(View()), Failure(id, ipFailures, now, lockout)) && uses == old(uses)
    {
      var r := store.AtomicMutate(id, (p: Pair) => Some(RecordFailure(p, ipFailures, now, lockout)));
    }

    /**
     * verifyBPCRequest from the captured context to the final use claim; `between` is whatever else happens
     * to the store while the request is being checked. The request is accepted exactly when the pair passes the
     * capture, the checks pass, the pair is no ghost, and the pair stored at the claim can still be used and
     * carries what was captured. A check that counts against the pair is recorded on it, and can lock it.
     */
    method VerifyBPCRequest(v: nat, id: string, now: nat, lockout: nat, checks: Checks, between: seq<Step>, at: nat)
      returns (ok: bool, ghost atClaim: World)
      requires Inv(View()) && v !in verifications && forall i :: 0 <= i < |between| ==> LeavesAlone(between[i], v)
      modifies this, store
      ensures Inv(View())
      ensures var before := old(View());
              var captured := id in before.pairs && PassesCapture(before.pairs[id], now, lockout);
              && (!captured ==> !ok && View() == Refused(before, id, now, lockout))
              && (captured ==>
                    && atClaim == Run(Next(before, Capture(v, id, now, lockout)), between)
                    && (ok <==> checks.Passed? && KindOr(before.pairs[id].kind) == Legitimate
                                && StillGood(atClaim.pairs, before.pairs[id], at))
                    && (ok ==> View().uses == atClaim.uses + [Use(id, at, true)]
                               && View().pairs == atClaim.pairs[id := AfterUse(atClaim.pairs[id], at)])
                    && (!ok ==> View().uses == atClaim.uses)
                    && (checks.Failed? && id in atClaim.pairs ==>
                          View().pairs == atClaim.pairs[id := RecordFailure(atClaim.pairs[id], checks.ipFailures, checks.now, checks.lockout)])
                    && (checks.Denied? ==> View().pairs == atClaim.pairs)
                    && View() == Ended(atClaim, v, id, at, checks))
    {
      hide Inv, Run, Next, RecordFailure;
      ghost var before := View();
      atClaim := View();
      RefusedKeeps(View(), id, now, lockout);
      var auth := CaptureContext(id, now, lockout);
      if auth.None? { return false, atClaim; }
      CapturedUnderId(before, id);
      CaptureIs(before, v, id, now, lockout);
      NextKeeps(before, Capture(v, id, now, lockout));
      verifications := verifications[v := Verification(auth.value)];
      CaptureLasts(View(), between, v);
      Meanwhile(between);
      atClaim := View();
      EndedKeeps(atClaim, v, id, at, checks);
      AcceptanceMeans(atClaim, v, at, checks.Passed?);
      ClaimIs(atClaim, v, at, checks.Passed?);
      verifications := verifications - {v};
      if checks.Failed? {
        RecordActivity(id, checks.ipFailures, checks.now, checks.lockout);
        return false, atClaim;
      }
      if checks.Denied? { return false, atClaim; }
      if KindOr(auth.value.kind) == Ghost { return false, atClaim; }
      var outcome := store.ClaimSuccessfulUse(id, at, SuccessfulUsePolicy(auth.value));
      if outcome != UseClaim.Claimed { return false, atClaim; }
      uses := uses + [Use(id, at, true)];
      return true, atClaim;
    }
  }

  lemma EndedKeeps(w: World, v: nat, id: string, at: nat, checks: Checks)
    requires Inv(w)
    ensures Inv(Ended(w, v, id, at, checks))
    ensures checks.Failed? ==> Ended(w, v, id, at, checks).uses == w.uses
    ensures checks.Failed? && id in w.pairs ==>
              Ended(w, v, id, at, checks).pairs
              == w.pairs[id := RecordFailure(w.pairs[id], checks.ipFailures, checks.now, checks.lockout)]
  {
    hide Inv, RecordFailure;
    var claimed := Next(w, Claim(v, at, checks.Passed?));
    NextKeeps(w, Claim(v, at, checks.Passed?));
    if checks.Failed? { NextKeeps(claimed, Failure(id, checks.ipFailures, checks.now, checks.lockout)); }
  }

  lemma CapturedUnderId(w: World, id: string)
    requires Inv(w) && id in w.pairs
    ensures w.pairs[id].id == id
  {
    hide UsesOf;
  }

  lemma CaptureIs(w: World, v: nat, id: string, now: nat, lockout: nat)
    requires v !in w.verifications && id in w.pairs && PassesCapture(w.pairs[id], now, lockout)
    ensures Next(w, Capture(v, id, now, lockout)) == w.(verifications := w.verifications[v := Verification(w.pairs[id])])
  {
  }

  lemma RefusedKeeps(w: World, id: string, now: nat, lockout: nat)
    requires Inv(w)
    ensures Inv(Refused(w, id, now, lockout))
  {
    hide Inv, Next;
    NextKeeps(w, Lock(id, lockout));
    NextKeeps(w, Expire(id, now));
    NextKeeps(w, ExpireUsage(id));
  }

  lemma {:induction false} RunKeepsInv(w: World, steps: seq<Step>)
    requires Inv(w)
    ensures Inv(Run(w, steps))
  {
    hide Inv, Next;
    if |steps| > 0 {
      RunKeepsInv(w, steps[..|steps| - 1]);
      NextKeeps(Run(w, steps[..|steps| - 1]), steps[|steps| - 1]);
    }
  }

  /** The claim step in the terms of the store's claim. */
  lemma ClaimIs(w: World, v: nat, at: nat, proven: bool)
    requires v in w.verifications
    ensures var auth := w.verifications[v].auth;
            var (pairs, outcome) := ClaimUse(w.pairs, auth.id, at, SuccessfulUsePolicy(auth));
            && Next(w, Claim(v, at, proven)) ==
                 (if !proven || KindOr(auth.kind) == Ghost then w.(verifications := w.verifications - {v})
                  else World(pairs, w.verifications - {v},
                             if outcome == UseClaim.Claimed then w.uses + [Use(auth.id, at, true)] else w.uses))
            && (outcome == UseClaim.Claimed <==> StillGood(w.pairs, auth, at))
            && (outcome == UseClaim.Claimed ==> pairs == w.pairs[auth.id := AfterUse(w.pairs[auth.id], at)])
  {
  }
}
