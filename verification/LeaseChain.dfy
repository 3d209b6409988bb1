/**
 * The guard's chain of signed source leases, installSourceLeaseGrant of packages/server/src/bpc-ha-final.ts.
 * A digest is a term, so it is injective; `signed` is what the guard's key has signed.
 */
module LeaseChain {
  import opened Wrappers

  const MAX_EPOCH: nat := 1099511627776
  const MAX_MS: nat := 8640000000000000
  const MAX_WINDOW_MS: nat := 300000

  datatype Status = Active | Revoked

  datatype Grant = Grant(
    epoch: int,
    status: Status,
    holder: string,
    leaseId: string,
    commandId: string,
    expiresAt: int,
    window: int,
    seqNo: int,
    prev: Option<LeaseDigest>)

  datatype LeaseDigest = LeaseDigest(grant: Grant)

  datatype LeaseError = Malformed | Unsigned | CommandReused | NotNext | EpochRegression | Pivot | Reactivated | ExpiryDecreased

  predicate WellFormed(g: Grant) {
    && 1 <= g.epoch <= MAX_EPOCH
    && 0 <= g.expiresAt <= MAX_MS
    && 1 <= g.window <= MAX_WINDOW_MS
    && 1 <= g.seqNo <= MAX_SAFE
  }

  // ---- The queries ----

  function Head(history: seq<Grant>): Option<Grant> {
    if |history| == 0 then None else Some(history[|history| - 1])
  }

  function DigestOf(g: Option<Grant>): Option<LeaseDigest> {
    match g case None => None case Some(x) => Some(LeaseDigest(x))
  }

  /** The row of one command id, if the command was installed. */
  function ByCommand(history: seq<Grant>, commandId: string): (g: Option<Grant>)
    ensures g.Some? ==> g.value in history && g.value.commandId == commandId
    ensures g.None? ==> forall i :: 0 <= i < |history| ==> history[i].commandId != commandId
  {
    if |history| == 0 then None
    else if history[0].commandId == commandId then Some(history[0])
    else ByCommand(history[1..], commandId)
  }

  /** The lowest-sequence row of an epoch. */
  function FirstOfEpoch(history: seq<Grant>, epoch: int): (g: Option<Grant>)
    ensures g.Some? ==> g.value in history && g.value.epoch == epoch
    ensures g.None? ==> forall i :: 0 <= i < |history| ==> history[i].epoch != epoch
  {
    if |history| == 0 then None
    else if history[0].epoch == epoch then Some(history[0])
    else FirstOfEpoch(history[1..], epoch)
  }

  predicate RevokedIn(history: seq<Grant>, epoch: int) {
    exists i :: 0 <= i < |history| && history[i].epoch == epoch && history[i].status == Revoked
  }

  /** max(expires_at_ms) over the rows of an epoch. */
  function MaxExpiry(history: seq<Grant>, epoch: int): (m: Option<int>)
    ensures m.None? ==> forall i :: 0 <= i < |history| ==> history[i].epoch != epoch
    ensures m.Some? ==> (exists i :: 0 <= i < |history| && history[i].epoch == epoch && history[i].expiresAt == m.value)
    ensures m.Some? ==> (forall i :: 0 <= i < |history| && history[i].epoch == epoch ==> history[i].expiresAt <= m.value)
  {
    if |history| == 0 then None else
    var rest := MaxExpiry(history[..|history| - 1], epoch);
    var last := history[|history| - 1];
    if last.epoch != epoch then rest
    else if rest.Some? && rest.value > last.expiresAt then rest
    else Some(last.expiresAt)
  }

  function Install(history: seq<Grant>, g: Grant, signed: set<Grant>): Result<seq<Grant>, LeaseError> {
    if !WellFormed(g) then Err(Malformed)
    else if g !in signed then Err(Unsigned)
    else
      var current := Head(history);
      var known := ByCommand(history, g.commandId);
      if known.Some? then (if known.value == g then Ok(history) else Err(CommandReused))
      else if g.seqNo != (if current.Some? then current.value.seqNo else 0) + 1 || g.prev != DigestOf(current) then Err(NotNext)
      else if current.Some? && g.epoch < current.value.epoch then Err(EpochRegression)
      else
        var first := FirstOfEpoch(history, g.epoch);
        if first.Some? && !SameTerm(first.value, g) then Err(Pivot)
        else if RevokedIn(history, g.epoch) && g.status == Active then Err(Reactivated)
        else
          var most := MaxExpiry(history, g.epoch);
          if most.Some? && g.expiresAt < most.value then Err(ExpiryDecreased)
          else Ok(history + [g])
  }

  predicate SameTerm(a: Grant, b: Grant) {
    a.holder == b.holder && a.leaseId == b.leaseId && a.window == b.window
  }

  // ---- What a lawful history is ----

  /** How an earlier grant constrains a later one. */
  predicate Follows(earlier: Grant, later: Grant) {
    && earlier.epoch <= later.epoch
    && earlier.commandId != later.commandId
    && (earlier.epoch == later.epoch ==>
          && SameTerm(earlier, later)
          && earlier.expiresAt <= later.expiresAt
          && (earlier.status == Revoked ==> later.status == Revoked))
  }

  predicate LinkedAt(history: seq<Grant>, i: nat)
    requires i < |history|
  {
    && WellFormed(history[i])
    && history[i].seqNo == i + 1
    && history[i].prev == (if i == 0 then None else Some(LeaseDigest(history[i - 1])))
  }

  ghost predicate ChainOk(history: seq<Grant>) {
    && (forall i :: 0 <= i < |history| ==> LinkedAt(history, i))
    && (forall i, j :: 0 <= i < j < |history| ==> Follows(history[i], history[j]))
  }

  lemma ExtendChain(history: seq<Grant>, g: Grant)
    requires ChainOk(history) && LinkedAt(history + [g], |history|)
    requires forall i :: 0 <= i < |history| ==> Follows(history[i], g)
    ensures ChainOk(history + [g])
  {
    var h := history + [g];
    forall i | 0 <= i < |h| ensures LinkedAt(h, i) {
      if i < |history| { assert LinkedAt(history, i); }
    }
  }

  /**
   * A signed grant under a new command is accepted exactly when appending it leaves a lawful history:
   * contiguous and digest-linked, epochs never falling, one holder, lease and window per epoch, expiry never
   * falling within an epoch, nothing active after a revocation.
   */
  lemma AcceptedExactlyWhenLawful(history: seq<Grant>, g: Grant, signed: set<Grant>)
    requires ChainOk(history) && g in signed && ByCommand(history, g.commandId).None?
    ensures Install(history, g, signed).Ok? <==> ChainOk(history + [g])
    ensures Install(history, g, signed).Ok? ==> Install(history, g, signed).value == history + [g]
  {
    hide MaxExpiry, FirstOfEpoch;
    if Install(history, g, signed).Ok? {
      AcceptedFollows(history, g, signed);
      ExtendChain(history, g);
    }
    if ChainOk(history + [g]) { LawfulIsAccepted(history, g, signed); }
  }

  /** What the checks that precede the insert establish. */
  lemma AcceptedMeans(history: seq<Grant>, g: Grant, signed: set<Grant>)
    requires ByCommand(history, g.commandId).None? && Install(history, g, signed).Ok?
    ensures WellFormed(g) && g.prev == DigestOf(Head(history))
    ensures g.seqNo == (if |history| > 0 then history[|history| - 1].seqNo else 0) + 1
    ensures |history| > 0 ==> history[|history| - 1].epoch <= g.epoch
    ensures FirstOfEpoch(history, g.epoch).Some? ==> SameTerm(FirstOfEpoch(history, g.epoch).value, g)
    ensures RevokedIn(history, g.epoch) ==> g.status == Revoked
    ensures MaxExpiry(history, g.epoch).Some? ==> MaxExpiry(history, g.epoch).value <= g.expiresAt
  {
  }

  lemma AcceptedFollowsOne(history: seq<Grant>, g: Grant, signed: set<Grant>, i: nat)
    requires ChainOk(history) && ByCommand(history, g.commandId).None? && Install(history, g, signed).Ok?
    requires i < |history|
    ensures Follows(history[i], g)
  {
    hide Install, LinkedAt, MaxExpiry, FirstOfEpoch, ByCommand, WellFormed, DigestOf;
    AcceptedMeans(history, g, signed);
    var n := |history|;
    assert i < n - 1 ==> Follows(history[i], history[n - 1]);
    if history[i].epoch == g.epoch {
      var first := FirstOfEpoch(history, g.epoch).value;
      var k :| 0 <= k < n && history[k] == first;
      assert k < i ==> Follows(history[k], history[i]);
      assert i < k ==> Follows(history[i], history[k]);
    }
  }

  lemma AcceptedFollows(history: seq<Grant>, g: Grant, signed: set<Grant>)
    requires ChainOk(history) && ByCommand(history, g.commandId).None? && Install(history, g, signed).Ok?
    ensures LinkedAt(history + [g], |history|)
    ensures forall i :: 0 <= i < |history| ==> Follows(history[i], g)
  {
    hide Install, MaxExpiry, FirstOfEpoch, ByCommand, Follows;
    AcceptedMeans(history, g, signed);
    if |history| > 0 { assert LinkedAt(history, |history| - 1); }
    forall i | 0 <= i < |history| ensures Follows(history[i], g) { AcceptedFollowsOne(history, g, signed, i); }
  }

  lemma LawfulIsAccepted(history: seq<Grant>, g: Grant, signed: set<Grant>)
    requires g in signed && ChainOk(history + [g])
    ensures Install(history, g, signed) == Ok(history + [g])
  {
    hide MaxExpiry, FirstOfEpoch, ByCommand;
    var h, n := history + [g], |history|;
    assert LinkedAt(h, n);
    if n > 0 { assert LinkedAt(h, n - 1); }
    assert forall i :: 0 <= i < n ==> h[i] == history[i];
    assert forall i :: 0 <= i < n ==> Follows(h[i], h[n]);
  }

  /** How a grant of the same epoch binds a later one. */
  predicate Constrains(earlier: Grant, later: Grant) {
    && earlier.holder == later.holder && earlier.leaseId == later.leaseId && earlier.window == later.window
    && earlier.expiresAt <= later.expiresAt && (earlier.status == Revoked ==> later.status == Revoked)
  }

  /**
   * The install in full: a command that was installed is accepted again exactly as the grant it was; a new one is
   * accepted exactly when it is well formed, signed, next in number and link, of no earlier epoch than the head, and
   * bound by every grant of its epoch. Anything else leaves the history alone.
   */
  lemma InstallsExactly(history: seq<Grant>, g: Grant, signed: set<Grant>)
    requires ChainOk(history)
    ensures (exists i :: 0 <= i < |history| && history[i].commandId == g.commandId) ==>
              (Install(history, g, signed).Ok? <==> g in history && g in signed)
              && (Install(history, g, signed).Ok? ==> Install(history, g, signed).value == history)
    ensures (forall i :: 0 <= i < |history| ==> history[i].commandId != g.commandId) ==>
              (Install(history, g, signed).Ok? <==>
                 && g in signed && 1 <= g.epoch <= MAX_EPOCH && 0 <= g.expiresAt <= MAX_MS && 1 <= g.window <= MAX_WINDOW_MS
                 && g.seqNo == |history| + 1 <= MAX_SAFE
                 && (if |history| == 0 then g.prev == None
                     else g.prev == Some(LeaseDigest(history[|history| - 1])) && history[|history| - 1].epoch <= g.epoch)
                 && forall i :: 0 <= i < |history| && history[i].epoch == g.epoch ==> Constrains(history[i], g))
              && (Install(history, g, signed).Ok? ==> Install(history, g, signed).value == history + [g])
  {
    hide MaxExpiry, FirstOfEpoch, ByCommand;
    if ByCommand(history, g.commandId).Some? {
      KnownCommand(history, g, signed);
    } else if g in signed {
      AcceptedExactlyWhenLawful(history, g, signed);
      LawfulInFull(history, g);
      hide ChainOk, Constrains;
    }
  }

  lemma KnownCommand(history: seq<Grant>, g: Grant, signed: set<Grant>)
    requires ChainOk(history) && ByCommand(history, g.commandId).Some?
    ensures exists i :: 0 <= i < |history| && history[i].commandId == g.commandId
    ensures Install(history, g, signed).Ok? <==> g in history && g in signed
    ensures Install(history, g, signed).Ok? ==> Install(history, g, signed).value == history
  {
    hide MaxExpiry, FirstOfEpoch, ByCommand;
    var known := ByCommand(history, g.commandId).value;
    var i :| 0 <= i < |history| && history[i] == known;
    if g in history && g in signed { ReinstallIsANoOp(history, g, signed); }
  }

  lemma LawfulInFull(history: seq<Grant>, g: Grant)
    requires ChainOk(history) && forall i :: 0 <= i < |history| ==> history[i].commandId != g.commandId
    ensures ChainOk(history + [g]) <==>
              && 1 <= g.epoch <= MAX_EPOCH && 0 <= g.expiresAt <= MAX_MS && 1 <= g.window <= MAX_WINDOW_MS
              && g.seqNo == |history| + 1 <= MAX_SAFE
              && (if |history| == 0 then g.prev == None
                  else g.prev == Some(LeaseDigest(history[|history| - 1])) && history[|history| - 1].epoch <= g.epoch)
              && forall i :: 0 <= i < |history| && history[i].epoch == g.epoch ==> Constrains(history[i], g)
  {
    var h, n := history + [g], |history|;
    assert forall i :: 0 <= i < n ==> h[i] == history[i];
    if ChainOk(h) {
      assert LinkedAt(h, n);
      forall i | 0 <= i < n && history[i].epoch == g.epoch ensures Constrains(history[i], g) { assert Follows(h[i], h[n]); }
      if n > 0 { assert Follows(h[n - 1], h[n]); }
    }
    if LinkedAt(h, n) && (n > 0 ==> history[n - 1].epoch <= g.epoch)
       && (forall i :: 0 <= i < n && history[i].epoch == g.epoch ==> Constrains(history[i], g)) {
      forall i | 0 <= i < n ensures Follows(history[i], g) {
        if i < n - 1 { assert Follows(history[i], history[n - 1]); }
      }
      ExtendChain(history, g);
    }
  }

  // ---- Runs ----

  /** The history after a series of attempts; a refused grant changes nothing. */
  function InstallAll(history: seq<Grant>, grants: seq<Grant>, signed: set<Grant>): seq<Grant> {
    if |grants| == 0 then history
    else
      var before := InstallAll(history, grants[..|grants| - 1], signed);
      match Install(before, grants[|grants| - 1], signed)
      case Err(_) => before
      case Ok(after) => after
  }

  lemma InstallKeepsChain(history: seq<Grant>, g: Grant, signed: set<Grant>)
    requires ChainOk(history) && Install(history, g, signed).Ok?
    ensures ChainOk(Install(history, g, signed).value)
    ensures g in Install(history, g, signed).value
    ensures Install(history, g, signed).value == history || Install(history, g, signed).value == history + [g]
  {
    if ByCommand(history, g.commandId).None? { AcceptedExactlyWhenLawful(history, g, signed); }
  }

  lemma {:induction false} EveryHistoryIsLawful(grants: seq<Grant>, signed: set<Grant>)
    ensures ChainOk(InstallAll([], grants, signed))
  {
    if |grants| > 0 {
      EveryHistoryIsLawful(grants[..|grants| - 1], signed);
      var before := InstallAll([], grants[..|grants| - 1], signed);
      if Install(before, grants[|grants| - 1], signed).Ok? { InstallKeepsChain(before, grants[|grants| - 1], signed); }
    }
  }

  /** The expiry of a revoking grant bounds that of every active grant of its epoch, and all of those precede it. */
  lemma RevocationBoundsTheEpoch(history: seq<Grant>, i: nat, r: nat)
    requires ChainOk(history) && i < |history| && r < |history|
    requires history[i].epoch == history[r].epoch && history[i].status == Active && history[r].status == Revoked
    ensures i < r && history[i].expiresAt <= history[r].expiresAt && SameTerm(history[i], history[r])
  {
    assert i < r ==> Follows(history[i], history[r]);
  }

  /** Re-installing a command that was installed changes nothing, at any later time. */
  lemma ReinstallIsANoOp(history: seq<Grant>, g: Grant, signed: set<Grant>)
    requires ChainOk(history) && g in history && g in signed
    ensures Install(history, g, signed) == Ok(history)
  {
    var i :| 0 <= i < |history| && history[i] == g;
    assert LinkedAt(history, i);
    var known := ByCommand(history, g.commandId).value;
    var k :| 0 <= k < |history| && history[k] == known;
    assert k == i || Follows(history[k], history[i]) || Follows(history[i], history[k]);
  }

  function Signed(guard: seq<Grant>): set<Grant> {
    set g | g in guard
  }

  lemma PrefixGrows(guard: seq<Grant>, history: seq<Grant>, g: Grant)
    requires ChainOk(guard) && history <= guard && Install(history, g, Signed(guard)).Ok?
    ensures Install(history, g, Signed(guard)).value <= guard
  {
    hide MaxExpiry, FirstOfEpoch, ByCommand;
    var i :| 0 <= i < |guard| && guard[i] == g;
    assert LinkedAt(guard, i);
    if |history| > 0 { assert LinkedAt(guard, |history| - 1); assert guard[|history| - 1] == history[|history| - 1]; }
    if Install(history, g, Signed(guard)).value != history {
      assert i == |history|;
      assert guard[..|history| + 1] == history + [g];
    }
  }

  /** A database fed from the guard's one chain, in whatever order and with whatever losses and repeats, holds a prefix of it. */
  lemma {:induction false} DatabasesHoldPrefixes(guard: seq<Grant>, feed: seq<Grant>)
    requires ChainOk(guard)
    ensures InstallAll([], feed, Signed(guard)) <= guard
  {
    hide ChainOk, Install;
    if |feed| > 0 {
      DatabasesHoldPrefixes(guard, feed[..|feed| - 1]);
      var before := InstallAll([], feed[..|feed| - 1], Signed(guard));
      if Install(before, feed[|feed| - 1], Signed(guard)).Ok? { PrefixGrows(guard, before, feed[|feed| - 1]); }
    }
  }

  // ---- The transaction, run on the two lease tables ----

  class LeaseTables {
    /** bpc_ha.source_lease: the head row. */
    var head: Option<Grant>
    /** bpc_ha.source_lease_history in grant_seq order. */
    var history: seq<Grant>

    ghost predicate Valid()
      reads this
    {
      ChainOk(history) && head == Head(history)
    }

    constructor ()
      ensures Valid() && history == []
    {
      head, history := None, [];
    }

    method InstallSourceLeaseGrant(g: Grant, signed: set<Grant>) returns (error: Option<LeaseError>)
      requires Valid()
      modifies this
      ensures Valid()
      ensures match Install(old(history), g, signed)
              case Err(e) => error == Some(e) && history == old(history)
              case Ok(h) => error == None && history == h
    {
      hide MaxExpiry, FirstOfEpoch, ByCommand, ChainOk;
      if Install(history, g, signed).Ok? { InstallKeepsChain(history, g, signed); }
      if !WellFormed(g) { return Some(Malformed); }
      if g !in signed { return Some(Unsigned); }
      var byCommand := ByCommand(history, g.commandId);
      if byCommand.Some? {
        if byCommand.value != g { return Some(CommandReused); }
        return None;
      }
      var lastSeq := if head.Some? then head.value.seqNo else 0;
      if g.seqNo != lastSeq + 1 || g.prev != DigestOf(head) { return Some(NotNext); }
      if head.Some? && g.epoch < head.value.epoch { return Some(EpochRegression); }
      var first := FirstOfEpoch(history, g.epoch);
      if first.Some? && (first.value.holder != g.holder || first.value.leaseId != g.leaseId || first.value.window != g.window) {
        return Some(Pivot);
      }
      var revoked := RevokedIn(history, g.epoch);
      if revoked && g.status == Active { return Some(Reactivated); }
      var priorMax := MaxExpiry(history, g.epoch);
      if priorMax.Some? && g.expiresAt < priorMax.value { return Some(ExpiryDecreased); }
      history := history + [g];
      head := Some(g);
      return None;
    }
  }
}
