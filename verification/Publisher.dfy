/**
 * PgDurablePublisher.drainOnce of packages/server/src/ha-outbox-pg.ts: the loop that delivers rows lowest
 * first and acts on the receiver's signed decision. What another publisher can do meanwhile is here only
 * the theft of an expired lease; arbitrary interleavings are the subject of module Replication.
 */
module Publisher {
  import opened Wrappers
  import opened PairReplica
  import opened Outbox

  datatype Reply =
    | TransportTerminal
    | TransportFailure
    | Answer(receipt: Receipt, verified: bool)

  /** One delivery: what comes back, and who took the expired lease in the meantime, if anyone. */
  datatype Delivery = Delivery(reply: Reply, thief: Option<nat>)

  datatype DrainResult = DrainResult(published: nat, acked: nat, quarantined: nat, retriable: bool)

  /** What one round of the drain did. */
  datatype Round = Acked | Idle | Transient | Quarantined(answered: bool) | Failed(error: DrainError)

  datatype DrainError = Storage(error: Error) | Transport | Unverified | Unbound | Corrupt

  /** The receiver durably owns the record: an authentic receipt, bound to it, with an acknowledging decision. */
  predicate Acknowledges(d: Delivery, r: Record) {
    d.reply.Answer? && d.reply.verified && BoundTo(d.reply.receipt, r) && AckDecision(d.reply.receipt.decision)
  }

  /** The receiver will never take the record. */
  predicate RefusesForGood(d: Delivery, r: Record) {
    || d.reply.TransportTerminal?
    || (&& d.reply.Answer? && d.reply.verified && BoundTo(d.reply.receipt, r)
        && !AckDecision(d.reply.receipt.decision) && !TransientDecision(d.reply.receipt.decision))
  }

  /** An authentic verdict that the record may be accepted later. */
  predicate Postpones(d: Delivery, r: Record) {
    d.reply.Answer? && d.reply.verified && BoundTo(d.reply.receipt, r) && TransientDecision(d.reply.receipt.decision)
  }

  /** A sound stored row, delivered under the drain's own lease, that comes back with a verdict. */
  predicate Faultless(d: Delivery, token: nat, r: Record) {
    && Sanitized(r.mutation) && Genuine(r)
    && (d.thief.Some? ==> d.thief.value == token)
    && (d.reply.TransportTerminal? || (d.reply.Answer? && d.reply.verified && BoundTo(d.reply.receipt, r)))
  }

  /** The drain reached a row and either had no more deliveries or met a fault with it. */
  predicate Faulted(s0: Source, deliveries: seq<Delivery>, acked: nat, token: nat) {
    var n := FirstUnacked(s0.rows) + acked;
    n < |s0.rows| && (acked >= |deliveries| || !Faultless(deliveries[acked], token, s0.rows[n].record))
  }

  /** The drain reached a row whose delivery came back with a transient verdict. */
  predicate Postponed(s0: Source, deliveries: seq<Delivery>, acked: nat) {
    var n := FirstUnacked(s0.rows) + acked;
    n < |s0.rows| && acked < |deliveries| && Postpones(deliveries[acked], s0.rows[n].record)
  }

  predicate Answered(deliveries: seq<Delivery>, acked: nat) {
    acked < |deliveries| && deliveries[acked].reply.Answer?
  }

  /** Rows are stored in sequence order, all of the outbox's one epoch. */
  predicate InOrder(rows: seq<OutboxRow>, epoch: string) {
    forall i :: 0 <= i < |rows| ==> rows[i].record.sequence == i + 1 && rows[i].record.epoch == epoch
  }

  ghost predicate SourceShape(s: Source) {
    MarksOk(s.rows, s.quarantine.Keys) && InOrder(s.rows, s.epoch)
  }

  /** How far a drain got: the acknowledged prefix grew row by row, each row by its own delivery. */
  ghost predicate Progress(rows: seq<OutboxRow>, rows': seq<OutboxRow>, deliveries: seq<Delivery>, acked: nat) {
    var k := FirstUnacked(rows);
    && k + acked <= |rows| == |rows'|
    && acked <= |deliveries|
    && FirstUnacked(rows') == k + acked
    && (forall i :: k <= i < k + acked ==>
          !rows[i].quarantined && Acknowledges(deliveries[i - k], rows[i].record) && rows'[i] == rows[i].(acked := true))
    && (forall i :: 0 <= i < |rows| && !(k <= i <= k + acked) ==> rows'[i] == rows[i])
    && (k + acked < |rows| ==>
          || rows'[k + acked] == rows[k + acked]
          || (&& !rows[k + acked].quarantined && rows'[k + acked] == rows[k + acked].(quarantined := true)
              && acked < |deliveries| && RefusesForGood(deliveries[acked], rows[k + acked].record)))
  }

  /** Only marks and the lease differ from the state the drain began in. */
  predicate OnlyMarks(s0: Source, s: Source) {
    s == s0.(rows := s.rows, quarantine := s.quarantine, leaseToken := s.leaseToken, leaseUntil := s.leaseUntil)
  }

  /** Between two deliveries nothing is parked and the next row is as it was. */
  ghost predicate Draining(s0: Source, s: Source, deliveries: seq<Delivery>, acked: nat) {
    && SourceShape(s) && OnlyMarks(s0, s) && s.quarantine == s0.quarantine
    && Progress(s0.rows, s.rows, deliveries, acked)
    && (var n := FirstUnacked(s0.rows) + acked; n < |s0.rows| ==> s.rows[n] == s0.rows[n])
  }

  /** What every end of a drain guarantees. */
  ghost predicate Drained(s0: Source, s: Source, deliveries: seq<Delivery>, acked: nat) {
    && SourceShape(s) && OnlyMarks(s0, s)
    && Progress(s0.rows, s.rows, deliveries, acked)
  }

  /** Nothing is left to deliver: every row is acknowledged or the next one is quarantined. */
  predicate Halted(s0: Source, s: Source, acked: nat) {
    var n := FirstUnacked(s0.rows) + acked;
    n >= |s.rows| || s.rows[n].quarantined
  }

  lemma DrainStarts(s: Source, deliveries: seq<Delivery>)
    requires SourceShape(s)
    ensures Draining(s, s, deliveries, 0)
  {
  }

  lemma DrainBegins(s: Source, token: nat, now: int, leaseMs: nat, deliveries: seq<Delivery>)
    requires SourceShape(s)
    ensures Draining(s, Acquire(s, token, now, leaseMs), deliveries, 0)
  {
  }

  lemma LeaseIsImmaterial(s0: Source, s: Source, deliveries: seq<Delivery>, acked: nat, lease: Option<nat>)
    requires Draining(s0, s, deliveries, acked)
    ensures Draining(s0, s.(leaseToken := lease), deliveries, acked)
  {
  }

  lemma DrainEnds(s0: Source, s: Source, deliveries: seq<Delivery>, acked: nat, token: nat)
    requires Draining(s0, s, deliveries, acked) || Drained(s0, s, deliveries, acked)
    ensures Drained(s0, Release(s, token), deliveries, acked) && Release(s, token).leaseToken != Some(token)
    ensures Halted(s0, s, acked) ==> Halted(s0, Release(s, token), acked)
    ensures Release(s, token).quarantine == s.quarantine
    ensures s.leaseToken != Some(token) ==> Release(s, token) == s
    ensures Draining(s0, s, deliveries, acked) ==> s.quarantine == s0.quarantine
  {
  }

  lemma DrainReads(s0: Source, s: Source, deliveries: seq<Delivery>, acked: nat, token: nat)
    requires Draining(s0, s, deliveries, acked)
    requires NextDeliverable(s, token).Ok?
    ensures var next, n := NextDeliverable(s, token).value, FirstUnacked(s0.rows) + acked;
            if next.Some? then n < |s0.rows| && next.value == s0.rows[n].record && !s0.rows[n].quarantined
            else Halted(s0, s, acked)
    ensures acked <= |deliveries|
  {
  }

  lemma LeaseReads(s: Source, token: nat)
    ensures s.leaseToken == Some(token) ==> NextDeliverable(s, token).Ok?
  {
  }

  lemma AckKeepsLease(s: Source, token: nat, r: Record)
    ensures Acknowledge(s, token, r).Ok? ==> Acknowledge(s, token, r).value.leaseToken == Some(token)
  {
  }

  /** Under the drain's own lease, neither mark on the next row can fail. */
  lemma MarksSucceed(s0: Source, s: Source, deliveries: seq<Delivery>, acked: nat, token: nat, decision: Decision)
    requires Draining(s0, s, deliveries, acked) && s.leaseToken == Some(token)
    requires FirstUnacked(s0.rows) + acked < |s0.rows| && !s0.rows[FirstUnacked(s0.rows) + acked].quarantined
    ensures var r := s0.rows[FirstUnacked(s0.rows) + acked].record;
            Acknowledge(s, token, r).Ok? && Quarantine(s, token, r, decision).Ok?
  {
    hide Acknowledges, RefusesForGood, FirstUnacked;
    var k := FirstUnacked(s0.rows) + acked;
    InOrderAt(s.rows, s.epoch, k);
    assert s.quarantine.Keys == {};
  }

  lemma ProgressAcks(rows: seq<OutboxRow>, rows': seq<OutboxRow>, deliveries: seq<Delivery>, acked: nat)
    requires Progress(rows, rows', deliveries, acked) && acked < |deliveries|
    requires var n := FirstUnacked(rows) + acked;
             n < |rows| && rows'[n] == rows[n] && !rows[n].quarantined && Acknowledges(deliveries[acked], rows[n].record)
    requires var n := FirstUnacked(rows) + acked; FirstUnacked(rows'[n := rows[n].(acked := true)]) == n + 1
    ensures var n := FirstUnacked(rows) + acked; Progress(rows, rows'[n := rows[n].(acked := true)], deliveries, acked + 1)
  {
    hide Acknowledges, RefusesForGood, FirstUnacked;
  }

  lemma InOrderAt(rows: seq<OutboxRow>, epoch: string, i: nat)
    requires InOrder(rows, epoch) && i < |rows|
    ensures rows[i].record.sequence == i + 1 && rows[i].record.epoch == epoch
  {
  }

  lemma InOrderMarked(rows: seq<OutboxRow>, epoch: string, i: nat, row: OutboxRow)
    requires InOrder(rows, epoch) && i < |rows| && row.record == rows[i].record
    ensures InOrder(rows[i := row], epoch)
  {
  }

  lemma DrainAcks(s0: Source, s: Source, deliveries: seq<Delivery>, acked: nat, token: nat)
    requires Draining(s0, s, deliveries, acked) && acked < |deliveries|
    requires FirstUnacked(s0.rows) + acked < |s0.rows|
    requires var row := s0.rows[FirstUnacked(s0.rows) + acked];
             !row.quarantined && Acknowledges(deliveries[acked], row.record) && Acknowledge(s, token, row.record).Ok?
    ensures Draining(s0, Acknowledge(s, token, s0.rows[FirstUnacked(s0.rows) + acked].record).value, deliveries, acked + 1)
  {
    hide Acknowledges, RefusesForGood, MarksOk, FirstUnacked, PendingCount, InOrder;
    var k := FirstUnacked(s0.rows) + acked;
    assert Progress(s0.rows, s.rows, deliveries, acked);
    hide Progress;
    assert s0.rows[k].record.sequence == k + 1 by { InOrderAt(s.rows, s.epoch, k); }
    MarkFirstAcked(s.rows, s.quarantine.Keys);
    InOrderMarked(s.rows, s.epoch, k, s.rows[k].(acked := true));
    ProgressAcks(s0.rows, s.rows, deliveries, acked);
  }

  lemma ProgressParks(rows: seq<OutboxRow>, rows': seq<OutboxRow>, deliveries: seq<Delivery>, acked: nat)
    requires Progress(rows, rows', deliveries, acked) && acked < |deliveries|
    requires var n := FirstUnacked(rows) + acked;
             n < |rows| && rows'[n] == rows[n] && !rows[n].quarantined && RefusesForGood(deliveries[acked], rows[n].record)
    requires var n := FirstUnacked(rows) + acked; FirstUnacked(rows'[n := rows[n].(quarantined := true)]) == n
    ensures var n := FirstUnacked(rows) + acked; Progress(rows, rows'[n := rows[n].(quarantined := true)], deliveries, acked)
  {
    hide Acknowledges, RefusesForGood, FirstUnacked;
  }

  lemma ParkedKeys(s: Source, token: nat, r: Record, decision: Decision)
    requires MarksOk(s.rows, s.quarantine.Keys) && Quarantine(s, token, r, decision).Ok?
    requires r.sequence == FirstUnacked(s.rows) + 1
    ensures Quarantine(s, token, r, decision).value.quarantine.Keys == {r.sequence}
    ensures s.quarantine.Keys == {}
  {
    assert s.quarantine.Keys == {};
  }

  lemma DrainParks(s0: Source, s: Source, deliveries: seq<Delivery>, acked: nat, token: nat, decision: Decision)
    requires Draining(s0, s, deliveries, acked) && acked < |deliveries|
    requires FirstUnacked(s0.rows) + acked < |s0.rows|
    requires var row := s0.rows[FirstUnacked(s0.rows) + acked];
             !row.quarantined && RefusesForGood(deliveries[acked], row.record)
             && Quarantine(s, token, row.record, decision).Ok?
    ensures var s' := Quarantine(s, token, s0.rows[FirstUnacked(s0.rows) + acked].record, decision).value;
            Drained(s0, s', deliveries, acked) && s'.quarantine != s0.quarantine
            && Halted(s0, s', acked)
  {
    hide Acknowledges, RefusesForGood, MarksOk, FirstUnacked, PendingCount, InOrder;
    var k := FirstUnacked(s0.rows) + acked;
    assert Progress(s0.rows, s.rows, deliveries, acked);
    hide Progress;
    InOrderAt(s.rows, s.epoch, k);
    InOrderMarked(s.rows, s.epoch, k, s.rows[k].(quarantined := true));
    var s' := Quarantine(s, token, s0.rows[k].record, decision).value;
    MarkFirstQuarantined(s.rows, s.quarantine.Keys);
    ParkedKeys(s, token, s0.rows[k].record, decision);
    ProgressParks(s0.rows, s.rows, deliveries, acked);
    assert k + 1 in s'.quarantine.Keys;
  }

  class PgDurablePublisher {
    const db: PgSourceDatabase
    const leaseMs: nat

    constructor (db: PgSourceDatabase, leaseMs: nat)
      ensures this.db == db && this.leaseMs == leaseMs
    {
      this.db := db;
      this.leaseMs := leaseMs;
    }

    /** quarantineRecord on the row just delivered. */
    method Park(token: nat, r: Record, decision: Decision, answered: bool,
                deliveries: seq<Delivery>, acked: nat, ghost s0: Source) returns (round: Round)
      requires Draining(s0, db.View(), deliveries, acked) && acked < |deliveries|
      requires var n := FirstUnacked(s0.rows) + acked;
               n < |s0.rows| && r == s0.rows[n].record && !s0.rows[n].quarantined && RefusesForGood(deliveries[acked], r)
      modifies db
      ensures match Quarantine(old(db.View()), token, r, decision)
              case Err(e) => round == Failed(Storage(e)) && db.View() == old(db.View())
              case Ok(s) => round == Quarantined(answered) && db.View() == s
                            && Drained(s0, s, deliveries, acked) && s.quarantine != s0.quarantine
                            && Halted(s0, s, acked)
      ensures old(db.leaseToken) == Some(token) ==> round.Quarantined?
    {
      hide Draining, Drained, Halted, Quarantine;
      ghost var before := db.View();
      if db.leaseToken == Some(token) { MarksSucceed(s0, before, deliveries, acked, token, decision); }
      var e := db.QuarantineRow(token, r, decision);
      if e.Some? { return Failed(Storage(e.value)); }
      DrainParks(s0, before, deliveries, acked, token, decision);
      return Quarantined(answered);
    }

    /** One round of the drain: read the lowest row, deliver it, act on the answer. */
    method DeliverNext(token: nat, deliveries: seq<Delivery>, acked: nat, ghost s0: Source)
      returns (round: Round)
      requires Draining(s0, db.View(), deliveries, acked)
      modifies db
      ensures round.Acked? ==> acked < |deliveries| && Draining(s0, db.View(), deliveries, acked + 1)
      ensures round.Acked? ==> FirstUnacked(s0.rows) + acked < |s0.rows|
      ensures round.Quarantined? ==> Drained(s0, db.View(), deliveries, acked) && db.quarantine != s0.quarantine
      ensures !round.Acked? && !round.Quarantined? ==> Draining(s0, db.View(), deliveries, acked)
      ensures round.Idle? || round.Quarantined? ==> Halted(s0, db.View(), acked)
      ensures round.Acked? ==> db.leaseToken == Some(token)
      ensures round.Transient? ==> Postponed(s0, deliveries, acked)
      ensures round.Quarantined? ==> round.answered == Answered(deliveries, acked)
      ensures round.Failed? && old(db.leaseToken) == Some(token) ==> Faulted(s0, deliveries, acked, token)
    {
      hide Draining, Drained, BoundTo, Halted, FirstUnacked, Acknowledge, Quarantine, NextDeliverable;
      LeaseReads(db.View(), token);
      var next := db.NextDeliverableInTx(token);
      if next.Err? { return Failed(Storage(next.error)); }
      DrainReads(s0, db.View(), deliveries, acked, token);
      if next.value.None? { return Idle; }
      var r := next.value.value;
      if !Sanitized(r.mutation) || !Genuine(r) { return Failed(Corrupt); }
      if acked == |deliveries| { return Failed(Transport); }
      var d := deliveries[acked];
      if d.thief.Some? && d.thief.value != token {
        LeaseIsImmaterial(s0, db.View(), deliveries, acked, d.thief);
        db.leaseToken := d.thief;
      }
      if d.reply.TransportFailure? { return Failed(Transport); }
      if d.reply.TransportTerminal? {
        round := Park(token, r, RejectTransportTerminal, false, deliveries, acked, s0);
        return;
      }
      if !d.reply.verified { return Failed(Unverified); }
      if !BoundTo(d.reply.receipt, r) { return Failed(Unbound); }
      if AckDecision(d.reply.receipt.decision) {
        ghost var before := db.View();
        if db.leaseToken == Some(token) { MarksSucceed(s0, before, deliveries, acked, token, Applied); }
        var e := db.AckRow(token, r);
        if e.Some? { return Failed(Storage(e.value)); }
        DrainAcks(s0, before, deliveries, acked, token);
        AckKeepsLease(before, token, r);
        return Acked;
      }
      if TransientDecision(d.reply.receipt.decision) { return Transient; }
      round := Park(token, r, d.reply.receipt.decision, true, deliveries, acked, s0);
    }

    /**
     * However the drain ends, the acknowledged prefix has grown row by row, each row by its own authentic
     * bound acknowledgement; at most the next row was quarantined, by a terminal verdict on it; and the
     * drain's lease is gone. It throws only at a row that is corrupt, or whose delivery failed, lost the lease
     * or came back without a verifiable receipt.
     */
    method DrainOnce(token: nat, now: int, deliveries: seq<Delivery>)
      returns (result: Result<DrainResult, DrainError>, ghost acked: nat)
      requires SourceShape(db.View()) && db.leaseToken != Some(token)
      modifies db
      ensures !LeaseFree(old(db.View()), now) ==>
                db.View() == old(db.View()) && result == Ok(DrainResult(0, 0, 0, true))
      ensures Drained(old(db.View()), db.View(), deliveries, acked) && db.leaseToken != Some(token)
      ensures LeaseFree(old(db.View()), now) && result.Ok? ==>
                && result.value.acked == acked
                && result.value.quarantined == (if db.quarantine == old(db.quarantine) then 0 else 1)
                && result.value.published ==
                     acked + (if result.value.retriable || (result.value.quarantined == 1 && Answered(deliveries, acked)) then 1 else 0)
                && (result.value.retriable ==> Postponed(old(db.View()), deliveries, acked))
                && (!result.value.retriable ==> Halted(old(db.View()), db.View(), acked))
      ensures result.Err? ==> Faulted(old(db.View()), deliveries, acked, token)
    {
      hide Draining, Drained, Halted, Release, Faulted, Postponed, Answered;
      ghost var s0 := db.View();
      acked := 0;
      DrainStarts(s0, deliveries);
      var held := db.AcquireLease(token, now, leaseMs);
      if !held { DrainEnds(s0, s0, deliveries, 0, token); return Ok(DrainResult(0, 0, 0, true)), 0; }
      DrainBegins(s0, token, now, leaseMs, deliveries);
      var published, count, quarantined, retriable := 0, 0, 0, false;
      var failure: Option<DrainError> := None;
      while true
        invariant db.leaseToken == Some(token) && published == count
        invariant count == acked && quarantined == 0 && !retriable && failure.None?
        invariant Draining(s0, db.View(), deliveries, acked)
        decreases |s0.rows| - acked
      {
        var round := DeliverNext(token, deliveries, count, s0);
        match round {
          case Acked => published, count, acked := published + 1, count + 1, acked + 1;
          case Idle => break;
          case Transient => published, retriable := published + 1, true; break;
          case Quarantined(answered) =>
            published, quarantined := if answered then published + 1 else published, 1;
            break;
          case Failed(e) => failure := Some(e); break;
        }
      }
      ghost var last := db.View();
      DrainEnds(s0, last, deliveries, acked, token);
      db.ReleaseLease(token);
      result := if failure.Some? then Err(failure.value) else Ok(DrainResult(published, count, quarantined, retriable));
    }
  }
}
