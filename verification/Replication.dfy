/**
 * One source, one receiver and any number of competing publishers, over a channel that loses, duplicates,
 * reorders and corrupts deliveries. Publishers crash at any point and leases expire under them. Every
 * transaction, send and arrival is one step, so a run is a sequence of steps.
 */
module Replication {
  import opened Wrappers
  import opened PairReplica
  import opened Outbox
  import opened PairStore

  /** Where a drain is: about to read its next row, or awaiting the receipt for the row it read. */
  datatype Publisher = Ready | Delivering(record: Record)

  datatype System = System(
    authority: Authority,
    receiver: Receiver,
    publishers: map<nat, Publisher>,
    usedTokens: set<nat>,
    /** Digests of every record ever put on the authenticated channel. */
    sent: set<Digest>,
    /** Every receipt the receiver ever signed. */
    receipts: set<Receipt>,
    /** History: the digest of each record the applier ran, in order. */
    applications: seq<Digest>)

  datatype Step =
    | SourceCommit(op: Operation, scope: TxScope)
    | AdvanceSourceFence
    | AdvanceReceiverFence
    | AcquireLease(token: nat, now: int, leaseMs: nat)
    | ReadNext(token: nat)
    | Send(token: nat)
    /** A publisher of another source epoch, or of another stream, puts its own record on the channel. */
    | SendElsewhere(record: Record)
    | Deliver(record: Record)
    | ReceiptArrives(token: nat, receipt: Receipt)
    | TransportTerminal(token: nat)
    | Stop(token: nat, released: bool)

  function WithSource(sys: System, s: Source): System {
    sys.(authority := sys.authority.(source := s))
  }

  /** The drain ends: finished, threw or crashed; only an orderly end releases the lease. */
  function EndDrain(sys: System, token: nat, released: bool): System {
    var s := sys.authority.source;
    WithSource(sys, if released then Release(s, token) else s).(publishers := sys.publishers - {token})
  }

  function DeliverStep(sys: System, r: Record): System {
    if r.digest !in sys.sent then sys else
    match VerifyAndApply(sys.receiver, r)
    case Thrown(_) => sys
    case Decided(d, v) =>
      sys.(receiver := v,
           receipts := sys.receipts + {Receipt(r.stream, r.epoch, r.sequence, r.digest, d)},
           applications := if d == Applied then sys.applications + [r.digest] else sys.applications)
  }

  function QuarantineStep(sys: System, token: nat, r: Record, d: Decision): System {
    match Quarantine(sys.authority.source, token, r, d)
    case Err(_) => EndDrain(sys, token, true)
    case Ok(s) => EndDrain(WithSource(sys, s), token, true)
  }

  /** drainOnce from the arrival of a verified receipt to its next decision. */
  function ReceiptStep(sys: System, token: nat, receipt: Receipt): System {
    if !(token in sys.publishers && sys.publishers[token].Delivering? && receipt in sys.receipts) then sys else
    var r := sys.publishers[token].record;
    if !BoundTo(receipt, r) then EndDrain(sys, token, true)
    else if AckDecision(receipt.decision) then
      (match Acknowledge(sys.authority.source, token, r)
       case Err(_) => EndDrain(sys, token, true)
       case Ok(s) => WithSource(sys, s).(publishers := sys.publishers[token := Ready]))
    else if TransientDecision(receipt.decision) then EndDrain(sys, token, true)
    else QuarantineStep(sys, token, r, receipt.decision)
  }

  function ReadStep(sys: System, token: nat): System {
    if !(token in sys.publishers && sys.publishers[token].Ready?) then sys else
    match NextDeliverable(sys.authority.source, token)
    case Err(_) => EndDrain(sys, token, true)
    case Ok(None) => EndDrain(sys, token, true)
    case Ok(Some(r)) => sys.(publishers := sys.publishers[token := Delivering(r)])
  }

  function SendStep(sys: System, token: nat): System {
    if token in sys.publishers && sys.publishers[token].Delivering?
    then sys.(sent := sys.sent + {sys.publishers[token].record.digest})
    else sys
  }

  predicate Elsewhere(stream: string, epoch: string, r: Record) {
    r.stream != stream || r.epoch != epoch
  }

  function AcquireStep(sys: System, token: nat, now: int, leaseMs: nat): System {
    if token in sys.usedTokens then sys
    else if LeaseFree(sys.authority.source, now) then
      WithSource(sys, Acquire(sys.authority.source, token, now, leaseMs)).(
        publishers := sys.publishers[token := Ready],
        usedTokens := sys.usedTokens + {token})
    else sys.(usedTokens := sys.usedTokens + {token})
  }

  function Next(sys: System, step: Step): System {
    match step
    case SourceCommit(op, scope) => sys.(authority := Commit(sys.authority, op, scope).0)
    case AdvanceSourceFence =>
      WithSource(sys, sys.authority.source.(fence := Some(AdvanceFence(sys.authority.source.fence))))
    case AdvanceReceiverFence => sys.(receiver := sys.receiver.(fence := Some(AdvanceFence(sys.receiver.fence))))
    case AcquireLease(token, now, leaseMs) => AcquireStep(sys, token, now, leaseMs)
    case ReadNext(token) => ReadStep(sys, token)
    case Send(token) => SendStep(sys, token)
    case SendElsewhere(r) =>
      if Genuine(r) && Elsewhere(sys.authority.source.stream, sys.authority.source.epoch, r) then sys.(sent := sys.sent + {r.digest}) else sys
    case Deliver(r) => DeliverStep(sys, r)
    case ReceiptArrives(token, receipt) => ReceiptStep(sys, token, receipt)
    case TransportTerminal(token) =>
      if token in sys.publishers && sys.publishers[token].Delivering?
      then QuarantineStep(sys, token, sys.publishers[token].record, RejectTransportTerminal)
      else sys
    case Stop(token, released) => if token in sys.publishers then EndDrain(sys, token, released) else sys
  }

  function Run(sys: System, steps: seq<Step>): System {
    if |steps| == 0 then sys else Next(Run(sys, steps[..|steps| - 1]), steps[|steps| - 1])
  }

  function Initial(stream: string, epoch: string, sourceFence: nat, receiverFence: nat): System {
    System(NewAuthority(stream, epoch, sourceFence),
           Receiver(stream, epoch, 0, Some(receiverFence), map[], EmptyTables),
           map[], {}, {}, {}, [])
  }

  // ---- The invariant, one component at a time ----

  function Rows(sys: System): seq<OutboxRow> {
    sys.authority.source.rows
  }

  function Log(sys: System): seq<Record> {
    Records(sys.authority.source.rows)
  }

  /** The receiver has applied records 1..checkpoint, each once and in order, and nothing else. */
  ghost predicate ReceiverOk(v: Receiver, log: seq<Record>, applications: seq<Digest>) {
    && HistoryOk(v.applied, v.checkpoint, log, applications)
    && ReplayOk(v, log)
  }

  ghost predicate HistoryOk(applied: map<nat, Digest>, checkpoint: nat, log: seq<Record>, applications: seq<Digest>) {
    && checkpoint <= |log|
    && (forall n :: n in applied <==> 1 <= n <= checkpoint)
    && (forall n :: n in applied ==> applied[n] == log[n - 1].digest)
    && |applications| == checkpoint
    && (forall i :: 0 <= i < checkpoint ==> applications[i] == log[i].digest)
  }

  ghost predicate ReplayOk(v: Receiver, log: seq<Record>)
    requires v.checkpoint <= |log|
  {
    Replay(v.stream, EmptyTables, Mutations(log)[..v.checkpoint]) == Ok(v.tables)
  }

  /** What was sent of this stream and epoch is in the log. */
  ghost predicate SentOk(stream: string, epoch: string, sent: set<Digest>, log: seq<Record>) {
    forall d :: d in sent && d.stream == stream && d.epoch == epoch ==> 1 <= d.sequence <= |log| && log[d.sequence - 1].digest == d
  }

  ghost predicate ReceiptsOk(receipts: set<Receipt>, applied: map<nat, Digest>) {
    forall x :: x in receipts && AckDecision(x.decision) ==> x.sequence in applied && applied[x.sequence] == x.digest
  }

  predicate DeliveringRow(rows: seq<OutboxRow>, r: Record) {
    1 <= r.sequence <= |rows| && rows[r.sequence - 1].record == r
  }

  /** A drain that still holds the lease is delivering the first unacked row. */
  ghost predicate PublishersOk(rows: seq<OutboxRow>, lease: Option<nat>, publishers: map<nat, Publisher>, used: set<nat>) {
    && (lease.Some? ==> lease.value in used)
    && publishers.Keys <= used
    && (forall t :: t in publishers && publishers[t].Delivering? ==>
          DeliveringRow(rows, publishers[t].record)
          && (lease == Some(t) ==> IsNextRow(rows, publishers[t].record)))
  }

  predicate IsNextRow(rows: seq<OutboxRow>, r: Record) {
    var k := FirstUnacked(rows);
    k < |rows| && !rows[k].quarantined && r.sequence == k + 1
  }

  ghost predicate Inv(sys: System) {
    && LogIsState(sys.authority)
    && sys.receiver.stream == sys.authority.source.stream
    && ReceiverOk(sys.receiver, Log(sys), sys.applications)
    && sys.receiver.epoch == sys.authority.source.epoch
    && SentOk(sys.authority.source.stream, sys.authority.source.epoch, sys.sent, Log(sys))
    && ReceiptsOk(sys.receipts, sys.receiver.applied)
    && PublishersOk(Rows(sys), sys.authority.source.leaseToken, sys.publishers, sys.usedTokens)
    && FirstUnacked(Rows(sys)) <= sys.receiver.checkpoint
  }

  // ---- Every step keeps it ----

  lemma LongerLog(v: Receiver, stream: string, epoch: string, applications: seq<Digest>, sent: set<Digest>, log: seq<Record>, r: Record)
    requires ReceiverOk(v, log, applications) && SentOk(stream, epoch, sent, log)
    ensures ReceiverOk(v, log + [r], applications) && SentOk(stream, epoch, sent, log + [r])
  {
    assert Mutations(log + [r])[..v.checkpoint] == Mutations(log)[..v.checkpoint];
  }

  lemma OneRowMore(rows: seq<OutboxRow>, rows': seq<OutboxRow>)
    requires |rows'| == |rows| + 1 && rows'[..|rows|] == rows
    ensures Records(rows') == Records(rows) + [rows'[|rows|].record]
  {
    forall i | 0 <= i < |rows| ensures rows'[i] == rows[i] { assert rows'[..|rows|][i] == rows[i]; }
  }

  lemma ExtendedLogKeeps(sys: System, a: Authority, maxPending: nat)
    requires Inv(sys) && LogIsState(a) && ExtendsByOneRow(sys.authority.source, a.source, maxPending)
    ensures Inv(sys.(authority := a))
  {
    hide LogIsState;
    var rows, rows' := Rows(sys), a.source.rows;
    if a.source != sys.authority.source {
      OneRowMore(rows, rows');
      LongerLog(sys.receiver, a.source.stream, a.source.epoch, sys.applications, sys.sent, Log(sys), rows'[|rows|].record);
      LongerRows(rows, rows', a.source.leaseToken, sys.publishers, sys.usedTokens);
    }
  }

  lemma CommitKeeps(sys: System, op: Operation, scope: TxScope)
    requires Inv(sys)
    ensures Inv(Next(sys, SourceCommit(op, scope)))
  {
    hide LogIsState, Commit, ExtendsByOneRow;
    CommitKeepsLogIsState(sys.authority, op, scope);
    ExtendedLogKeeps(sys, Commit(sys.authority, op, scope).0, scope.maxPending);
  }

  lemma LongerRows(rows: seq<OutboxRow>, rows': seq<OutboxRow>, lease: Option<nat>, publishers: map<nat, Publisher>, used: set<nat>)
    requires PublishersOk(rows, lease, publishers, used)
    requires |rows| <= |rows'| && rows'[..|rows|] == rows && FirstUnacked(rows') == FirstUnacked(rows)
    ensures PublishersOk(rows', lease, publishers, used)
  {
    forall i | 0 <= i < |rows| ensures rows'[i] == rows[i] { assert rows'[..|rows|][i] == rows[i]; }
  }

  /** A step that keeps every record and touches only marks, lease and drains. */
  lemma SameLogKeeps(sys: System, s': Source, publishers: map<nat, Publisher>, used: set<nat>)
    requires Inv(sys)
    requires SourceOk(s') && Records(s'.rows) == Log(sys) && s'.stream == sys.authority.source.stream
    requires s'.epoch == sys.authority.source.epoch
    requires FirstUnacked(s'.rows) <= sys.receiver.checkpoint
    requires PublishersOk(s'.rows, s'.leaseToken, publishers, used)
    ensures Inv(WithSource(sys, s').(publishers := publishers, usedTokens := used))
  {
  }

  lemma EndDrainKeeps(sys: System, token: nat, released: bool)
    requires Inv(sys)
    ensures Inv(EndDrain(sys, token, released))
  {
    var s' := EndDrain(sys, token, released).authority.source;
    SameLogKeeps(sys, s', sys.publishers - {token}, sys.usedTokens);
  }

  lemma AcquireKeeps(sys: System, token: nat, now: int, leaseMs: nat)
    requires Inv(sys)
    ensures Inv(AcquireStep(sys, token, now, leaseMs))
  {
    if token !in sys.usedTokens && LeaseFree(sys.authority.source, now) {
      SameLogKeeps(sys, Acquire(sys.authority.source, token, now, leaseMs), sys.publishers[token := Ready],
                   sys.usedTokens + {token});
    }
  }

  lemma ReadKeeps(sys: System, token: nat)
    requires Inv(sys)
    ensures Inv(ReadStep(sys, token))
  {
    hide ReceiverOk, ReceiptsOk, SentOk, Replay, TablesOk, PendingCount;
    EndDrainKeeps(sys, token, true);
    var k := FirstUnacked(Rows(sys));
    if k < |Rows(sys)| {
      assert RecordOk(sys.authority.source.stream, sys.authority.source.epoch, Log(sys)[k], k + 1);
    }
  }

  lemma SentAdded(stream: string, epoch: string, log: seq<Record>, sent: set<Digest>, n: nat)
    requires RecordsOk(stream, epoch, log) && SentOk(stream, epoch, sent, log) && 1 <= n <= |log|
    ensures SentOk(stream, epoch, sent + {log[n - 1].digest}, log)
  {
    assert RecordOk(stream, epoch, log[n - 1], n);
  }

  lemma SentKeeps(sys: System, sent: set<Digest>)
    requires Inv(sys) && SentOk(sys.authority.source.stream, sys.authority.source.epoch, sent, Log(sys))
    ensures Inv(sys.(sent := sent))
  {
  }

  /** A drain delivers a record of the log. */
  lemma DeliveredIsLogged(sys: System, token: nat)
    requires Inv(sys) && token in sys.publishers && sys.publishers[token].Delivering?
    ensures var r := sys.publishers[token].record; 1 <= r.sequence <= |Log(sys)| && Log(sys)[r.sequence - 1] == r
    ensures RecordsOk(sys.authority.source.stream, sys.authority.source.epoch, Log(sys))
    ensures SentOk(sys.authority.source.stream, sys.authority.source.epoch, sys.sent, Log(sys))
  {
    hide ReceiverOk, ReceiptsOk, SentOk, RecordsOk, Replay, MarksOk, TablesOk, FirstUnacked;
    assert DeliveringRow(Rows(sys), sys.publishers[token].record);
  }

  lemma SendKeeps(sys: System, token: nat)
    requires Inv(sys)
    ensures Inv(SendStep(sys, token))
  {
    hide Inv, RecordsOk, SentOk, Records;
    if token in sys.publishers && sys.publishers[token].Delivering? {
      var r := sys.publishers[token].record;
      DeliveredIsLogged(sys, token);
      SentAdded(sys.authority.source.stream, sys.authority.source.epoch, Log(sys), sys.sent, r.sequence);
      SentKeeps(sys, sys.sent + {r.digest});
    }
  }

  lemma ElsewhereKeeps(sys: System, r: Record)
    requires Inv(sys)
    ensures Inv(Next(sys, SendElsewhere(r)))
  {
    hide ReceiverOk, ReceiptsOk, LogIsState, PublishersOk;
    var source := sys.authority.source;
    if Genuine(r) && Elsewhere(source.stream, source.epoch, r) {
      assert SentOk(source.stream, source.epoch, sys.sent + {r.digest}, Log(sys));
      SentKeeps(sys, sys.sent + {r.digest});
    }
  }

  /** An authentic digest whose fields match is the source's own record. */
  lemma GenuineIsLogged(stream: string, epoch: string, log: seq<Record>, sent: set<Digest>, r: Record)
    requires RecordsOk(stream, epoch, log) && SentOk(stream, epoch, sent, log) && r.digest in sent && Genuine(r)
    requires r.stream == stream && r.epoch == epoch
    ensures 1 <= r.sequence <= |log| && log[r.sequence - 1] == r
  {
    assert RecordOk(stream, epoch, log[r.sequence - 1], r.sequence);
  }

  lemma AppliedMeans(v: Receiver, r: Record)
    requires VerifyAndApply(v, r).Decided? && VerifyAndApply(v, r).decision == Applied
    ensures r.stream == v.stream && r.epoch == v.epoch && Genuine(r) && r.sequence == v.checkpoint + 1
    ensures ApplyMutation(v.stream, v.tables, r.mutation).Ok?
    ensures VerifyAndApply(v, r).receiver == Advanced(v, r, ApplyMutation(v.stream, v.tables, r.mutation).value)
  {
  }

  function Advanced(v: Receiver, r: Record, t: Tables): Receiver {
    v.(tables := t, applied := v.applied[r.sequence := r.digest], checkpoint := r.sequence)
  }

  lemma HistoryAdvances(applied: map<nat, Digest>, checkpoint: nat, log: seq<Record>, applications: seq<Digest>)
    requires HistoryOk(applied, checkpoint, log, applications) && checkpoint < |log|
    ensures HistoryOk(applied[checkpoint + 1 := log[checkpoint].digest], checkpoint + 1, log,
                      applications + [log[checkpoint].digest])
  {
  }

  lemma AdvancedOk(v: Receiver, log: seq<Record>, applications: seq<Digest>, r: Record, t: Tables)
    requires ReceiverOk(v, log, applications)
    requires r.sequence == v.checkpoint + 1 <= |log| && log[v.checkpoint] == r
    requires ApplyMutation(v.stream, v.tables, r.mutation) == Ok(t)
    ensures ReceiverOk(Advanced(v, r, t), log, applications + [r.digest])
  {
    HistoryAdvances(v.applied, v.checkpoint, log, applications);
    ReplayOneMore(v.stream, Mutations(log), v.checkpoint, v.tables);
  }

  lemma ReplayOneMore(stream: string, ms: seq<Mutation>, n: nat, t: Tables)
    requires n < |ms| && Replay(stream, EmptyTables, ms[..n]) == Ok(t)
    ensures Replay(stream, EmptyTables, ms[..n + 1]) == ApplyMutation(stream, t, ms[n])
  {
    hide ApplyMutation, Replay;
    assert ms[..n + 1] == ms[..n] + [ms[n]];
    ReplaySnoc(stream, EmptyTables, ms[..n], ms[n]);
  }

  lemma AppliedAdvances(v: Receiver, stream: string, epoch: string, log: seq<Record>, sent: set<Digest>,
                        applications: seq<Digest>, r: Record)
    requires RecordsOk(stream, epoch, log) && SentOk(stream, epoch, sent, log) && r.digest in sent
    requires ReceiverOk(v, log, applications) && v.stream == stream && v.epoch == epoch
    requires VerifyAndApply(v, r).Decided? && VerifyAndApply(v, r).decision == Applied
    ensures ReceiverOk(VerifyAndApply(v, r).receiver, log, applications + [r.digest])
    ensures VerifyAndApply(v, r).receiver.applied == v.applied[r.sequence := r.digest] && r.sequence !in v.applied
    ensures VerifyAndApply(v, r).receiver.stream == v.stream && VerifyAndApply(v, r).receiver.epoch == v.epoch
    ensures VerifyAndApply(v, r).receiver.checkpoint == v.checkpoint + 1
  {
    AppliedMeans(v, r);
    GenuineIsLogged(stream, epoch, log, sent, r);
    AdvancedOk(v, log, applications, r, ApplyMutation(v.stream, v.tables, r.mutation).value);
  }

  lemma DecisionKeepsReceiver(v: Receiver, r: Record)
    requires VerifyAndApply(v, r).Decided? && VerifyAndApply(v, r).decision != Applied
    ensures VerifyAndApply(v, r).receiver == v
    ensures VerifyAndApply(v, r).decision == DuplicateOk ==> r.sequence in v.applied && v.applied[r.sequence] == r.digest
  {
  }

  lemma DeliverKeeps(sys: System, r: Record)
    requires Inv(sys)
    ensures Inv(DeliverStep(sys, r))
  {
    var v := sys.receiver;
    if r.digest in sys.sent && VerifyAndApply(v, r).Decided? {
      if VerifyAndApply(v, r).decision == Applied {
        AppliedAdvances(v, sys.authority.source.stream, sys.authority.source.epoch, Log(sys), sys.sent, sys.applications, r);
        ReceiptAdded(sys.receipts, v.applied, r);
      } else {
        DecisionKeepsReceiver(v, r);
        RefusalAdded(sys.receipts, v.applied, r, VerifyAndApply(v, r).decision);
      }
    }
  }

  lemma RefusalAdded(receipts: set<Receipt>, applied: map<nat, Digest>, r: Record, d: Decision)
    requires ReceiptsOk(receipts, applied) && d != Applied
    requires d == DuplicateOk ==> r.sequence in applied && applied[r.sequence] == r.digest
    ensures ReceiptsOk(receipts + {Receipt(r.stream, r.epoch, r.sequence, r.digest, d)}, applied)
  {
  }

  lemma ReceiptAdded(receipts: set<Receipt>, applied: map<nat, Digest>, r: Record)
    requires ReceiptsOk(receipts, applied) && r.sequence !in applied
    ensures ReceiptsOk(receipts + {Receipt(r.stream, r.epoch, r.sequence, r.digest, Applied)}, applied[r.sequence := r.digest])
  {
  }

  /** After a mark, the drain that made it is no longer delivering and no other holds the lease. */
  lemma MarkedPublishers(rows: seq<OutboxRow>, rows': seq<OutboxRow>, lease: Option<nat>,
                         publishers: map<nat, Publisher>, used: set<nat>, token: nat)
    requires PublishersOk(rows, Some(token), publishers, used) && token in publishers
    requires Records(rows') == Records(rows)
    requires lease == Some(token) || lease == None
    ensures PublishersOk(rows', lease, publishers[token := Ready], used)
    ensures PublishersOk(rows', lease, publishers - {token}, used)
  {
    forall i | 0 <= i < |rows| ensures rows'[i].record == rows[i].record {
      assert Records(rows')[i] == Records(rows)[i];
    }
    assert |rows'| == |Records(rows')| == |rows|;
  }

  lemma AcknowledgeStepKeeps(sys: System, token: nat, receipt: Receipt)
    requires Inv(sys)
    requires token in sys.publishers && sys.publishers[token].Delivering? && receipt in sys.receipts
    requires BoundTo(receipt, sys.publishers[token].record) && AckDecision(receipt.decision)
    requires Acknowledge(sys.authority.source, token, sys.publishers[token].record).Ok?
    ensures Inv(ReceiptStep(sys, token, receipt))
  {
    var r, s := sys.publishers[token].record, sys.authority.source;
    AcknowledgeKeepsSourceOk(s, token, r);
    var s' := Acknowledge(s, token, r).value;
    MarkedPublishers(s.rows, s'.rows, s'.leaseToken, sys.publishers, sys.usedTokens, token);
    SameLogKeeps(sys, s', sys.publishers[token := Ready], sys.usedTokens);
  }

  lemma QuarantineStepKeeps(sys: System, token: nat, d: Decision)
    requires Inv(sys)
    requires token in sys.publishers && sys.publishers[token].Delivering?
    ensures Inv(QuarantineStep(sys, token, sys.publishers[token].record, d))
  {
    hide Replay, ReceiverOk, SentOk, ReceiptsOk, PendingCount, RecordsOk;
    var r, s := sys.publishers[token].record, sys.authority.source;
    if Quarantine(s, token, r, d).Ok? {
      QuarantineKeepsSourceOk(s, token, r, d);
      var s' := Quarantine(s, token, r, d).value;
      MarkedPublishers(s.rows, s'.rows, None, sys.publishers, sys.usedTokens, token);
      SameLogKeeps(sys, Release(s', token), sys.publishers - {token}, sys.usedTokens);
    } else {
      EndDrainKeeps(sys, token, true);
    }
  }

  lemma ReceiptStepKeeps(sys: System, token: nat, receipt: Receipt)
    requires Inv(sys)
    ensures Inv(ReceiptStep(sys, token, receipt))
  {
    if token in sys.publishers && sys.publishers[token].Delivering? && receipt in sys.receipts {
      var r := sys.publishers[token].record;
      EndDrainKeeps(sys, token, true);
      if BoundTo(receipt, r) {
        if AckDecision(receipt.decision) {
          if Acknowledge(sys.authority.source, token, r).Ok? { AcknowledgeStepKeeps(sys, token, receipt); }
        } else if !TransientDecision(receipt.decision) {
          QuarantineStepKeeps(sys, token, receipt.decision);
        }
      }
    }
  }

  lemma NextKeeps(sys: System, step: Step)
    requires Inv(sys)
    ensures Inv(Next(sys, step))
  {
    hide ReceiptStep, ReadStep, SendStep, DeliverStep, AcquireStep, Commit, QuarantineStep, FirstUnacked, SentOk, Replay, RecordsOk;
    match step
    case SourceCommit(op, scope) => CommitKeeps(sys, op, scope);
    case AdvanceSourceFence =>
    case AdvanceReceiverFence =>
    case AcquireLease(token, now, leaseMs) => AcquireKeeps(sys, token, now, leaseMs);
    case ReadNext(token) => ReadKeeps(sys, token);
    case Send(token) => SendKeeps(sys, token);
    case SendElsewhere(r) => ElsewhereKeeps(sys, r);
    case Deliver(r) => DeliverKeeps(sys, r);
    case ReceiptArrives(token, receipt) => ReceiptStepKeeps(sys, token, receipt);
    case TransportTerminal(token) =>
      if token in sys.publishers && sys.publishers[token].Delivering? {
        QuarantineStepKeeps(sys, token, RejectTransportTerminal);
      }
    case Stop(token, released) => EndDrainKeeps(sys, token, released);
  }

  lemma {:induction false} RunKeeps(sys: System, steps: seq<Step>)
    requires Inv(sys)
    ensures Inv(Run(sys, steps))
  {
    if |steps| > 0 {
      RunKeeps(sys, steps[..|steps| - 1]);
      NextKeeps(Run(sys, steps[..|steps| - 1]), steps[|steps| - 1]);
    }
  }

  lemma InitialInv(stream: string, epoch: string, sourceFence: nat, receiverFence: nat)
    ensures Inv(Initial(stream, epoch, sourceFence, receiverFence))
  {
    var sys := Initial(stream, epoch, sourceFence, receiverFence);
    assert Mutations(Log(sys))[..0] == [];
  }

  // ---- What holds of every run ----

  /** The state a run reaches from two empty databases. */
  function Reached(stream: string, epoch: string, sourceFence: nat, receiverFence: nat, steps: seq<Step>): System {
    Run(Initial(stream, epoch, sourceFence, receiverFence), steps)
  }

  /**
   * The receiver's tables are the replay of source rows 1..checkpoint, each applied exactly once and in
   * order; the acknowledged rows are a prefix of those rows, applied under the same digest; and once the
   * receiver has caught up, its tables are the source's.
   */
  lemma ExactlyOnceInOrder(stream: string, epoch: string, sourceFence: nat, receiverFence: nat, steps: seq<Step>)
    ensures var sys := Reached(stream, epoch, sourceFence, receiverFence, steps);
            var log, v := Log(sys), sys.receiver;
            && v.checkpoint <= |log|
            && Replay(v.stream, EmptyTables, Mutations(log)[..v.checkpoint]) == Ok(v.tables)
            && sys.applications == seq(v.checkpoint, i requires 0 <= i < v.checkpoint => log[i].digest)
            && (forall i :: 0 <= i < |log| && Rows(sys)[i].acked ==>
                  i < v.checkpoint && i + 1 in v.applied && v.applied[i + 1] == log[i].digest && forall j :: 0 <= j < i ==> Rows(sys)[j].acked)
            && (v.checkpoint == |log| ==> v.tables == sys.authority.tables)
  {
    hide Run, Initial, SentOk, ReceiptsOk, PublishersOk, Replay;
    var sys := Reached(stream, epoch, sourceFence, receiverFence, steps);
    InitialInv(stream, epoch, sourceFence, receiverFence);
    RunKeeps(Initial(stream, epoch, sourceFence, receiverFence), steps);
    var log, v := Log(sys), sys.receiver;
    assert MarksOk(Rows(sys), sys.authority.source.quarantine.Keys);
    forall i | 0 <= i < |log| && Rows(sys)[i].acked ensures i < FirstUnacked(Rows(sys)) {}
    if v.checkpoint == |log| { assert Mutations(log)[..|log|] == Mutations(log); }
  }

  lemma DueRecordApplies(v: Receiver, log: seq<Record>, n: nat)
    requires n == v.checkpoint < |log|
    requires ReplayOk(v, log) && Replay(v.stream, EmptyTables, Mutations(log)).Ok?
    ensures ApplyMutation(v.stream, v.tables, log[n].mutation).Ok?
  {
    hide ApplyMutation;
    ReplayPrefix(v.stream, EmptyTables, Mutations(log), n + 1);
    ReplayOneMore(v.stream, Mutations(log), n, v.tables);
  }

  lemma FaithfulVerdict(v: Receiver, stream: string, epoch: string, log: seq<Record>, applications: seq<Digest>, n: nat)
    requires RecordsOk(stream, epoch, log) && v.stream == stream && v.epoch == epoch
    requires ReceiverOk(v, log, applications) && Replay(v.stream, EmptyTables, Mutations(log)).Ok?
    requires 1 <= n <= |log|
    ensures VerifyAndApply(v, log[n - 1]).Decided?
    ensures VerifyAndApply(v, log[n - 1]).decision ==
              (if Some(log[n - 1].fence) != v.fence then RejectFence
               else if n <= v.checkpoint then DuplicateOk
               else if n == v.checkpoint + 1 then Applied
               else RejectGap)
  {
    hide ApplyMutation, Replay;
    assert RecordOk(stream, epoch, log[n - 1], n);
    if n == v.checkpoint + 1 { DueRecordApplies(v, log, n - 1); }
  }

  /** A faithful record that is due is never refused, and a faithful record is never refused terminally. */
  lemma FaithfulRecordsAreAccepted(stream: string, epoch: string, sourceFence: nat, receiverFence: nat, steps: seq<Step>, n: nat)
    requires 1 <= n <= |Log(Reached(stream, epoch, sourceFence, receiverFence, steps))|
    ensures var sys := Reached(stream, epoch, sourceFence, receiverFence, steps);
            var r := Log(sys)[n - 1];
            var verdict := VerifyAndApply(sys.receiver, r);
            && verdict.Decided?
            && verdict.decision ==
                 (if Some(r.fence) != sys.receiver.fence then RejectFence
                  else if n <= sys.receiver.checkpoint then DuplicateOk
                  else if n == sys.receiver.checkpoint + 1 then Applied
                  else RejectGap)
  {
    hide VerifyAndApply, Run, Next, ReceiverOk, SentOk, ReceiptsOk, PublishersOk, Replay, Records;
    var sys := Reached(stream, epoch, sourceFence, receiverFence, steps);
    InitialInv(stream, epoch, sourceFence, receiverFence);
    RunKeeps(Initial(stream, epoch, sourceFence, receiverFence), steps);
    RunEpochs(Initial(stream, epoch, sourceFence, receiverFence), steps);
    FaithfulVerdict(sys.receiver, sys.authority.source.stream, sys.authority.source.epoch, Log(sys), sys.applications, n);
  }

  /**
   * In every run, a genuine record of another source epoch or stream, delivered by whoever sends it, leaves the
   * receiver as it is; one under the current fence is refused for its epoch, or throws for its stream.
   */
  lemma RecordsFromElsewhereChangeNothing(stream: string, epoch: string, sourceFence: nat, receiverFence: nat,
                                          steps: seq<Step>, r: Record)
    requires Genuine(r) && Elsewhere(stream, epoch, r)
    ensures var sys := Reached(stream, epoch, sourceFence, receiverFence, steps);
            && Next(sys, Deliver(r)).receiver == sys.receiver && Next(sys, Deliver(r)).applications == sys.applications
            && (HeaderOk(r.stream, r.epoch, r.sequence, r.fence) && Sanitized(r.mutation) && sys.receiver.fence == Some(r.fence) ==>
                  VerifyAndApply(sys.receiver, r) ==
                    if r.stream == stream then Decided(RejectEpoch, sys.receiver) else Thrown(Invalid))
  {
    hide Run, ReceiverOk, SentOk, ReceiptsOk, PublishersOk, Replay, Records, ApplyMutation;
    var start := Initial(stream, epoch, sourceFence, receiverFence);
    InitialInv(stream, epoch, sourceFence, receiverFence);
    RunKeeps(start, steps);
    RunNames(start, steps);
  }

  lemma {:induction false} RunNames(sys: System, steps: seq<Step>)
    ensures Run(sys, steps).receiver.epoch == sys.receiver.epoch && Run(sys, steps).receiver.stream == sys.receiver.stream
  {
    if |steps| > 0 {
      RunNames(sys, steps[..|steps| - 1]);
      NextEpochs(Run(sys, steps[..|steps| - 1]), steps[|steps| - 1]);
    }
  }

  lemma {:induction false} RunEpochs(sys: System, steps: seq<Step>)
    requires sys.receiver.epoch == sys.authority.source.epoch
    ensures Run(sys, steps).receiver.epoch == Run(sys, steps).authority.source.epoch
  {
    if |steps| > 0 {
      RunEpochs(sys, steps[..|steps| - 1]);
      NextEpochs(Run(sys, steps[..|steps| - 1]), steps[|steps| - 1]);
    }
  }

  lemma NextEpochs(sys: System, step: Step)
    ensures Next(sys, step).receiver.epoch == sys.receiver.epoch && Next(sys, step).receiver.stream == sys.receiver.stream
    ensures Next(sys, step).authority.source.epoch == sys.authority.source.epoch
  {
    hide OperationEffect, FirstUnacked, RunDml, ApplyMutation, BoundTo, Sanitized;
  }

  /** Marks and records only grow, and a quarantined row stops the acknowledged prefix for good. */
  ghost predicate Grows(rows: seq<OutboxRow>, rows': seq<OutboxRow>) {
    var k, k' := FirstUnacked(rows), FirstUnacked(rows');
    && Records(rows) <= Records(rows')
    && k <= k'
    && (k < |rows| && rows[k].quarantined ==> k' == k && k < |rows'| && rows'[k].quarantined)
  }

  lemma CommitGrows(sys: System, op: Operation, scope: TxScope)
    requires Inv(sys)
    ensures Grows(Rows(sys), Rows(Next(sys, SourceCommit(op, scope))))
  {
    CommitKeepsLogIsState(sys.authority, op, scope);
    var rows, rows' := Rows(sys), Rows(Next(sys, SourceCommit(op, scope)));
    forall i | 0 <= i < |rows| ensures rows'[i] == rows[i] { assert rows'[..|rows|][i] == rows[i]; }
  }

  lemma SameRowsGrow(rows: seq<OutboxRow>)
    ensures Grows(rows, rows)
  {
  }

  /** Only a commit, a receipt or a terminal transport failure touches the rows. */
  lemma OtherStepsKeepRows(sys: System, step: Step)
    requires !step.SourceCommit? && !step.ReceiptArrives? && !step.TransportTerminal?
    ensures Rows(Next(sys, step)) == Rows(sys)
  {
    hide Commit, VerifyAndApply, FirstUnacked;
  }

  /** A receipt acknowledges or quarantines the row being delivered, or changes no row. */
  lemma ReceiptMarks(sys: System, token: nat, receipt: Receipt)
    ensures var s, rows' := sys.authority.source, Rows(ReceiptStep(sys, token, receipt));
            rows' == s.rows
            || (&& token in sys.publishers && sys.publishers[token].Delivering?
                && (var r := sys.publishers[token].record;
                    || (Acknowledge(s, token, r).Ok? && rows' == Acknowledge(s, token, r).value.rows)
                    || (Quarantine(s, token, r, receipt.decision).Ok?
                        && rows' == Quarantine(s, token, r, receipt.decision).value.rows)))
  {
    hide Acknowledge, Quarantine;
  }

  lemma TerminalMarks(sys: System, token: nat)
    ensures var s, rows' := sys.authority.source, Rows(Next(sys, TransportTerminal(token)));
            rows' == s.rows
            || (&& token in sys.publishers && sys.publishers[token].Delivering?
                && (var r := sys.publishers[token].record;
                    && Quarantine(s, token, r, RejectTransportTerminal).Ok?
                    && rows' == Quarantine(s, token, r, RejectTransportTerminal).value.rows))
  {
    hide Quarantine;
  }

  lemma NextGrows(sys: System, step: Step)
    requires Inv(sys)
    ensures Grows(Rows(sys), Rows(Next(sys, step)))
  {
    hide Next, Acknowledge, Quarantine, Grows, ReceiptStep;
    var s := sys.authority.source;
    SameRowsGrow(s.rows);
    match step
    case SourceCommit(op, scope) => CommitGrows(sys, op, scope);
    case ReceiptArrives(token, receipt) =>
      NextReceipt(sys, token, receipt);
      ReceiptMarks(sys, token, receipt);
      if token in sys.publishers && sys.publishers[token].Delivering? {
        MarkGrows(s, token, sys.publishers, sys.usedTokens, receipt.decision);
      }
    case TransportTerminal(token) =>
      TerminalMarks(sys, token);
      if token in sys.publishers && sys.publishers[token].Delivering? {
        MarkGrows(s, token, sys.publishers, sys.usedTokens, RejectTransportTerminal);
      }
    case _ => OtherStepsKeepRows(sys, step);
  }

  lemma NextReceipt(sys: System, token: nat, receipt: Receipt)
    ensures Next(sys, ReceiptArrives(token, receipt)) == ReceiptStep(sys, token, receipt)
  {
  }

  lemma MarkGrows(s: Source, token: nat, publishers: map<nat, Publisher>, used: set<nat>, d: Decision)
    requires SourceOk(s) && PublishersOk(s.rows, s.leaseToken, publishers, used)
    requires token in publishers && publishers[token].Delivering?
    ensures Acknowledge(s, token, publishers[token].record).Ok? ==>
              Grows(s.rows, Acknowledge(s, token, publishers[token].record).value.rows)
    ensures Quarantine(s, token, publishers[token].record, d).Ok? ==>
              Grows(s.rows, Quarantine(s, token, publishers[token].record, d).value.rows)
  {
    var r := publishers[token].record;
    if Acknowledge(s, token, r).Ok? { AcknowledgeKeepsSourceOk(s, token, r); }
    if Quarantine(s, token, r, d).Ok? { QuarantineKeepsSourceOk(s, token, r, d); }
  }

  lemma {:induction false} RunGrows(sys: System, steps: seq<Step>)
    requires Inv(sys)
    ensures Grows(Rows(sys), Rows(Run(sys, steps)))
  {
    if |steps| > 0 {
      var mid := Run(sys, steps[..|steps| - 1]);
      RunGrows(sys, steps[..|steps| - 1]);
      RunKeeps(sys, steps[..|steps| - 1]);
      NextGrows(mid, steps[|steps| - 1]);
    }
  }

  /** Once row q is quarantined, no later step acknowledges it or anything after it. */
  lemma QuarantineIsABarrier(stream: string, epoch: string, sourceFence: nat, receiverFence: nat,
                             steps: seq<Step>, more: seq<Step>, q: nat, j: nat)
    requires var rows := Rows(Reached(stream, epoch, sourceFence, receiverFence, steps)); q < |rows| && rows[q].quarantined
    requires q <= j < |Rows(Run(Reached(stream, epoch, sourceFence, receiverFence, steps), more))|
    ensures !Rows(Run(Reached(stream, epoch, sourceFence, receiverFence, steps), more))[j].acked
  {
    var sys := Reached(stream, epoch, sourceFence, receiverFence, steps);
    InitialInv(stream, epoch, sourceFence, receiverFence);
    RunKeeps(Initial(stream, epoch, sourceFence, receiverFence), steps);
    RunKeeps(sys, more);
    RunGrows(sys, more);
  }

  predicate Admits(step: Step, maxPendingRows: nat) {
    step.SourceCommit? ==> step.scope.maxPending <= maxPendingRows
  }

  /** Rows neither acknowledged nor quarantined never outnumber the admission bound. */
  lemma {:induction false} BacklogIsBounded(stream: string, epoch: string, sourceFence: nat, receiverFence: nat,
                                            steps: seq<Step>, maxPendingRows: nat)
    requires forall i :: 0 <= i < |steps| ==> Admits(steps[i], maxPendingRows)
    ensures PendingCount(Rows(Reached(stream, epoch, sourceFence, receiverFence, steps))) <= maxPendingRows
  {
    if |steps| > 0 {
      BacklogIsBounded(stream, epoch, sourceFence, receiverFence, steps[..|steps| - 1], maxPendingRows);
      InitialInv(stream, epoch, sourceFence, receiverFence);
      RunKeeps(Initial(stream, epoch, sourceFence, receiverFence), steps[..|steps| - 1]);
      BacklogStep(Reached(stream, epoch, sourceFence, receiverFence, steps[..|steps| - 1]), steps[|steps| - 1], maxPendingRows);
    }
  }

  lemma CommitBacklog(sys: System, op: Operation, scope: TxScope)
    requires Inv(sys)
    ensures PendingCount(Rows(Next(sys, SourceCommit(op, scope)))) <= scope.maxPending
            || Rows(Next(sys, SourceCommit(op, scope))) == Rows(sys)
  {
    hide LogIsState, Commit;
    CommitKeepsLogIsState(sys.authority, op, scope);
  }

  lemma BacklogStep(sys: System, step: Step, maxPendingRows: nat)
    requires Inv(sys) && Admits(step, maxPendingRows) && PendingCount(Rows(sys)) <= maxPendingRows
    ensures PendingCount(Rows(Next(sys, step))) <= maxPendingRows
  {
    hide Next, Acknowledge, Quarantine, ReceiptStep, PendingCount;
    var s := sys.authority.source;
    match step
    case SourceCommit(op, scope) => CommitBacklog(sys, op, scope);
    case ReceiptArrives(token, receipt) =>
      NextReceipt(sys, token, receipt);
      ReceiptMarks(sys, token, receipt);
      if token in sys.publishers && sys.publishers[token].Delivering? {
        MarkLowersBacklog(s, token, sys.publishers, sys.usedTokens, receipt.decision);
      }
    case TransportTerminal(token) =>
      TerminalMarks(sys, token);
      if token in sys.publishers && sys.publishers[token].Delivering? {
        MarkLowersBacklog(s, token, sys.publishers, sys.usedTokens, RejectTransportTerminal);
      }
    case _ => OtherStepsKeepRows(sys, step);
  }

  lemma MarkLowersBacklog(s: Source, token: nat, publishers: map<nat, Publisher>, used: set<nat>, d: Decision)
    requires SourceOk(s) && PublishersOk(s.rows, s.leaseToken, publishers, used)
    requires token in publishers && publishers[token].Delivering?
    ensures Acknowledge(s, token, publishers[token].record).Ok? ==>
              PendingCount(Acknowledge(s, token, publishers[token].record).value.rows) <= PendingCount(s.rows)
    ensures Quarantine(s, token, publishers[token].record, d).Ok? ==>
              PendingCount(Quarantine(s, token, publishers[token].record, d).value.rows) <= PendingCount(s.rows)
  {
    var r := publishers[token].record;
    if Acknowledge(s, token, r).Ok? { AcknowledgeKeepsSourceOk(s, token, r); }
    if Quarantine(s, token, r, d).Ok? { QuarantineKeepsSourceOk(s, token, r, d); }
  }
}
