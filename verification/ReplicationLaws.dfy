/** Progress: from every reachable state with a free lease, one faithful round acknowledges the next row. */
module ReplicationLaws {
  import opened Wrappers
  import opened PairReplica
  import opened Outbox
  import opened PairStore
  import opened Replication

  /** The lowest row not acknowledged can go: it is not quarantined and carries the fence the receiver has. */
  predicate NextIsDue(sys: System) {
    var k := FirstUnacked(Rows(sys));
    k < |Rows(sys)| && !Rows(sys)[k].quarantined && sys.receiver.fence == Some(Rows(sys)[k].record.fence)
  }

  function NextRow(sys: System): Record
    requires FirstUnacked(Rows(sys)) < |Rows(sys)|
  {
    Rows(sys)[FirstUnacked(Rows(sys))].record
  }

  /** A drain that gets the lease, reads, sends, is received, and hears the receipt. */
  function Round(r: Record, d: Decision, token: nat, now: int, leaseMs: nat): seq<Step> {
    [AcquireLease(token, now, leaseMs), ReadNext(token), Send(token), Deliver(r),
     ReceiptArrives(token, Receipt(r.stream, r.epoch, r.sequence, r.digest, d))]
  }

  /** The state once the record is on the channel. */
  lemma Sent(sys: System, token: nat, now: int, leaseMs: nat)
    requires NextIsDue(sys) && token !in sys.usedTokens && LeaseFree(sys.authority.source, now)
    ensures var r := NextRow(sys);
            var s := Next(Next(Next(sys, AcquireLease(token, now, leaseMs)), ReadNext(token)), Send(token));
            && s.authority.source == sys.authority.source.(leaseToken := Some(token), leaseUntil := Some(now + leaseMs))
            && s.receiver == sys.receiver && token in s.publishers && s.publishers[token] == Delivering(r)
            && r.digest in s.sent
  {
    hide FirstUnacked;
  }

  /** Delivered, the record is applied or found applied, and its receipt signed. */
  lemma Received(sys: System, r: Record)
    requires r.digest in sys.sent && VerifyAndApply(sys.receiver, r).Decided?
    ensures var d := VerifyAndApply(sys.receiver, r).decision;
            var s := Next(sys, Deliver(r));
            && s.authority == sys.authority && s.publishers == sys.publishers
            && s.receiver == VerifyAndApply(sys.receiver, r).receiver
            && Receipt(r.stream, r.epoch, r.sequence, r.digest, d) in s.receipts
  {
    hide VerifyAndApply;
  }

  /** An acknowledging receipt marks the row under the lease. */
  lemma Heard(sys: System, token: nat, r: Record, d: Decision)
    requires SourceOk(sys.authority.source) && sys.authority.source.leaseToken == Some(token) && AckDecision(d)
    requires token in sys.publishers && sys.publishers[token] == Delivering(r)
    requires Receipt(r.stream, r.epoch, r.sequence, r.digest, d) in sys.receipts
    requires var k := FirstUnacked(Rows(sys)); k < |Rows(sys)| && !Rows(sys)[k].quarantined && r == Rows(sys)[k].record
    ensures var k := FirstUnacked(Rows(sys));
            var s := Next(sys, ReceiptArrives(token, Receipt(r.stream, r.epoch, r.sequence, r.digest, d)));
            && Rows(s) == Rows(sys)[k := Rows(sys)[k].(acked := true)] && s.receiver == sys.receiver
            && FirstUnacked(Rows(s)) == k + 1
  {
    var k := FirstUnacked(Rows(sys));
    assert RecordOk(sys.authority.source.stream, sys.authority.source.epoch, Records(Rows(sys))[k], k + 1);
    MarkFirstAcked(Rows(sys), sys.authority.source.quarantine.Keys);
    hide FirstUnacked, MarksOk, RecordsOk;
  }

  lemma RunRound(sys: System, steps: seq<Step>)
    requires |steps| == 5
    ensures Run(sys, steps) == Next(Next(Next(Next(Next(sys, steps[0]), steps[1]), steps[2]), steps[3]), steps[4])
  {
    hide Next;
    assert steps[..5] == steps && steps[..4] == steps[..5][..4] && steps[..3] == steps[..4][..3];
    assert steps[..2] == steps[..3][..2] && steps[..1] == steps[..2][..1] && steps[..1][..0] == [];
    assert Run(sys, steps[..1]) == Next(sys, steps[0]);
    assert Run(sys, steps[..2]) == Next(Run(sys, steps[..1]), steps[1]);
    assert Run(sys, steps[..3]) == Next(Run(sys, steps[..2]), steps[2]);
    assert Run(sys, steps[..4]) == Next(Run(sys, steps[..3]), steps[3]);
  }

  /** What the verdict on the next row is, in a state the invariant holds in. */
  lemma NextVerdict(sys: System)
    requires Inv(sys) && NextIsDue(sys)
    ensures var k, verdict := FirstUnacked(Rows(sys)), VerifyAndApply(sys.receiver, NextRow(sys));
            && k <= sys.receiver.checkpoint
            && verdict.Decided?
            && verdict.decision == (if k < sys.receiver.checkpoint then DuplicateOk else Applied)
            && verdict.receiver.checkpoint == (if k < sys.receiver.checkpoint then sys.receiver.checkpoint else k + 1)
  {
    hide ReceiptsOk, SentOk, PublishersOk, VerifyAndApply, Replay, ReceiverOk, FirstUnacked;
    var k := FirstUnacked(Rows(sys));
    FaithfulVerdict(sys.receiver, sys.authority.source.stream, sys.authority.source.epoch, Log(sys), sys.applications, k + 1);
    if k == sys.receiver.checkpoint {
      AppliedMeans(sys.receiver, NextRow(sys));
    } else {
      DecisionKeepsReceiver(sys.receiver, NextRow(sys));
    }
  }

  /**
   * After every run, whenever the lease is free and the next row is due, a faithful round under a new token
   * acknowledges it: applied now, or found applied when an earlier receipt was lost.
   */
  lemma FaithfulRoundsAcknowledge(stream: string, epoch: string, sourceFence: nat, receiverFence: nat, steps: seq<Step>,
                                  token: nat, now: int, leaseMs: nat)
    requires var sys := Reached(stream, epoch, sourceFence, receiverFence, steps);
             NextIsDue(sys) && token !in sys.usedTokens && LeaseFree(sys.authority.source, now)
    ensures var sys := Reached(stream, epoch, sourceFence, receiverFence, steps);
            var k := FirstUnacked(Rows(sys));
            var d := if k < sys.receiver.checkpoint then DuplicateOk else Applied;
            var after := Run(sys, Round(NextRow(sys), d, token, now, leaseMs));
            && Rows(after) == Rows(sys)[k := Rows(sys)[k].(acked := true)]
            && after.receiver.checkpoint == if k < sys.receiver.checkpoint then sys.receiver.checkpoint else k + 1
  {
    var sys := Reached(stream, epoch, sourceFence, receiverFence, steps);
    InitialInv(stream, epoch, sourceFence, receiverFence);
    RunKeeps(Initial(stream, epoch, sourceFence, receiverFence), steps);
    NextVerdict(sys);
    var r, k := NextRow(sys), FirstUnacked(Rows(sys));
    var d := if k < sys.receiver.checkpoint then DuplicateOk else Applied;
    Sent(sys, token, now, leaseMs);
    var sent := Next(Next(Next(sys, AcquireLease(token, now, leaseMs)), ReadNext(token)), Send(token));
    Received(sent, r);
    SourceStaysOk(sys);
    Heard(Next(sent, Deliver(r)), token, r, d);
    RunRound(sys, Round(r, d, token, now, leaseMs));
    hide Next, Run, Inv, FirstUnacked, VerifyAndApply;
  }

  lemma SourceStaysOk(sys: System)
    requires Inv(sys)
    ensures SourceOk(sys.authority.source)
    ensures forall token, until :: SourceOk(sys.authority.source.(leaseToken := token, leaseUntil := until))
  {
    hide MarksOk, RecordsOk;
  }
}
