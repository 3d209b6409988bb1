/**
 * What verifyAndApplyInTx of packages/server/src/ha-outbox-pg.ts answers to every record, and which refusals can
 * ever turn into an acceptance: the two the publisher retries, and no other.
 */
module Verdicts {
  import opened Wrappers
  import opened PairReplica
  import opened Outbox

  /** A conformant record of the receiver's stream. */
  predicate Addressed(v: Receiver, r: Record) {
    HeaderOk(r.stream, r.epoch, r.sequence, r.fence) && r.stream == v.stream
  }

  /** A sanitised record that carries its own digest and the receiver's fence token. */
  predicate Current(v: Receiver, r: Record) {
    Addressed(v, r) && Sanitized(r.mutation) && Genuine(r) && v.fence == Some(r.fence)
  }

  predicate Answers(v: Receiver, r: Record, d: Decision) {
    VerifyAndApply(v, r) == Decided(d, v)
  }

  /** Records that are not the receiver's business, and records refused before their place is looked at. */
  lemma StrangersAreRefused(v: Receiver, r: Record)
    ensures VerifyAndApply(v, r) == Thrown(Invalid) || Addressed(v, r)
    ensures Addressed(v, r) ==>
              && (Answers(v, r, RejectUnsanitized) <==> !Sanitized(r.mutation))
              && (Sanitized(r.mutation) && !Genuine(r) ==> Answers(v, r, RejectFork))
              && (Answers(v, r, RejectFence) <==> Sanitized(r.mutation) && Genuine(r) && v.fence != Some(r.fence))
  {
    hide Sanitized, ApplyMutation, NameOk;
  }

  /** A current record is judged by its epoch, then by its place and by what was applied there. */
  lemma CurrentVerdicts(v: Receiver, r: Record)
    requires Current(v, r)
    ensures Answers(v, r, RejectEpoch) <==> r.epoch != v.epoch
    ensures Answers(v, r, DuplicateOk) <==>
              r.epoch == v.epoch && r.sequence <= v.checkpoint && r.sequence in v.applied && v.applied[r.sequence] == r.digest
    ensures Answers(v, r, RejectFork) <==>
              r.epoch == v.epoch && r.sequence <= v.checkpoint && r.sequence in v.applied && v.applied[r.sequence] != r.digest
    ensures Answers(v, r, RejectStale) <==> r.epoch == v.epoch && r.sequence <= v.checkpoint && r.sequence !in v.applied
    ensures Answers(v, r, RejectGap) <==> r.epoch == v.epoch && r.sequence > v.checkpoint + 1
    ensures r.epoch == v.epoch && r.sequence == v.checkpoint + 1 ==>
              VerifyAndApply(v, r) ==
                match ApplyMutation(v.stream, v.tables, r.mutation)
                case Err(e) => Thrown(e)
                case Ok(t) =>
                  if r.sequence in v.applied then Thrown(PreconditionFailed)
                  else Decided(Applied, Receiver(v.stream, v.epoch, v.checkpoint + 1, v.fence, v.applied[r.sequence := r.digest], t))
  {
    hide Sanitized, ApplyMutation, NameOk;
  }

  predicate Accepts(v: Receiver, r: Record) {
    VerifyAndApply(v, r).Decided? && AckDecision(VerifyAndApply(v, r).decision)
  }

  /** Only a current record of the receiver's own epoch is ever acknowledged, at its place or as already applied there. */
  lemma AcceptedMeans(v: Receiver, r: Record)
    requires Accepts(v, r)
    ensures Current(v, r) && r.epoch == v.epoch
    ensures r.sequence == v.checkpoint + 1 || (r.sequence in v.applied && v.applied[r.sequence] == r.digest)
  {
    hide Sanitized, ApplyMutation, NameOk;
    StrangersAreRefused(v, r);
    if Current(v, r) { CurrentVerdicts(v, r); }
  }

  /** A receipt is about exactly the record whose key and digest it carries, so at most one of a receiver's log. */
  lemma BoundExactly(receipt: Receipt, r: Record)
    ensures BoundTo(receipt, r) <==> receipt == Receipt(r.stream, r.epoch, r.sequence, r.digest, receipt.decision)
  {
  }

  // ---- Which refusals are final ----

  datatype Step = Arrives(record: Record) | FenceAdvances

  function Next(v: Receiver, step: Step): Receiver {
    match step
    case Arrives(r) => if VerifyAndApply(v, r).Decided? then VerifyAndApply(v, r).receiver else v
    case FenceAdvances => v.(fence := Some(AdvanceFence(v.fence)))
  }

  function Run(v: Receiver, steps: seq<Step>): Receiver {
    if |steps| == 0 then v else Next(Run(v, steps[..|steps| - 1]), steps[|steps| - 1])
  }

  /** Nothing is recorded as applied beyond the checkpoint. */
  predicate Tidy(v: Receiver) {
    forall n :: n in v.applied ==> n <= v.checkpoint
  }

  /** Why a record can never be accepted: what is wrong with it will not change. */
  predicate Hopeless(v: Receiver, r: Record) {
    || !Addressed(v, r) || !Sanitized(r.mutation) || !Genuine(r) || r.epoch != v.epoch
    || (r.sequence <= v.checkpoint && (r.sequence in v.applied ==> v.applied[r.sequence] != r.digest))
  }

  lemma StepKeepsHopeless(v: Receiver, step: Step, r: Record)
    requires Tidy(v) && Hopeless(v, r)
    ensures Tidy(Next(v, step)) && Hopeless(Next(v, step), r)
  {
    hide Sanitized, ApplyMutation, NameOk;
    match step
    case Arrives(q) =>
      if Accepts(v, q) {
        AcceptedMeans(v, q);
        CurrentVerdicts(v, q);
      } else {
        RefusalKeeps(v, q);
      }
    case FenceAdvances =>
  }

  lemma RefusalKeeps(v: Receiver, r: Record)
    requires !Accepts(v, r)
    ensures Next(v, Arrives(r)) == v
  {
    hide Sanitized, ApplyMutation, NameOk;
  }

  lemma {:induction false} HopelessForever(v: Receiver, r: Record, steps: seq<Step>)
    requires Tidy(v) && Hopeless(v, r)
    ensures Tidy(Run(v, steps)) && Hopeless(Run(v, steps), r) && !Accepts(Run(v, steps), r)
  {
    hide Next, Accepts, Hopeless, Tidy;
    if |steps| > 0 {
      HopelessForever(v, r, steps[..|steps| - 1]);
      StepKeepsHopeless(Run(v, steps[..|steps| - 1]), steps[|steps| - 1], r);
    }
    HopelessIsRefused(Run(v, steps), r);
  }

  lemma HopelessIsRefused(v: Receiver, r: Record)
    requires Tidy(v) && Hopeless(v, r)
    ensures !Accepts(v, r)
  {
    hide Sanitized, Addressed;
    if Accepts(v, r) { AcceptedMeans(v, r); }
  }

  /** A refusal that is neither of the two transient ones leaves no hope. */
  lemma OthersAreHopeless(v: Receiver, r: Record, d: Decision)
    requires Answers(v, r, d) && !AckDecision(d) && d != RejectGap && d != RejectFence
    ensures Hopeless(v, r)
  {
    hide Sanitized, ApplyMutation, NameOk;
    StrangersAreRefused(v, r);
    if Current(v, r) { CurrentVerdicts(v, r); }
  }

  // ---- The two that can end ----

  function Sample(sequence: nat): Record {
    Record("s", "e", sequence, 1, OpDigest("s", "e", sequence, 1, PairDelete("a")), PairDelete("a"))
  }

  function Blank(fence: nat): Receiver {
    Receiver("s", "e", 0, Some(fence), map[], EmptyTables)
  }

  lemma SampleIsFine(sequence: nat)
    requires sequence == 1 || sequence == 2
    ensures Addressed(Blank(1), Sample(sequence)) && Sanitized(Sample(sequence).mutation) && Genuine(Sample(sequence))
  {
    assert "a"[0] == 'a' && "s"[0] == 's' && "e"[0] == 'e';
  }

  lemma DeletesNothing(t: Tables)
    ensures ApplyMutation("s", t, PairDelete("a")).Ok?
  {
  }

  /** Over receivers in order, a refusal can turn into an acceptance exactly when the publisher treats it as transient. */
  ghost predicate CanEnd(d: Decision) {
    exists v, r, steps :: Tidy(v) && Answers(v, r, d) && Accepts(Run(v, steps), r)
  }

  lemma RunOne(v: Receiver, step: Step)
    ensures Run(v, [step]) == Next(v, step)
  {
    hide Next;
    assert [step][..0] == [];
  }

  lemma FenceCanEnd()
    ensures CanEnd(RejectFence)
  {
    var v, r := Blank(0), Sample(1);
    SampleIsFine(1);
    StrangersAreRefused(v, r);
    var steps := [FenceAdvances];
    RunOne(v, steps[0]);
    hide Sanitized, ApplyMutation, HeaderOk;
    assert Run(v, steps) == Blank(1);
    CurrentVerdicts(Blank(1), r);
    DeletesNothing(EmptyTables);
    assert Tidy(v) && Answers(v, r, RejectFence) && Accepts(Run(v, steps), r);
  }

  lemma GapCanEnd()
    ensures CanEnd(RejectGap)
  {
    var v, first, r := Blank(1), Sample(1), Sample(2);
    SampleIsFine(1);
    SampleIsFine(2);
    var steps := [Arrives(first)];
    assert steps[..0] == [];
    hide Sanitized, HeaderOk, ApplyMutation;
    DeletesNothing(EmptyTables);
    CurrentVerdicts(v, first);
    CurrentVerdicts(v, r);
    RunOne(v, steps[0]);
    var later := Run(v, steps);
    assert Current(later, r);
    DeletesNothing(later.tables);
    CurrentVerdicts(later, r);
    assert Tidy(v) && Answers(v, r, RejectGap) && Accepts(Run(v, steps), r);
  }

  lemma RefusalsEndExactlyWhenTransient(d: Decision)
    requires !AckDecision(d)
    ensures TransientDecision(d) <==> CanEnd(d)
  {
    FenceCanEnd();
    GapCanEnd();
    hide Answers, Accepts, Tidy, Hopeless, Run;
    forall v, r, steps | Tidy(v) && Answers(v, r, d) && Accepts(Run(v, steps), r) ensures d == RejectGap || d == RejectFence {
      if d != RejectGap && d != RejectFence {
        OthersAreHopeless(v, r, d);
        HopelessForever(v, r, steps);
      }
    }
  }

  // ---- The source's transactions ----

  /** A lease taken at a time excludes every other drain until it has run out, or until its own token gives it back. */
  lemma LeaseExcludes(s: Source, token: nat, now: int, leaseMs: nat, later: int, other: nat)
    requires LeaseFree(s, now)
    ensures var held := Acquire(s, token, now, leaseMs);
            && held.leaseToken == Some(token)
            && (LeaseFree(held, later) <==> later > now + leaseMs)
            && (later <= now + leaseMs ==> Acquire(held, other, later, leaseMs) == held)
            && LeaseFree(Release(held, token), later)
            && (other != token ==> Release(held, other) == held)
  {
  }

  /** An append goes through exactly for a sanitised mutation of the stream under the persisted fence, within both bounds. */
  lemma AppendsExactly(s: Source, stream: string, m: Mutation, fence: nat, maxPending: nat)
    ensures Append(s, stream, m, fence, maxPending).Ok? <==>
              && Sanitized(m) && stream == s.stream && s.fence == Some(fence)
              && PendingCount(s.rows) < maxPending && HeaderOk(s.stream, s.epoch, s.sequence + 1, fence)
    ensures Append(s, stream, m, fence, maxPending) == Err(StaleFence) <==>
              Sanitized(m) && stream == s.stream && s.fence.Some? && s.fence.value != fence
    ensures Append(s, stream, m, fence, maxPending) == Err(Backpressure) <==>
              Sanitized(m) && stream == s.stream && s.fence == Some(fence) && PendingCount(s.rows) >= maxPending
    ensures Append(s, stream, m, fence, maxPending) == Err(SequenceExhausted) <==>
              Sanitized(m) && stream == s.stream && s.fence == Some(fence) && PendingCount(s.rows) < maxPending
              && s.sequence >= 9007199254740991
  {
    hide Sanitized, NameOk, PendingCount;
  }

  /** The rows that neither mark is on. */
  function Open(rows: seq<OutboxRow>): set<nat> {
    set i: nat | i < |rows| && !rows[i].acked && !rows[i].quarantined
  }

  /** What admission counts. */
  lemma {:induction false} PendingCountsOpenRows(rows: seq<OutboxRow>)
    ensures PendingCount(rows) == |Open(rows)|
  {
    if |rows| > 0 {
      var n := |rows| - 1;
      PendingCountsOpenRows(rows[..n]);
      assert Open(rows) == Open(rows[..n]) + (if rows[n].acked || rows[n].quarantined then {} else {n});
    }
  }

  /** The row of a record, as the two marking transactions find it: its place, epoch, and no mark on it. */
  predicate Unmarked(s: Source, r: Record) {
    exists i :: 0 <= i < |s.rows| && i + 1 == r.sequence && s.rows[i].record.sequence == r.sequence
                && s.rows[i].record.epoch == r.epoch && !s.rows[i].acked && !s.rows[i].quarantined
  }

  /** A row is acknowledged exactly under the lease, while it has no mark and carries the delivered digest; nothing else changes. */
  lemma AcknowledgesExactly(s: Source, token: nat, r: Record)
    ensures Acknowledge(s, token, r).Ok? <==>
              s.leaseToken == Some(token) && Unmarked(s, r) && s.rows[r.sequence - 1].record.digest == r.digest
    ensures Acknowledge(s, token, r).Ok? ==>
              var s' := Acknowledge(s, token, r).value;
              && s' == s.(rows := s'.rows) && |s'.rows| == |s.rows|
              && forall i :: 0 <= i < |s.rows| ==> s'.rows[i] == if i + 1 == r.sequence then s.rows[i].(acked := true) else s.rows[i]
  {
    if Acknowledge(s, token, r).Ok? { assert s.rows[r.sequence - 1].record.sequence == r.sequence; }
  }

  /** A row is quarantined exactly under the lease, while it has no mark and no other verdict is on file for it. */
  lemma QuarantinesExactly(s: Source, token: nat, r: Record, d: Decision)
    ensures Quarantine(s, token, r, d).Ok? <==>
              && s.leaseToken == Some(token) && Unmarked(s, r)
              && (r.sequence in s.quarantine ==> s.quarantine[r.sequence] == QuarantineEntry(r.digest, d))
    ensures Quarantine(s, token, r, d).Ok? ==>
              var s' := Quarantine(s, token, r, d).value;
              && s' == s.(rows := s'.rows, quarantine := s.quarantine[r.sequence := QuarantineEntry(r.digest, d)])
              && |s'.rows| == |s.rows|
              && forall i :: 0 <= i < |s.rows| ==> s'.rows[i] == if i + 1 == r.sequence then s.rows[i].(quarantined := true) else s.rows[i]
  {
    if Quarantine(s, token, r, d).Ok? { assert s.rows[r.sequence - 1].record.sequence == r.sequence; }
  }

  /** The next row to deliver is the lowest one not acknowledged, to the holder of the lease, unless it is quarantined. */
  lemma DeliversTheLowest(s: Source, token: nat)
    ensures NextDeliverable(s, token).Ok? <==> s.leaseToken == Some(token)
    ensures forall r :: NextDeliverable(s, token) == Ok(Some(r)) <==>
              && s.leaseToken == Some(token)
              && exists i :: 0 <= i < |s.rows| && s.rows[i].record == r && !s.rows[i].acked && !s.rows[i].quarantined
                             && forall j :: 0 <= j < i ==> s.rows[j].acked
  {
    forall i | 0 <= i < |s.rows| && !s.rows[i].acked && forall j :: 0 <= j < i ==> s.rows[j].acked
      ensures FirstUnacked(s.rows) == i
    {
      FirstUnackedUnique(s.rows, i);
    }
    var k := FirstUnacked(s.rows);
    if k < |s.rows| && !s.rows[k].quarantined { assert !s.rows[k].acked && s.rows[k].record == s.rows[k].record; }
  }
}
