/**
 * The durable outbox of packages/server/src/ha-outbox-pg.ts: the source's row log and its bounded
 * admission, the publisher lease, and the receiver's checkpoint. Each SERIALIZABLE transaction is one
 * step. The functions say what a transaction does to the tables; the classes run it.
 */
module Outbox {
  import opened Wrappers
  import opened PairReplica

  /** canonicalOpDigest as a term: injective in every field it frames. */
  datatype Digest = OpDigest(stream: string, epoch: string, sequence: nat, fence: nat, mutation: Mutation)

  datatype Record = Record(
    stream: string,
    epoch: string,
    sequence: nat,
    fence: nat,
    digest: Digest,
    mutation: Mutation)

  function RecordDigest(r: Record): Digest {
    OpDigest(r.stream, r.epoch, r.sequence, r.fence, r.mutation)
  }

  predicate Genuine(r: Record) {
    r.digest == RecordDigest(r)
  }

  /** ID_PATTERN. */
  predicate NameChar(c: char) {
    'A' <= c <= 'Z' || 'a' <= c <= 'z' || '0' <= c <= '9'
  }

  predicate NameOk(s: string) {
    && 1 <= |s| <= 128 && NameChar(s[0])
    && forall i :: 0 <= i < |s| ==> NameChar(s[i]) || s[i] == ':' || s[i] == '.' || s[i] == '_' || s[i] == '/' || s[i] == '-'
  }

  /** The largest of 39 decimal digits. */
  const MAX_FENCE: nat := 999999999999999999999999999999999999999

  /** What assertHeaderConformant and canonicalOpDigest demand of a header; both throw otherwise. */
  predicate HeaderOk(stream: string, epoch: string, sequence: nat, fence: nat) {
    NameOk(stream) && NameOk(epoch) && 1 <= sequence <= MAX_SAFE && fence <= MAX_FENCE
  }

  datatype OutboxRow = OutboxRow(record: Record, acked: bool, quarantined: bool)

  datatype Decision =
    | Applied
    | DuplicateOk
    | RejectGap
    | RejectFence
    | RejectFork
    | RejectStale
    | RejectUnsanitized
    | RejectEpoch
    | RejectTransportTerminal

  predicate AckDecision(d: Decision) {
    d == Applied || d == DuplicateOk
  }

  predicate TransientDecision(d: Decision) {
    d == RejectGap || d == RejectFence
  }

  datatype QuarantineEntry = QuarantineEntry(digest: Digest, decision: Decision)

  /** The signed receipt: the receiver's verdict on one record. */
  datatype Receipt = Receipt(stream: string, epoch: string, sequence: nat, digest: Digest, decision: Decision)

  predicate BoundTo(receipt: Receipt, r: Record) {
    && receipt.stream == r.stream
    && receipt.epoch == r.epoch
    && receipt.sequence == r.sequence
    && receipt.digest == r.digest
  }

  // ---- The source ----

  datatype Source = Source(
    stream: string,
    epoch: string,
    sequence: nat,
    fence: Option<nat>,
    rows: seq<OutboxRow>,
    quarantine: map<nat, QuarantineEntry>,
    leaseToken: Option<nat>,
    leaseUntil: Option<int>)

  /** count(*) of rows neither acked nor quarantined. */
  function PendingCount(rows: seq<OutboxRow>): nat {
    if |rows| == 0 then 0
    else PendingCount(rows[..|rows| - 1])
         + (if rows[|rows| - 1].acked || rows[|rows| - 1].quarantined then 0 else 1)
  }

  /** Index of the first row with acked_at IS NULL, or the number of rows. */
  function FirstUnacked(rows: seq<OutboxRow>): (k: nat)
    ensures k <= |rows|
    ensures forall i :: 0 <= i < k ==> rows[i].acked
    ensures k < |rows| ==> !rows[k].acked
  {
    if |rows| == 0 || !rows[0].acked then 0 else 1 + FirstUnacked(rows[1..])
  }

  function Records(rows: seq<OutboxRow>): (rs: seq<Record>)
    ensures |rs| == |rows|
    ensures forall i :: 0 <= i < |rows| ==> rs[i] == rows[i].record
  {
    seq(|rows|, i requires 0 <= i < |rows| => rows[i].record)
  }

  function Mutations(records: seq<Record>): (ms: seq<Mutation>)
    ensures |ms| == |records|
    ensures forall i :: 0 <= i < |records| ==> ms[i] == records[i].mutation
  {
    seq(|records|, i requires 0 <= i < |records| => records[i].mutation)
  }

  function NextRecord(s: Source, m: Mutation, fence: nat): Record {
    var n := s.sequence + 1;
    Record(s.stream, s.epoch, n, fence, OpDigest(s.stream, s.epoch, n, fence, m), m)
  }

  /** appendInTx: sanitise, fence check, admission, allocation, insert. */
  function Append(s: Source, stream: string, m: Mutation, fence: nat, maxPending: nat): Result<Source, Error> {
    if !Sanitized(m) || stream != s.stream then Err(Invalid)
    else if s.fence == None then Err(NotProvisioned)
    else if s.fence != Some(fence) then Err(StaleFence)
    else if PendingCount(s.rows) >= maxPending then Err(Backpressure)
    else if s.sequence >= MAX_SAFE then Err(SequenceExhausted)
    else if !HeaderOk(s.stream, s.epoch, s.sequence + 1, fence) then Err(Invalid)
    else Ok(s.(rows := s.rows + [OutboxRow(NextRecord(s, m, fence), false, false)], sequence := s.sequence + 1))
  }

  /** The lease row is taken when it is free or has expired on the database clock. */
  predicate LeaseFree(s: Source, now: int) {
    s.leaseUntil == None || s.leaseUntil.value < now
  }

  function Acquire(s: Source, token: nat, now: int, leaseMs: nat): Source {
    if LeaseFree(s, now) then s.(leaseToken := Some(token), leaseUntil := Some(now + leaseMs)) else s
  }

  function Release(s: Source, token: nat): Source {
    if s.leaseToken == Some(token) then s.(leaseToken := None, leaseUntil := None) else s
  }

  /** nextDeliverable: the lowest unacked row, unless that row is quarantined. */
  function NextDeliverable(s: Source, token: nat): Result<Option<Record>, Error> {
    if s.leaseToken != Some(token) then Err(LeaseLost)
    else
      var k := FirstUnacked(s.rows);
      Ok(if k == |s.rows| || s.rows[k].quarantined then None else Some(s.rows[k].record))
  }

  predicate Markable(s: Source, r: Record) {
    && 1 <= r.sequence <= |s.rows|
    && s.rows[r.sequence - 1].record.sequence == r.sequence
    && s.rows[r.sequence - 1].record.epoch == r.epoch
    && !s.rows[r.sequence - 1].acked
    && !s.rows[r.sequence - 1].quarantined
  }

  /** The acknowledgement transaction of drainOnce. */
  function Acknowledge(s: Source, token: nat, r: Record): Result<Source, Error> {
    if s.leaseToken != Some(token) then Err(LeaseLost)
    else if !(Markable(s, r) && s.rows[r.sequence - 1].record.digest == r.digest) then Err(PreconditionFailed)
    else Ok(s.(rows := s.rows[r.sequence - 1 := s.rows[r.sequence - 1].(acked := true)]))
  }

  /** quarantineRecord. */
  function Quarantine(s: Source, token: nat, r: Record, decision: Decision): Result<Source, Error> {
    if s.leaseToken != Some(token) then Err(LeaseLost)
    else if r.sequence in s.quarantine && s.quarantine[r.sequence] != QuarantineEntry(r.digest, decision) then
      Err(QuarantineConflict)
    else if !Markable(s, r) then Err(PreconditionFailed)
    else Ok(s.(
        rows := s.rows[r.sequence - 1 := s.rows[r.sequence - 1].(quarantined := true)],
        quarantine := s.quarantine[r.sequence := QuarantineEntry(r.digest, decision)]))
  }

  /** PgPromotionFence.acquire on a fence row. */
  function AdvanceFence(fence: Option<nat>): nat {
    match fence
    case None => 1
    case Some(n) => n + 1
  }

  /** What every transaction keeps of the row log. */
  ghost predicate SourceOk(s: Source) {
    && s.sequence == |s.rows|
    && RecordsOk(s.stream, s.epoch, Records(s.rows))
    && MarksOk(s.rows, s.quarantine.Keys)
  }

  /** Record i is genuine, sanitised and carries sequence i + 1. */
  ghost predicate RecordsOk(stream: string, epoch: string, records: seq<Record>) {
    forall i :: 0 <= i < |records| ==> RecordOk(stream, epoch, records[i], i + 1)
  }

  predicate RecordOk(stream: string, epoch: string, r: Record, sequence: nat) {
    && r.stream == stream
    && r.epoch == epoch
    && r.sequence == sequence
    && HeaderOk(r.stream, r.epoch, r.sequence, r.fence)
    && Genuine(r)
    && Sanitized(r.mutation)
  }

  /** Rows are acked exactly below the first unacked row, and quarantined at most there. */
  ghost predicate MarksOk(rows: seq<OutboxRow>, parked: set<nat>) {
    var k := FirstUnacked(rows);
    && (forall i :: k <= i < |rows| ==> !rows[i].acked)
    && (forall i :: 0 <= i < |rows| && rows[i].quarantined ==> i == k)
    && parked == if k < |rows| && rows[k].quarantined then {k + 1} else {}
  }

  lemma FirstUnackedUnique(rows: seq<OutboxRow>, k: nat)
    requires k <= |rows|
    requires forall i :: 0 <= i < k ==> rows[i].acked
    requires k < |rows| ==> !rows[k].acked
    ensures FirstUnacked(rows) == k
  {
  }

  lemma AppendKeepsSourceOk(s: Source, stream: string, m: Mutation, fence: nat, maxPending: nat)
    requires SourceOk(s)
    requires Append(s, stream, m, fence, maxPending).Ok?
    ensures SourceOk(Append(s, stream, m, fence, maxPending).value)
    ensures FirstUnacked(Append(s, stream, m, fence, maxPending).value.rows) == FirstUnacked(s.rows)
    ensures PendingCount(Append(s, stream, m, fence, maxPending).value.rows) <= maxPending
    ensures Records(Append(s, stream, m, fence, maxPending).value.rows) == Records(s.rows) + [NextRecord(s, m, fence)]
  {
    var s' := Append(s, stream, m, fence, maxPending).value;
    FirstUnackedUnique(s'.rows, FirstUnacked(s.rows));
    assert s'.rows[..|s'.rows| - 1] == s.rows;
  }

  lemma MarkingLowersPending(rows: seq<OutboxRow>, i: nat, row: OutboxRow)
    requires i < |rows|
    requires row.acked || row.quarantined
    ensures PendingCount(rows[i := row]) <= PendingCount(rows)
  {
    var rows' := rows[i := row];
    if i < |rows| - 1 {
      assert rows'[..|rows| - 1] == rows[..|rows| - 1][i := row];
      MarkingLowersPending(rows[..|rows| - 1], i, row);
    } else {
      assert rows'[..|rows| - 1] == rows[..|rows| - 1];
    }
  }

  lemma MarkFirstAcked(rows: seq<OutboxRow>, parked: set<nat>)
    requires MarksOk(rows, parked)
    requires FirstUnacked(rows) < |rows| && !rows[FirstUnacked(rows)].quarantined
    ensures var k := FirstUnacked(rows);
            var rows' := rows[k := rows[k].(acked := true)];
            && MarksOk(rows', parked)
            && FirstUnacked(rows') == k + 1
            && PendingCount(rows') <= PendingCount(rows)
            && Records(rows') == Records(rows)
  {
    var k := FirstUnacked(rows);
    var rows' := rows[k := rows[k].(acked := true)];
    FirstUnackedUnique(rows', k + 1);
    MarkingLowersPending(rows, k, rows'[k]);
  }

  lemma MarkFirstQuarantined(rows: seq<OutboxRow>, parked: set<nat>)
    requires MarksOk(rows, parked)
    requires FirstUnacked(rows) < |rows|
    ensures var k := FirstUnacked(rows);
            var rows' := rows[k := rows[k].(quarantined := true)];
            && MarksOk(rows', {k + 1})
            && FirstUnacked(rows') == k
            && PendingCount(rows') <= PendingCount(rows)
            && Records(rows') == Records(rows)
  {
    var k := FirstUnacked(rows);
    var rows' := rows[k := rows[k].(quarantined := true)];
    FirstUnackedUnique(rows', k);
    MarkingLowersPending(rows, k, rows'[k]);
  }

  /** Acknowledging the first unacked row moves the acknowledged prefix by exactly one row. */
  lemma AcknowledgeKeepsSourceOk(s: Source, token: nat, r: Record)
    requires SourceOk(s)
    requires Acknowledge(s, token, r).Ok?
    requires r.sequence == FirstUnacked(s.rows) + 1
    ensures SourceOk(Acknowledge(s, token, r).value)
    ensures FirstUnacked(Acknowledge(s, token, r).value.rows) == FirstUnacked(s.rows) + 1
    ensures PendingCount(Acknowledge(s, token, r).value.rows) <= PendingCount(s.rows)
    ensures Records(Acknowledge(s, token, r).value.rows) == Records(s.rows)
  {
    MarkFirstAcked(s.rows, s.quarantine.Keys);
  }

  lemma QuarantineKeepsSourceOk(s: Source, token: nat, r: Record, decision: Decision)
    requires SourceOk(s)
    requires Quarantine(s, token, r, decision).Ok?
    requires r.sequence == FirstUnacked(s.rows) + 1
    ensures SourceOk(Quarantine(s, token, r, decision).value)
    ensures FirstUnacked(Quarantine(s, token, r, decision).value.rows) == FirstUnacked(s.rows)
    ensures PendingCount(Quarantine(s, token, r, decision).value.rows) <= PendingCount(s.rows)
    ensures Records(Quarantine(s, token, r, decision).value.rows) == Records(s.rows)
  {
    var k := FirstUnacked(s.rows);
    MarkFirstQuarantined(s.rows, s.quarantine.Keys);
    assert s.rows[k := s.rows[k].(quarantined := true)][k].quarantined;
    assert s.quarantine.Keys == {};
    assert Quarantine(s, token, r, decision).value.quarantine.Keys == {k + 1};
  }

  // ---- The receiver ----

  datatype Receiver = Receiver(
    stream: string,
    epoch: string,
    checkpoint: nat,
    fence: Option<nat>,
    applied: map<nat, Digest>,
    tables: Tables)

  datatype Verdict = Decided(decision: Decision, receiver: Receiver) | Thrown(error: Error)

  /** verifyAndApplyInTx. */
  function VerifyAndApply(v: Receiver, r: Record): Verdict {
    if !HeaderOk(r.stream, r.epoch, r.sequence, r.fence) || r.stream != v.stream then Thrown(Invalid)
    else if !Sanitized(r.mutation) then Decided(RejectUnsanitized, v)
    else if !Genuine(r) then Decided(RejectFork, v)
    else if v.fence == None || r.fence != v.fence.value then Decided(RejectFence, v)
    else if r.epoch != v.epoch then Decided(RejectEpoch, v)
    else if r.sequence <= v.checkpoint then
      (if r.sequence in v.applied && v.applied[r.sequence] == r.digest then Decided(DuplicateOk, v)
       else if r.sequence in v.applied then Decided(RejectFork, v)
       else Decided(RejectStale, v))
    else if r.sequence > v.checkpoint + 1 then Decided(RejectGap, v)
    else
      match ApplyMutation(v.stream, v.tables, r.mutation)
      case Err(e) => Thrown(e)
      case Ok(t) =>
        if r.sequence in v.applied then Thrown(PreconditionFailed)
        else Decided(Applied, v.(tables := t, applied := v.applied[r.sequence := r.digest], checkpoint := r.sequence))
  }

  // ---- The transactions, run on the tables ----

  class PgSourceDatabase {
    const stream: string
    var epoch: string
    var sequence: nat
    var fence: Option<nat>
    var rows: seq<OutboxRow>
    var quarantine: map<nat, QuarantineEntry>
    var leaseToken: Option<nat>
    var leaseUntil: Option<int>

    ghost function View(): Source
      reads this
    {
      Source(stream, epoch, sequence, fence, rows, quarantine, leaseToken, leaseUntil)
    }

    constructor (stream: string, epoch: string, fence: nat)
      ensures View() == Source(stream, epoch, 0, Some(fence), [], map[], None, None)
      ensures SourceOk(View())
    {
      this.stream := stream;
      this.epoch := epoch;
      this.fence := Some(fence);
      sequence, rows, quarantine, leaseToken, leaseUntil := 0, [], map[], None, None;
    }

    method AppendInTx(streamId: string, m: Mutation, fenceToken: nat, maxPending: nat) returns (r: Result<Record, Error>)
      modifies this
      ensures match Append(old(View()), streamId, m, fenceToken, maxPending)
              case Err(e) => r == Err(e) && View() == old(View())
              case Ok(s) => View() == s && r == Ok(NextRecord(old(View()), m, fenceToken))
    {
      if !Sanitized(m) || streamId != stream { return Err(Invalid); }
      if fence.None? { return Err(NotProvisioned); }
      if fenceToken != fence.value { return Err(StaleFence); }
      var pending := PendingCount(rows);
      if pending >= maxPending { return Err(Backpressure); }
      if sequence >= MAX_SAFE { return Err(SequenceExhausted); }
      var nextSeq := sequence + 1;
      if !HeaderOk(stream, epoch, nextSeq, fenceToken) { return Err(Invalid); }
      var digest := OpDigest(stream, epoch, nextSeq, fenceToken, m);
      var record := Record(stream, epoch, nextSeq, fenceToken, digest, m);
      rows := rows + [OutboxRow(record, false, false)];
      sequence := nextSeq;
      return Ok(record);
    }

    method AcquireLease(token: nat, now: int, leaseMs: nat) returns (held: bool)
      modifies this
      ensures View() == Acquire(old(View()), token, now, leaseMs)
      ensures held <==> LeaseFree(old(View()), now)
    {
      held := leaseUntil.None? || leaseUntil.value < now;
      if held {
        leaseToken, leaseUntil := Some(token), Some(now + leaseMs);
      }
    }

    method ReleaseLease(token: nat)
      modifies this
      ensures View() == Release(old(View()), token)
    {
      if leaseToken == Some(token) {
        leaseToken, leaseUntil := None, None;
      }
    }

    method NextDeliverableInTx(token: nat) returns (r: Result<Option<Record>, Error>)
      ensures r == NextDeliverable(View(), token)
    {
      if leaseToken != Some(token) { return Err(LeaseLost); }
      var k := 0;
      while k < |rows| && rows[k].acked
        invariant k <= |rows| && forall i :: 0 <= i < k ==> rows[i].acked
      {
        k := k + 1;
      }
      FirstUnackedUnique(rows, k);
      if k == |rows| || rows[k].quarantined { return Ok(None); }
      return Ok(Some(rows[k].record));
    }

    method AckRow(token: nat, r: Record) returns (error: Option<Error>)
      modifies this
      ensures match Acknowledge(old(View()), token, r)
              case Err(e) => error == Some(e) && View() == old(View())
              case Ok(s) => error == None && View() == s
    {
      if leaseToken != Some(token) { return Some(LeaseLost); }
      if !(1 <= r.sequence <= |rows|) { return Some(PreconditionFailed); }
      var row := rows[r.sequence - 1];
      if !(row.record.sequence == r.sequence && row.record.epoch == r.epoch) { return Some(PreconditionFailed); }
      if row.acked || row.quarantined || row.record.digest != r.digest { return Some(PreconditionFailed); }
      rows := rows[r.sequence - 1 := row.(acked := true)];
      return None;
    }

    method QuarantineRow(token: nat, r: Record, decision: Decision) returns (error: Option<Error>)
      modifies this
      ensures match Quarantine(old(View()), token, r, decision)
              case Err(e) => error == Some(e) && View() == old(View())
              case Ok(s) => error == None && View() == s
    {
      if leaseToken != Some(token) { return Some(LeaseLost); }
      var before := quarantine;
      if r.sequence !in quarantine {
        quarantine := quarantine[r.sequence := QuarantineEntry(r.digest, decision)];
      } else if quarantine[r.sequence] != QuarantineEntry(r.digest, decision) {
        return Some(QuarantineConflict);
      }
      if !(1 <= r.sequence <= |rows|)
         || rows[r.sequence - 1].record.sequence != r.sequence || rows[r.sequence - 1].record.epoch != r.epoch
         || rows[r.sequence - 1].acked || rows[r.sequence - 1].quarantined
      {
        quarantine := before;  // the transaction rolls back
        return Some(PreconditionFailed);
      }
      rows := rows[r.sequence - 1 := rows[r.sequence - 1].(quarantined := true)];
      return None;
    }
  }

  class PgReceiverDatabase {
    const stream: string
    var epoch: string
    var checkpoint: nat
    var fence: Option<nat>
    var applied: map<nat, Digest>
    var tables: Tables

    ghost function View(): Receiver
      reads this
    {
      Receiver(stream, epoch, checkpoint, fence, applied, tables)
    }

    constructor (stream: string, epoch: string, fence: nat)
      ensures View() == Receiver(stream, epoch, 0, Some(fence), map[], EmptyTables)
    {
      this.stream := stream;
      this.epoch := epoch;
      this.fence := Some(fence);
      checkpoint, applied, tables := 0, map[], EmptyTables;
    }

    /** PgReceiverCheckpoint.verifyAndApplyInTx: an error rolls the whole transaction back. */
    method VerifyAndApplyInTx(r: Record) returns (result: Result<Decision, Error>)
      modifies this
      ensures match VerifyAndApply(old(View()), r)
              case Thrown(e) => result == Err(e) && View() == old(View())
              case Decided(d, v) => result == Ok(d) && View() == v
    {
      if !HeaderOk(r.stream, r.epoch, r.sequence, r.fence) || r.stream != stream { return Err(Invalid); }
      if !Sanitized(r.mutation) { return Ok(RejectUnsanitized); }
      var recomputed := OpDigest(r.stream, r.epoch, r.sequence, r.fence, r.mutation);
      if recomputed != r.digest { return Ok(RejectFork); }
      if fence.None? { return Ok(RejectFence); }
      if r.fence != fence.value { return Ok(RejectFence); }
      if r.epoch != epoch { return Ok(RejectEpoch); }
      if r.sequence <= checkpoint {
        if r.sequence in applied && applied[r.sequence] == r.digest { return Ok(DuplicateOk); }
        if r.sequence in applied { return Ok(RejectFork); }
        return Ok(RejectStale);
      }
      if r.sequence > checkpoint + 1 { return Ok(RejectGap); }
      var outcome := ApplyMutation(stream, tables, r.mutation);
      if outcome.Err? { return Err(outcome.error); }
      if r.sequence in applied { return Err(PreconditionFailed); }
      tables := outcome.value;
      applied := applied[r.sequence := r.digest];
      checkpoint := r.sequence;
      return Ok(Applied);
    }
  }
}
