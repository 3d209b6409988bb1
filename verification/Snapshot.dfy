/**
 * Snapshot build, verification, import and promotion of packages/server/src/bpc-ha-final.ts. A node's
 * database holds both roles, receiver and source, over one pair of tables and one fence row. State and
 * history digests are terms, so equal digests mean equal contents; `signed` is what the keys signed.
 */
module Snapshot {
  import opened Wrappers
  import opened PairReplica
  import opened Outbox
  import opened PairStore
  import opened LeaseChain
  import CanonicalWalk
  import H = HistoryText
  import Replication

  datatype StateDigest = StateDigest(tables: Tables)

  datatype HistoryDigest = HistoryDigest(records: seq<Record>)

  datatype Manifest = Manifest(
    stream: string,
    sourceEpoch: string,
    finalSequence: int,
    sourceSystemId: string,
    state: StateDigest,
    history: HistoryDigest,
    issuedAt: int)

  datatype Bundle = Bundle(manifest: Manifest, records: seq<Record>)

  /** The part of a signed cutover receipt that a promotion compares. */
  datatype Fencing = Fencing(
    stream: string,
    fenced: bool,
    targetEpoch: int,
    targetSourceEpoch: string,
    manifest: Manifest,
    finalSequence: int,
    state: StateDigest)

  datatype PromotionReceipt = PromotionReceipt(manifest: Manifest, fencing: Fencing)

  datatype SnapshotError =
    | NotAtHead
    | NotContiguous
    | OverBudget
    | BadManifest
    | BadHistory
    | NotEmpty
    | NotGenesis
    | Refused(error: PairReplica.Error)
    | DuplicateApplied
    | StateMismatch
    | NotBound
    | RetryConflict
    | TailMissing
    | HistoryMismatch
    | FenceNotAdvanced
    | SourceInUse

  // ---- The source side ----

  predicate Contiguous(records: seq<Record>) {
    forall i :: 0 <= i < |records| ==> records[i].sequence == i + 1
  }

  predicate NamePart(c: char) {
    NameChar(c) || c == ':' || c == '.' || c == '_' || c == '-'
  }

  /** STREAM_RE, ID_RE and the decimal of a system identifier. */
  predicate StreamText(s: string) {
    1 <= |s| <= 512 && forall i :: 0 <= i < |s| ==> NamePart(s[i]) || s[i] == '/'
  }

  predicate EpochText(s: string) {
    1 <= |s| <= 128 && forall i :: 0 <= i < |s| ==> NamePart(s[i])
  }

  predicate SystemText(s: string) {
    |s| >= 1 && forall i :: 0 <= i < |s| ==> '0' <= s[i] <= '9'
  }

  predicate TimeOk(issuedAt: int) {
    0 <= issuedAt <= MAX_MS
  }

  /** verifyPairSnapshotManifest, apart from the signature. */
  predicate ManifestOk(m: Manifest) {
    && StreamText(m.stream) && EpochText(m.sourceEpoch) && 0 <= m.finalSequence <= MAX_SAFE
    && TimeOk(m.issuedAt) && SystemText(m.sourceSystemId)
  }

  /** The bundle of a source's head, whether or not its history can be hashed. */
  function HeadBundle(a: Authority, systemId: string, issuedAt: int): Bundle {
    var records := Records(a.source.rows);
    Bundle(Manifest(a.source.stream, a.source.epoch, a.source.sequence, systemId, StateDigest(a.tables),
                    HistoryDigest(records), issuedAt), records)
  }

  /** buildPairSnapshotBundle under the checkpoint lock; canonicalize throws on a history over its budget. */
  function Build(w: H.Wire, a: Authority, throughSequence: int, systemId: string, issuedAt: int): Result<Bundle, SnapshotError> {
    if !StreamText(a.source.stream) then Err(BadManifest)
    else if throughSequence != a.source.sequence then Err(NotAtHead)
    else
      var records := Records(a.source.rows);
      if |records| != throughSequence || !Contiguous(records) then Err(NotContiguous)
      else if !CanonicalWalk.Accepted(H.HistoryJson(w, records)) then Err(OverBudget)
      else if !TimeOk(issuedAt) then Err(BadManifest)
      else Ok(HeadBundle(a, systemId, issuedAt))
  }

  // ---- verifyBundle ----

  predicate RecordMatches(r: Record, m: Manifest, sequence: int) {
    && HeaderOk(r.stream, r.epoch, r.sequence, r.fence)
    && r.stream == m.stream && r.epoch == m.sourceEpoch && r.sequence == sequence
    && Sanitized(r.mutation) && Genuine(r)
  }

  predicate Verified(w: H.Wire, b: Bundle, signed: set<Manifest>) {
    && ManifestOk(b.manifest) && b.manifest in signed
    && |b.records| == b.manifest.finalSequence
    && CanonicalWalk.Accepted(H.HistoryJson(w, b.records))
    && HistoryDigest(b.records) == b.manifest.history
    && forall i :: 0 <= i < |b.records| ==> RecordMatches(b.records[i], b.manifest, i + 1)
  }

  // ---- The receiving node ----

  datatype Node = Node(
    receiver: Receiver,
    source: Option<Source>,
    promotions: map<int, PromotionReceipt>)

  /** The applied-history rows of a replayed log. */
  function AppliedUpTo(records: seq<Record>): (applied: map<nat, Digest>)
    ensures forall n :: n in applied <==> 1 <= n <= |records|
    ensures forall n :: n in applied ==> applied[n] == records[n - 1].digest
  {
    if |records| == 0 then map[] else AppliedUpTo(records[..|records| - 1])[|records| := records[|records| - 1].digest]
  }

  /** importPairSnapshotBundle. */
  function Import(w: H.Wire, v: Receiver, b: Bundle, signed: set<Manifest>): Result<Receiver, SnapshotError> {
    if !Verified(w, b, signed) then Err(BadHistory)
    else if v.tables != EmptyTables then Err(NotEmpty)
    else if v.stream != b.manifest.stream || v.epoch != b.manifest.sourceEpoch || v.checkpoint != 0 then Err(NotGenesis)
    else
      match Replay(v.stream, EmptyTables, Mutations(b.records))
      case Err(e) => Err(Refused(e))
      case Ok(t) =>
        if exists n :: n in v.applied && 1 <= n <= |b.records| then Err(DuplicateApplied)
        else if StateDigest(t) != b.manifest.state then Err(StateMismatch)
        else Ok(v.(tables := t, applied := v.applied + AppliedUpTo(b.records), checkpoint := |b.records|))
  }

  /** The applied-history row of a sequence number holds this record's digest. */
  predicate AppliedRow(applied: map<nat, Digest>, r: Record, sequence: nat) {
    sequence in applied && applied[sequence] == r.digest
  }

  predicate AppliedMatches(applied: map<nat, Digest>, records: seq<Record>) {
    && 0 !in applied
    && forall i :: 0 <= i < |records| ==> AppliedRow(applied, records[i], i + 1)
  }

  predicate Binds(f: Fencing, m: Manifest, targetEpoch: int, targetSourceEpoch: string) {
    && f.fenced && f.stream == m.stream && f.targetEpoch == targetEpoch && f.targetSourceEpoch == targetSourceEpoch
    && f.manifest == m && f.finalSequence == m.finalSequence && f.state == m.state
  }

  function FreshSource(v: Receiver, epoch: string, fence: nat): Source {
    Source(v.stream, epoch, 0, Some(fence), [], map[], None, None)
  }

  /** promoteReceiverToSource. */
  function Promote(w: H.Wire, n: Node, b: Bundle, signed: set<Manifest>, targetEpoch: int, targetSourceEpoch: string,
                   f: Fencing, guardSigned: set<Fencing>): Result<Node, SnapshotError>
  {
    var m := b.manifest;
    if !Verified(w, b, signed) || !(1 <= targetEpoch <= MAX_EPOCH) || !EpochText(targetSourceEpoch) || f !in guardSigned then Err(BadManifest)
    else if !Binds(f, m, targetEpoch, targetSourceEpoch) || n.receiver.stream != m.stream then Err(NotBound)
    else if targetEpoch in n.promotions then
      (if n.promotions[targetEpoch] == PromotionReceipt(m, f) && n.receiver.fence == Some(targetEpoch)
          && n.source.Some? && n.source.value.epoch == targetSourceEpoch
       then Ok(n) else Err(RetryConflict))
    else if n.receiver.epoch != m.sourceEpoch || n.receiver.checkpoint != m.finalSequence then Err(TailMissing)
    else if !AppliedMatches(n.receiver.applied, b.records) then Err(HistoryMismatch)
    else if StateDigest(n.receiver.tables) != m.state then Err(StateMismatch)
    else if n.receiver.fence.None? || n.receiver.fence.value >= targetEpoch then Err(FenceNotAdvanced)
    else if n.source.Some? && n.source.value.sequence != 0 then Err(SourceInUse)
    else Ok(Node(n.receiver.(fence := Some(targetEpoch)), Some(FreshSource(n.receiver, targetSourceEpoch, targetEpoch)),
                 n.promotions[targetEpoch := PromotionReceipt(m, f)]))
  }

  // ---- The round trip ----

  /** What building the head of a reachable source answers. */
  function HeadBuild(w: H.Wire, a: Authority, systemId: string, issuedAt: int): Result<Bundle, SnapshotError> {
    if !StreamText(a.source.stream) then Err(BadManifest)
    else if !H.Fits(w, Records(a.source.rows)) then Err(OverBudget)
    else if !TimeOk(issuedAt) then Err(BadManifest)
    else Ok(HeadBundle(a, systemId, issuedAt))
  }

  /** The head of a reachable source under a valid stream name and clock builds exactly when its rows fit the budget. */
  lemma HeadBuildsExactlyWhenFitting(w: H.Wire, a: Authority, systemId: string, issuedAt: int)
    requires SourceOk(a.source)
    ensures Build(w, a, a.source.sequence, systemId, issuedAt) == HeadBuild(w, a, systemId, issuedAt)
  {
    hide CanonicalWalk.Accepted, H.HistoryJson, H.Fits, MarksOk, Sanitized, StreamText, HeaderOk;
    forall i | 0 <= i < |Records(a.source.rows)| ensures Records(a.source.rows)[i].sequence == i + 1 {
      assert RecordOk(a.source.stream, a.source.epoch, Records(a.source.rows)[i], i + 1);
    }
    H.AcceptedExactlyWhenFitting(w, Records(a.source.rows));
  }

  lemma HeadVerifiesExactlyWhenFitting(w: H.Wire, a: Authority, systemId: string, issuedAt: int, signed: set<Manifest>)
    requires SourceOk(a.source) && HeadBundle(a, systemId, issuedAt).manifest in signed
    ensures Verified(w, HeadBundle(a, systemId, issuedAt), signed) <==>
              ManifestOk(HeadBundle(a, systemId, issuedAt).manifest) && H.Fits(w, Records(a.source.rows))
  {
    hide MarksOk, Sanitized, CanonicalWalk.Accepted, H.HistoryJson, H.Fits, ManifestOk, HeaderOk;
    var b := HeadBundle(a, systemId, issuedAt);
    H.AcceptedExactlyWhenFitting(w, b.records);
    forall i | 0 <= i < |b.records| ensures RecordMatches(b.records[i], b.manifest, i + 1) {
      assert RecordOk(a.source.stream, a.source.epoch, Records(a.source.rows)[i], i + 1);
    }
  }

  /** A source with rows has a valid stream name. */
  lemma RowsNameTheStream(s: Source)
    requires SourceOk(s) && |s.rows| > 0
    ensures StreamText(s.stream)
  {
    hide MarksOk, Sanitized;
    assert RecordOk(s.stream, s.epoch, Records(s.rows)[0], 1);
  }

  predicate EmptyGenesis(v: Receiver, a: Authority) {
    v.stream == a.source.stream && v.epoch == a.source.epoch && v.checkpoint == 0 && v.applied == map[] && v.tables == EmptyTables
  }

  /**
   * The bundle of the locked head of a reachable source is built exactly when the rows fit the budget, and imports
   * into an empty genesis receiver exactly when its manifest is also well formed, which adds the source epoch's
   * name to what the build asks; the import then reproduces the source's tables, with the whole history applied.
   */
  lemma SnapshotRoundTrip(w: H.Wire, a: Authority, v: Receiver, systemId: string, issuedAt: int, signed: set<Manifest>)
    requires LogIsState(a) && EmptyGenesis(v, a) && HeadBundle(a, systemId, issuedAt).manifest in signed
    ensures Build(w, a, a.source.sequence, systemId, issuedAt) == HeadBuild(w, a, systemId, issuedAt)
    ensures Import(w, v, HeadBundle(a, systemId, issuedAt), signed) ==
              if ManifestOk(HeadBundle(a, systemId, issuedAt).manifest) && H.Fits(w, Records(a.source.rows))
              then Ok(v.(tables := a.tables, applied := AppliedUpTo(Records(a.source.rows)), checkpoint := a.source.sequence))
              else Err(BadHistory)
  {
    hide Replay, TablesOk, RecordsOk, MarksOk, Verified, Build, H.Fits, ManifestOk, HeadBuild;
    HeadBuildsExactlyWhenFitting(w, a, systemId, issuedAt);
    HeadVerifiesExactlyWhenFitting(w, a, systemId, issuedAt, signed);
    assert v.applied + AppliedUpTo(Records(a.source.rows)) == AppliedUpTo(Records(a.source.rows));
  }

  /**
   * A bundle that was built, on a server whose identifier is a decimal, is refused for its names exactly when the
   * source epoch is none of ID_RE: for one that ever took a row, when the name has a slash in it.
   */
  lemma BuiltIsWellFormed(w: H.Wire, a: Authority, systemId: string, issuedAt: int)
    requires LogIsState(a) && SystemText(systemId) && Build(w, a, a.source.sequence, systemId, issuedAt).Ok?
    ensures ManifestOk(HeadBundle(a, systemId, issuedAt).manifest) <==> EpochText(a.source.epoch)
    ensures |a.source.rows| > 0 ==> (EpochText(a.source.epoch) <==> '/' !in a.source.epoch)
  {
    hide MarksOk, Sanitized, Replay, TablesOk, H.Fits, CanonicalWalk.Accepted, H.HistoryJson;
    HeadBuildsExactlyWhenFitting(w, a, systemId, issuedAt);
    if |a.source.rows| > 0 {
      assert RecordOk(a.source.stream, a.source.epoch, Records(a.source.rows)[0], 1);
      var last := Records(a.source.rows)[|a.source.rows| - 1];
      assert RecordOk(a.source.stream, a.source.epoch, last, |a.source.rows|);
    }
  }

  // ---- What does not fit ----

  lemma {:induction false} CommitsOnlyAppend(a: Authority, steps: seq<CommitStep>)
    requires LogIsState(a)
    ensures LogIsState(CommitAll(a, steps)) && Records(a.source.rows) <= Records(CommitAll(a, steps).source.rows)
    ensures CommitAll(a, steps).source.stream == a.source.stream
  {
    hide LogIsState, Commit;
    if |steps| > 0 {
      var front, last := CommitAll(a, steps[..|steps| - 1]), steps[|steps| - 1];
      CommitsOnlyAppend(a, steps[..|steps| - 1]);
      CommitKeepsLogIsState(front, last.op, last.scope);
      OneRowLonger(front.source, CommitAll(a, steps).source, last.scope.maxPending);
    }
  }

  lemma OneRowLonger(s: Source, s': Source, maxPending: nat)
    requires ExtendsByOneRow(s, s', maxPending)
    ensures Records(s.rows) <= Records(s'.rows)
  {
    hide PendingCount, FirstUnacked;
    forall i | 0 <= i < |s.rows| ensures s'.rows[i] == s.rows[i] {
      if s' != s { assert s'.rows[..|s.rows|][i] == s.rows[i]; }
    }
  }

  /** Once a source's history is over the budget, no later head of it can be built. */
  lemma OverBudgetForever(w: H.Wire, a: Authority, steps: seq<CommitStep>, systemId: string, issuedAt: int)
    requires LogIsState(a) && Build(w, a, a.source.sequence, systemId, issuedAt) == Err(OverBudget)
    ensures var later := CommitAll(a, steps);
            Build(w, later, later.source.sequence, systemId, issuedAt) == Err(OverBudget)
  {
    hide LogIsState, SourceOk, Build, CommitAll, H.Fits, StreamText;
    CommitsOnlyAppend(a, steps);
    var later := CommitAll(a, steps);
    LoggedSource(a);
    LoggedSource(later);
    HeadBuildsExactlyWhenFitting(w, a, systemId, issuedAt);
    HeadBuildsExactlyWhenFitting(w, later, systemId, issuedAt);
    assert later.source.stream == a.source.stream;
    if H.Fits(w, Records(later.source.rows)) { H.LongerFitsLess(w, Records(a.source.rows), Records(later.source.rows)); }
  }

  lemma LoggedSource(a: Authority)
    requires LogIsState(a)
    ensures SourceOk(a.source)
  {
  }

  /** No bundle ever holds a thousand rows: each takes at least ten of the ten thousand nodes. */
  lemma NoBundleOfAThousandRows(w: H.Wire, a: Authority, systemId: string, issuedAt: int)
    requires SourceOk(a.source) && |a.source.rows| >= 1000
    ensures Build(w, a, a.source.sequence, systemId, issuedAt) == Err(OverBudget)
  {
    hide SourceOk, Build, H.NodeSum, H.ByteSum, H.RowsAcceptable, StreamText;
    RowsNameTheStream(a.source);
    HeadBuildsExactlyWhenFitting(w, a, systemId, issuedAt);
    H.TenNodesEach(Records(a.source.rows));
  }

  /** n deletes of one pair that was never there. */
  function Deletes(id: string, fence: nat, n: nat): seq<CommitStep> {
    seq(n, i => CommitStep(DeletePairOp(id), TxScope(fence, n, false)))
  }

  /** One more delete of a pair that is not there. */
  lemma DeleteAppends(a: Authority, id: string, fence: nat, limit: nat)
    requires PairReplica.IdOk(id) && HeaderOk(a.source.stream, a.source.epoch, a.source.sequence + 1, fence)
    requires a.source.fence == Some(fence) && PendingCount(a.source.rows) < limit && a.tables == EmptyTables
    ensures var a' := Commit(a, DeletePairOp(id), TxScope(fence, limit, false)).0;
            && a' == a.(source := a'.source)
            && a'.source == a.source.(rows := a'.source.rows, sequence := a.source.sequence + 1)
            && |a'.source.rows| == |a.source.rows| + 1 && PendingCount(a'.source.rows) <= PendingCount(a.source.rows) + 1
  {
    PendingSnoc(a.source.rows, OutboxRow(NextRecord(a.source, PairDelete(id), fence), false, false));
    assert a.tables.pairs - {id} == a.tables.pairs;
    hide PendingCount, NameOk;
  }

  lemma {:induction false} DeletesAppend(stream: string, epoch: string, id: string, fence: nat, limit: nat, n: nat)
    requires PairReplica.IdOk(id) && n <= limit <= MAX_SAFE && HeaderOk(stream, epoch, 1, fence)
    ensures var steps := seq(n, i => CommitStep(DeletePairOp(id), TxScope(fence, limit, false)));
            var a := CommitAll(NewAuthority(stream, epoch, fence), steps);
            && |a.source.rows| == n && a.source.sequence == n && a.source.fence == Some(fence) && a.source.stream == stream
            && a.source.epoch == epoch
            && PendingCount(a.source.rows) <= n && a.tables == EmptyTables
  {
    hide PendingCount, Commit, NameOk, PairReplica.IdOk;
    var steps := seq(n, i => CommitStep(DeletePairOp(id), TxScope(fence, limit, false)));
    if n > 0 {
      var front := seq(n - 1, i => CommitStep(DeletePairOp(id), TxScope(fence, limit, false)));
      assert steps[..n - 1] == front;
      DeletesAppend(stream, epoch, id, fence, limit, n - 1);
      DeleteAppends(CommitAll(NewAuthority(stream, epoch, fence), front), id, fence, limit);
    } else {
      PendingNone();
    }
  }

  lemma PendingSnoc(rows: seq<OutboxRow>, row: OutboxRow)
    ensures PendingCount(rows + [row]) <= PendingCount(rows) + 1
  {
    assert (rows + [row])[..|rows|] == rows;
  }

  lemma PendingNone()
    ensures PendingCount([]) == 0
  {
  }

  /** A source that any client can reach, and whose snapshot can never be taken again: a thousand deletes. */
  lemma AThousandDeletes(w: H.Wire, stream: string, epoch: string, fence: nat, id: string, later: seq<CommitStep>,
                         systemId: string, issuedAt: int)
    requires PairReplica.IdOk(id) && HeaderOk(stream, epoch, 1, fence)
    ensures var a := CommitAll(CommitAll(NewAuthority(stream, epoch, fence), Deletes(id, fence, 1000)), later);
            Build(w, a, a.source.sequence, systemId, issuedAt) == Err(OverBudget)
  {
    hide CommitAll, LogIsState, SourceOk, Build;
    var steps := Deletes(id, fence, 1000);
    var a := CommitAll(NewAuthority(stream, epoch, fence), steps);
    DeletesAppend(stream, epoch, id, fence, 1000, 1000);
    assert steps == seq(1000, i => CommitStep(DeletePairOp(id), TxScope(fence, 1000, false)));
    LogRefinement(stream, epoch, fence, steps);
    LoggedSource(a);
    NoBundleOfAThousandRows(w, a, systemId, issuedAt);
    OverBudgetForever(w, a, later, systemId, issuedAt);
  }

  /** For a source whose rows carry digests and payloads within their bounds, the condition on the rows is the two sums. */
  lemma ConformantHeadBuilds(w: H.Wire, a: Authority, systemId: string, issuedAt: int)
    requires SourceOk(a.source)
    requires forall i :: 0 <= i < |a.source.rows| ==> H.PayloadConforms(w, a.source.rows[i].record)
    ensures Build(w, a, a.source.sequence, systemId, issuedAt).Ok? <==>
              StreamText(a.source.stream) && TimeOk(issuedAt) && H.WithinSums(w, Records(a.source.rows))
  {
    hide Build, H.PayloadConforms, H.WithinSums, H.RowsAcceptable, StreamText, MarksOk, HeaderOk, Sanitized;
    HeadBuildsExactlyWhenFitting(w, a, systemId, issuedAt);
    var records := Records(a.source.rows);
    forall i | 0 <= i < |records| ensures H.RowConforms(w, records[i]) {
      assert RecordOk(a.source.stream, a.source.epoch, records[i], i + 1);
    }
    H.ConformantHistoryFits(w, records);
  }

  // ---- The tail ----

  /** An imported snapshot is ready for the tail: the source's next row applies and leaves the source's tables. */
  lemma ImportedIsReadyForTheTail(a: Authority, op: Operation, scope: TxScope, v: Receiver)
    requires LogIsState(a)
    requires v.stream == a.source.stream && v.epoch == a.source.epoch && v.tables == a.tables
    requires v.applied == AppliedUpTo(Records(a.source.rows)) && v.checkpoint == a.source.sequence
    requires |Commit(a, op, scope).0.source.rows| > |a.source.rows| && v.fence == Some(scope.fence)
    ensures var a' := Commit(a, op, scope).0;
            var next := Records(a'.source.rows)[|a.source.rows|];
            && VerifyAndApply(v, next).Decided? && VerifyAndApply(v, next).decision == Applied
            && VerifyAndApply(v, next).receiver.tables == a'.tables
  {
    hide ApplyMutation, TablesOk, MarksOk, PlainDml, GovernedDml, OperationEffect;
    OperationAgrees(a.source.stream, a.tables, op);
    CommitAppends(a, OperationEffect(a.source.stream, a.tables, op), scope);
  }

  lemma CommitAppends(a: Authority, e: Effect, scope: TxScope)
    requires SourceOk(a.source) && Agrees(a.source.stream, a.tables, e) && CommitEffect(a, e, scope).0.source != a.source
    ensures e.Writes?
    ensures var a' := CommitEffect(a, e, scope).0;
            && |Records(a'.source.rows)| == |a.source.rows| + 1
            && Records(a'.source.rows)[|a.source.rows|] == NextRecord(a.source, e.mutation, scope.fence)
            && ApplyMutation(a.source.stream, a.tables, e.mutation) == Ok(a'.tables)
            && Sanitized(e.mutation)
  {
    hide ApplyMutation, TablesOk, PlainDml, GovernedDml, MarksOk, RecordsOk;
  }

  // ---- Promotion ----

  /** The applied history has this record's content under that sequence. */
  predicate AppliedAs(applied: map<nat, Digest>, r: Record, sequence: nat) {
    sequence in applied && applied[sequence] == RecordDigest(r)
  }

  /** A promotion that changes the node found the applied digests and the state of the bundle there. */
  lemma PromotionMeans(w: H.Wire, n: Node, b: Bundle, signed: set<Manifest>, targetEpoch: int, targetSourceEpoch: string,
                       f: Fencing, guardSigned: set<Fencing>)
    requires Promote(w, n, b, signed, targetEpoch, targetSourceEpoch, f, guardSigned).Ok?
    ensures var n' := Promote(w, n, b, signed, targetEpoch, targetSourceEpoch, f, guardSigned).value;
            n' == n
            || (&& n.receiver.tables == b.manifest.state.tables
                && n.receiver.checkpoint == |b.records|
                && (forall i :: 0 <= i < |b.records| ==> AppliedAs(n.receiver.applied, b.records[i], i + 1))
                && n.receiver.fence.Some? && n.receiver.fence.value < targetEpoch
                && n'.receiver == n.receiver.(fence := Some(targetEpoch))
                && n'.source == Some(FreshSource(n.receiver, targetSourceEpoch, targetEpoch)))
  {
    hide Sanitized, CanonicalWalk.Accepted, H.HistoryJson;
    var applied := n.receiver.applied;
    var n' := Promote(w, n, b, signed, targetEpoch, targetSourceEpoch, f, guardSigned).value;
    assert Verified(w, b, signed);
    if targetEpoch !in n.promotions {
      forall i | 0 <= i < |b.records| ensures AppliedAs(applied, b.records[i], i + 1) {
        assert RecordMatches(b.records[i], b.manifest, i + 1);
      }
    }
  }

  /** An exact retry changes nothing. */
  lemma ExactRetryChangesNothing(w: H.Wire, n: Node, b: Bundle, signed: set<Manifest>, targetEpoch: int, targetSourceEpoch: string,
                                 f: Fencing, guardSigned: set<Fencing>)
    requires Promote(w, n, b, signed, targetEpoch, targetSourceEpoch, f, guardSigned).Ok?
    ensures var n' := Promote(w, n, b, signed, targetEpoch, targetSourceEpoch, f, guardSigned).value;
            Promote(w, n', b, signed, targetEpoch, targetSourceEpoch, f, guardSigned) == Ok(n')
  {
    hide Verified, AppliedMatches;
  }

  /**
   * A replica that has caught up with its source in any replication run promotes on the bundle of that
   * source's head, when the guard's FENCED receipt binds it and the fence row is behind the target epoch,
   * exactly when the history fits the budget.
   */
  lemma CaughtUpReplicaPromotes(w: H.Wire, stream: string, epoch: string, sourceFence: nat, receiverFence: nat,
                                steps: seq<Replication.Step>, systemId: string, issuedAt: int, signed: set<Manifest>,
                                targetEpoch: int, targetSourceEpoch: string, guardSigned: set<Fencing>)
    requires var sys := Replication.Reached(stream, epoch, sourceFence, receiverFence, steps);
             var m := HeadBundle(sys.authority, systemId, issuedAt).manifest;
             && sys.receiver.checkpoint == |Replication.Log(sys)|
             && sys.receiver.fence.Some? && sys.receiver.fence.value < targetEpoch <= MAX_EPOCH
             && m in signed && Fencing(m.stream, true, targetEpoch, targetSourceEpoch, m, m.finalSequence, m.state) in guardSigned
    ensures var sys := Replication.Reached(stream, epoch, sourceFence, receiverFence, steps);
            var b := HeadBundle(sys.authority, systemId, issuedAt);
            var m := b.manifest;
            var f := Fencing(m.stream, true, targetEpoch, targetSourceEpoch, m, m.finalSequence, m.state);
            Promote(w, Node(sys.receiver, None, map[]), b, signed, targetEpoch, targetSourceEpoch, f, guardSigned).Ok?
            <==> EpochText(targetSourceEpoch) && ManifestOk(m) && H.Fits(w, Replication.Log(sys))
  {
    hide Replication.Run, Replay, TablesOk, MarksOk, Replication.SentOk, Replication.PublishersOk,
         Replication.ReceiptsOk, Verified, H.Fits, ManifestOk, EpochText, HeaderOk, Sanitized;
    var sys := Replication.Reached(stream, epoch, sourceFence, receiverFence, steps);
    var b := HeadBundle(sys.authority, systemId, issuedAt);
    Replication.InitialInv(stream, epoch, sourceFence, receiverFence);
    Replication.RunKeeps(Replication.Initial(stream, epoch, sourceFence, receiverFence), steps);
    Replication.RunEpochs(Replication.Initial(stream, epoch, sourceFence, receiverFence), steps);
    Replication.ExactlyOnceInOrder(stream, epoch, sourceFence, receiverFence, steps);
    HeadVerifiesExactlyWhenFitting(w, sys.authority, systemId, issuedAt, signed);
    assert AppliedMatches(sys.receiver.applied, b.records);
  }

  // ---- After the promotion ----

  /** What can happen at a node. A local operation writes the tables the receiver's applier writes. */
  datatype Step =
    | Deliver(record: Record)
    | Write(op: Operation, scope: TxScope)
    | ImportBundle(bundle: Bundle, signed: set<Manifest>)
    | AdvanceFenceRow
    | PromoteAgain(bundle: Bundle, signed: set<Manifest>, targetEpoch: int, targetSourceEpoch: string, fencing: Fencing,
                   guardSigned: set<Fencing>)

  /** What a delivery or a local operation does at a node, by the one fence row both read. */
  function DeliverTo(n: Node, r: Record): Verdict {
    VerifyAndApply(n.receiver, r)
  }

  function WriteTo(n: Node, op: Operation, scope: TxScope): Node {
    if n.source.None? then n
    else
      var (a, reply) := Commit(Authority(n.source.value.(fence := n.receiver.fence), n.receiver.tables), op, scope);
      n.(source := Some(a.source), receiver := n.receiver.(tables := a.tables))
  }

  function Rows(n: Node): seq<OutboxRow> {
    if n.source.Some? then n.source.value.rows else []
  }

  function Next(w: H.Wire, n: Node, step: Step): Node {
    match step
    case Deliver(r) => if DeliverTo(n, r).Decided? then n.(receiver := DeliverTo(n, r).receiver) else n
    case Write(op, scope) => WriteTo(n, op, scope)
    case ImportBundle(b, signed) =>
      var v := Import(w, n.receiver, b, signed);
      if v.Ok? then n.(receiver := v.value) else n
    case AdvanceFenceRow => n.(receiver := n.receiver.(fence := Some(AdvanceFence(n.receiver.fence))))
    case PromoteAgain(b, signed, e, se, f, guardSigned) =>
      var p := Promote(w, n, b, signed, e, se, f, guardSigned);
      if p.Ok? then p.value else n
  }

  function Run(w: H.Wire, n: Node, steps: seq<Step>): Node {
    if |steps| == 0 then n else Next(w, Run(w, n, steps[..|steps| - 1]), steps[|steps| - 1])
  }

  predicate FencedAt(n: Node, token: int) {
    n.receiver.fence.Some? && n.receiver.fence.value >= token
  }

  lemma StepKeepsFence(w: H.Wire, n: Node, step: Step, token: int)
    requires FencedAt(n, token)
    ensures FencedAt(Next(w, n, step), token)
  {
    hide Commit, Verified, ApplyMutation, Replay, AppliedMatches, AppliedUpTo;
  }

  lemma {:induction false} FenceNeverFalls(w: H.Wire, n: Node, steps: seq<Step>, token: int)
    requires FencedAt(n, token)
    ensures FencedAt(Run(w, n, steps), token)
  {
    hide Next;
    if |steps| > 0 {
      FenceNeverFalls(w, n, steps[..|steps| - 1], token);
      StepKeepsFence(w, Run(w, n, steps[..|steps| - 1]), steps[|steps| - 1], token);
    }
  }

  /**
   * After a promotion to an epoch, in every later state of the node, a delivered record with an older fence
   * token leaves the receiver alone, and a local operation that presents an older token writes nothing.
   */
  lemma OlderTokensAreDead(w: H.Wire, n: Node, b: Bundle, signed: set<Manifest>, targetEpoch: int, targetSourceEpoch: string,
                           f: Fencing, guardSigned: set<Fencing>, steps: seq<Step>, r: Record, op: Operation, scope: TxScope)
    requires Promote(w, n, b, signed, targetEpoch, targetSourceEpoch, f, guardSigned).Ok?
    requires r.fence < targetEpoch && scope.fence < targetEpoch
    ensures var later := Run(w, Promote(w, n, b, signed, targetEpoch, targetSourceEpoch, f, guardSigned).value, steps);
            && !(DeliverTo(later, r).Decided? && DeliverTo(later, r).decision == Applied)
            && Next(w, later, Deliver(r)) == later
            && Next(w, later, Write(op, scope)).receiver == later.receiver && Rows(Next(w, later, Write(op, scope))) == Rows(later)
  {
    hide Verified, ApplyMutation, Run, PendingCount, OperationEffect, Replay;
    var promoted := Promote(w, n, b, signed, targetEpoch, targetSourceEpoch, f, guardSigned).value;
    FenceNeverFalls(w, promoted, steps, targetEpoch);
  }

  /**
   * After a promotion that changed the node, its first append of a sanitised mutation under the new token goes
   * through exactly when stream and target epoch fit the record header, whose names must begin with a letter or
   * digit: the promotion asks less of them.
   */
  lemma PromotedWritesExactlyWhenNamed(w: H.Wire, n: Node, b: Bundle, signed: set<Manifest>, targetEpoch: int,
                                       targetSourceEpoch: string, f: Fencing, guardSigned: set<Fencing>, m: Mutation, maxPending: nat)
    requires Promote(w, n, b, signed, targetEpoch, targetSourceEpoch, f, guardSigned).Ok? && targetEpoch !in n.promotions
    requires Sanitized(m) && maxPending > 0
    ensures var s := Promote(w, n, b, signed, targetEpoch, targetSourceEpoch, f, guardSigned).value.source.value;
            && (Append(s, s.stream, m, targetEpoch, maxPending).Ok? <==> NameOk(s.stream) && NameOk(s.epoch))
            && (NameOk(s.epoch) <==> NameChar(targetSourceEpoch[0]))
  {
    hide Verified, Sanitized, AppliedMatches, Binds;
    var s := Promote(w, n, b, signed, targetEpoch, targetSourceEpoch, f, guardSigned).value.source.value;
    PendingNone();
    assert s == FreshSource(n.receiver, targetSourceEpoch, targetEpoch);
  }

  // ---- Imports after the promotion ----

  /** Every record the node applied since `p` carries at least this fence token. */
  ghost predicate NothingOlderSince(p: Node, later: Node, token: int) {
    forall k :: k in later.receiver.applied && k !in p.receiver.applied ==> later.receiver.applied[k].fence >= token
  }

  /** The names of a receiver's stream and epoch, as manifests and record headers need them. */
  predicate Named(v: Receiver) {
    NameOk(v.stream) && NameOk(v.epoch) && EpochText(v.epoch)
  }

  /** The node has a tail, or no bundle with a row in it can name its stream and epoch. */
  predicate ClosedToBundles(v: Receiver) {
    v.checkpoint > 0 || !Named(v)
  }

  ghost predicate StillClosed(p: Node, later: Node, token: int) {
    FencedAt(later, token) && ClosedToBundles(later.receiver) && NothingOlderSince(p, later, token)
  }

  lemma RowsAreNamed(w: H.Wire, b: Bundle, signed: set<Manifest>)
    requires Verified(w, b, signed) && |b.records| > 0
    ensures NameOk(b.manifest.stream) && NameOk(b.manifest.sourceEpoch) && EpochText(b.manifest.sourceEpoch)
  {
    hide CanonicalWalk.Accepted, H.HistoryJson, Sanitized, NameOk, EpochText, StreamText;
    assert RecordMatches(b.records[0], b.manifest, 1);
  }

  lemma UnnamedImportsNothing(w: H.Wire, v: Receiver, b: Bundle, signed: set<Manifest>)
    requires ClosedToBundles(v) && Import(w, v, b, signed).Ok?
    ensures b.records == [] && ClosedToBundles(Import(w, v, b, signed).value)
    ensures Import(w, v, b, signed).value.applied == v.applied && Import(w, v, b, signed).value.fence == v.fence
  {
    hide ApplyMutation, Replay, CanonicalWalk.Accepted, H.HistoryJson, Sanitized, NameOk, EpochText, StreamText;
    if |b.records| > 0 { RowsAreNamed(w, b, signed); }
  }

  lemma StepStaysClosed(w: H.Wire, p: Node, later: Node, step: Step, token: int)
    requires StillClosed(p, later, token)
    ensures StillClosed(p, Next(w, later, step), token)
  {
    hide Commit, Verified, ApplyMutation, Replay, AppliedUpTo, Import, NameOk, EpochText;
    match step
    case ImportBundle(b, signed) =>
      if Import(w, later.receiver, b, signed).Ok? { UnnamedImportsNothing(w, later.receiver, b, signed); }
    case _ =>
  }

  lemma {:induction false} RunStaysClosed(w: H.Wire, p: Node, steps: seq<Step>, token: int)
    requires FencedAt(p, token) && ClosedToBundles(p.receiver)
    ensures StillClosed(p, Run(w, p, steps), token)
  {
    hide Next, Named;
    if |steps| > 0 {
      RunStaysClosed(w, p, steps[..|steps| - 1], token);
      StepStaysClosed(w, p, Run(w, p, steps[..|steps| - 1]), steps[|steps| - 1], token);
    }
  }

  /** A bundle of one delete, from before the promotion. */
  function OldBundle(v: Receiver, id: string, systemId: string): Bundle {
    var r := Record(v.stream, v.epoch, 1, 0, OpDigest(v.stream, v.epoch, 1, 0, PairDelete(id)), PairDelete(id));
    Bundle(Manifest(v.stream, v.epoch, 1, systemId, StateDigest(EmptyTables), HistoryDigest([r]), 0), [r])
  }

  /** Such a bundle imports exactly into a named node with no tail, no pairs and no applied row in its range. */
  lemma OldBundleImportsExactly(w: H.Wire, v: Receiver, id: string, systemId: string)
    requires PairReplica.IdOk(id) && H.Fits(w, OldBundle(v, id, systemId).records)
    requires SystemText(systemId)
    ensures var b := OldBundle(v, id, systemId);
            && (Import(w, v, b, {b.manifest}).Ok? <==>
                  Named(v) && v.checkpoint == 0 && v.tables == EmptyTables && 1 !in v.applied)
            && (Import(w, v, b, {b.manifest}).Ok? ==>
                  Import(w, v, b, {b.manifest}).value.applied == v.applied[1 := b.records[0].digest])
  {
    hide H.Fits, CanonicalWalk.Accepted, H.HistoryJson, AppliedUpTo;
    var b := OldBundle(v, id, systemId);
    H.AcceptedExactlyWhenFitting(w, b.records);
    ReplayOne(v.stream, PairDelete(id));
    assert EmptyTables.pairs - {id} == EmptyTables.pairs;
    assert Mutations(b.records) == [PairDelete(id)];
    AppliedOne(b.records[0]);
    assert v.applied + AppliedUpTo(b.records) == v.applied[1 := b.records[0].digest];
  }

  lemma ReplayOne(stream: string, m: Mutation)
    ensures Replay(stream, EmptyTables, [m]) == ApplyMutation(stream, EmptyTables, m)
  {
    hide ApplyMutation;
    assert [m][..0] == [];
  }

  lemma AppliedOne(r: Record)
    ensures AppliedUpTo([r]) == map[1 := r.digest]
  {
    assert [r][..0] == [];
  }

  /** A receiver that has applied nothing holds nothing. */
  predicate GenesisIsEmpty(v: Receiver) {
    v.checkpoint == 0 ==> v.applied == map[] && v.tables == EmptyTables
  }

  /** So it is with the receiver of every replication run. */
  lemma ReceiversStartEmpty(stream: string, epoch: string, sourceFence: nat, receiverFence: nat, steps: seq<Replication.Step>)
    ensures GenesisIsEmpty(Replication.Reached(stream, epoch, sourceFence, receiverFence, steps).receiver)
  {
    hide Replication.Run, TablesOk, MarksOk, Replication.SentOk, Replication.PublishersOk, Replication.ReceiptsOk,
         ApplyMutation, RecordsOk;
    var sys := Replication.Reached(stream, epoch, sourceFence, receiverFence, steps);
    Replication.InitialInv(stream, epoch, sourceFence, receiverFence);
    Replication.RunKeeps(Replication.Initial(stream, epoch, sourceFence, receiverFence), steps);
    if sys.receiver.checkpoint == 0 {
      assert Mutations(Replication.Log(sys))[..0] == [];
      assert sys.receiver.applied.Keys == {};
    }
  }

  /**
   * No run after a promotion applies a record with an older token, by delivery or by import, exactly when the
   * promoted node had a tail, or its names are none a bundle's rows can carry: an import reads no fence, and only
   * an empty node accepts one.
   */
  lemma NothingOlderExactlyWhenTailed(w: H.Wire, n: Node, b: Bundle, signed: set<Manifest>, targetEpoch: int,
                                      targetSourceEpoch: string, f: Fencing, guardSigned: set<Fencing>, id: string)
    requires Promote(w, n, b, signed, targetEpoch, targetSourceEpoch, f, guardSigned).Ok? && GenesisIsEmpty(n.receiver)
    requires PairReplica.IdOk(id) && H.Fits(w, OldBundle(n.receiver, id, "1").records)
    ensures var p := Promote(w, n, b, signed, targetEpoch, targetSourceEpoch, f, guardSigned).value;
            p.receiver.checkpoint > 0 || !Named(p.receiver) <==>
            forall steps :: NothingOlderSince(p, Run(w, p, steps), targetEpoch)
  {
    hide Verified, Run, Import, AppliedMatches, H.Fits, Named;
    var p := Promote(w, n, b, signed, targetEpoch, targetSourceEpoch, f, guardSigned).value;
    if ClosedToBundles(p.receiver) {
      forall steps ensures NothingOlderSince(p, Run(w, p, steps), targetEpoch) { RunStaysClosed(w, p, steps, targetEpoch); }
    } else {
      var old' := OldBundle(p.receiver, id, "1");
      assert old' == OldBundle(n.receiver, id, "1");
      OldBundleImportsExactly(w, p.receiver, id, "1");
      var steps := [ImportBundle(old', {old'.manifest})];
      RunOne(w, p, steps[0]);
      assert !NothingOlderSince(p, Run(w, p, steps), targetEpoch) by {
        assert 1 in Run(w, p, steps).receiver.applied && 1 !in p.receiver.applied;
      }
    }
  }

  lemma RunOne(w: H.Wire, n: Node, step: Step)
    ensures Run(w, n, [step]) == Next(w, n, step)
  {
    hide Next;
    assert [step][..0] == [];
  }

  // ---- The import transaction, run on the receiver's tables ----

  lemma ReplayStep(stream: string, records: seq<Record>, i: nat)
    requires i < |records|
    ensures Replay(stream, EmptyTables, Mutations(records)[..i + 1])
            == Then(stream, Replay(stream, EmptyTables, Mutations(records)[..i]), records[i].mutation)
  {
    assert Mutations(records)[..i + 1] == Mutations(records)[..i] + [records[i].mutation];
    ReplaySnoc(stream, EmptyTables, Mutations(records)[..i], records[i].mutation);
  }

  lemma RefusedPrefix(stream: string, records: seq<Record>, i: nat)
    requires i <= |records| && Replay(stream, EmptyTables, Mutations(records)[..i]).Err?
    ensures Replay(stream, EmptyTables, Mutations(records)) == Replay(stream, EmptyTables, Mutations(records)[..i])
    decreases |records| - i
  {
    if i < |records| {
      ReplayStep(stream, records, i);
      RefusedPrefix(stream, records, i + 1);
    } else {
      assert Mutations(records)[..i] == Mutations(records);
    }
  }

  /** The loop of verifyBundle over the records. */
  method VerifyBundle(w: H.Wire, b: Bundle, signed: set<Manifest>) returns (ok: bool)
    ensures ok <==> Verified(w, b, signed)
  {
    hide CanonicalWalk.Accepted, H.HistoryJson, RecordMatches, ManifestOk;
    if !ManifestOk(b.manifest) || b.manifest !in signed { return false; }
    if |b.records| != b.manifest.finalSequence { return false; }
    H.HistoryUnits(w, b.records);
    var text := CanonicalWalk.Canonicalize(H.HistoryJson(w, b.records));
    if text.None? || HistoryDigest(b.records) != b.manifest.history { return false; }
    for i := 0 to |b.records|
      invariant forall j :: 0 <= j < i ==> RecordMatches(b.records[j], b.manifest, j + 1)
    {
      if !RecordMatches(b.records[i], b.manifest, i + 1) { return false; }
    }
    return true;
  }

  lemma AppliedStep(before: map<nat, Digest>, records: seq<Record>, i: nat)
    requires i < |records|
    ensures before + AppliedUpTo(records[..i + 1]) == (before + AppliedUpTo(records[..i]))[i + 1 := records[i].digest]
  {
    assert records[..i + 1][..i] == records[..i];
    assert AppliedUpTo(records[..i + 1]) == AppliedUpTo(records[..i])[i + 1 := records[i].digest];
  }

  /** The loop of importPairSnapshotBundle: apply each record, then insert its applied-history row. */
  method ApplyRecords(stream: string, records: seq<Record>, before: map<nat, Digest>)
    returns (outcome: Result<Tables, PairReplica.Error>, applied: map<nat, Digest>)
    ensures outcome == Replay(stream, EmptyTables, Mutations(records))
    ensures outcome.Ok? ==> applied == before + AppliedUpTo(records)
  {
    hide ApplyMutation, Replay, AppliedUpTo;
    var tables := EmptyTables;
    applied := before;
    ReplayNothing(stream, records);
    for i := 0 to |records|
      invariant Replay(stream, EmptyTables, Mutations(records)[..i]) == Ok(tables)
      invariant applied == before + AppliedUpTo(records[..i])
    {
      ReplayStep(stream, records, i);
      outcome := ApplyMutation(stream, tables, records[i].mutation);
      if outcome.Err? {
        RefusedPrefix(stream, records, i + 1);
        return;
      }
      tables := outcome.value;
      AppliedStep(before, records, i);
      applied := applied[i + 1 := records[i].digest];
    }
    assert Mutations(records)[..|records|] == Mutations(records) && records[..|records|] == records;
    outcome := Ok(tables);
  }

  /** Any refusal rolls the whole transaction back. */
  method ImportPairSnapshotBundle(w: H.Wire, db: PgReceiverDatabase, b: Bundle, signed: set<Manifest>)
    returns (error: Option<SnapshotError>)
    modifies db
    ensures match Import(w, old(db.View()), b, signed)
            case Err(e) => error == Some(e) && db.View() == old(db.View())
            case Ok(v) => error == None && db.View() == v
  {
    hide Verified, ApplyMutation, Replay, AppliedUpTo;
    var verified := VerifyBundle(w, b, signed);
    if !verified { return Some(BadHistory); }
    if db.tables != EmptyTables { return Some(NotEmpty); }
    if db.stream != b.manifest.stream || db.epoch != b.manifest.sourceEpoch || db.checkpoint != 0 { return Some(NotGenesis); }
    var outcome, applied := ApplyRecords(db.stream, b.records, db.applied);
    if outcome.Err? { return Some(Refused(outcome.error)); }
    if exists n :: n in db.applied && 1 <= n <= |b.records| { return Some(DuplicateApplied); }
    if StateDigest(outcome.value) != b.manifest.state { return Some(StateMismatch); }
    db.tables, db.applied, db.checkpoint := outcome.value, applied, |b.records|;
    return None;
  }

  lemma ReplayNothing(stream: string, records: seq<Record>)
    ensures Replay(stream, EmptyTables, Mutations(records)[..0]) == Ok(EmptyTables)
  {
  }

  // ---- The promotion transaction ----

  /** The comparison of the applied-history rows with the bundle's records, in sequence order. */
  method AppliedHistoryMatches(applied: map<nat, Digest>, records: seq<Record>) returns (ok: bool)
    ensures ok <==> AppliedMatches(applied, records)
  {
    if 0 in applied { return false; }
    for i := 0 to |records|
      invariant forall j :: 0 <= j < i ==> AppliedRow(applied, records[j], j + 1)
    {
      if !AppliedRow(applied, records[i], i + 1) { return false; }
    }
    return true;
  }

  class NodeDatabase {
    var receiver: Receiver
    var source: Option<Source>
    var promotions: map<int, PromotionReceipt>

    constructor (receiver: Receiver)
      ensures View() == Node(receiver, None, map[])
    {
      this.receiver, source, promotions := receiver, None, map[];
    }

    function View(): Node
      reads this
    {
      Node(receiver, source, promotions)
    }

    /** promoteReceiverToSource: the fence row, the source checkpoint and the receipt change together or not at all. */
    method PromoteReceiverToSource(w: H.Wire, b: Bundle, signed: set<Manifest>, targetEpoch: int, targetSourceEpoch: string,
                                   f: Fencing, guardSigned: set<Fencing>) returns (error: Option<SnapshotError>)
      modifies this
      ensures match Promote(w, old(View()), b, signed, targetEpoch, targetSourceEpoch, f, guardSigned)
              case Err(e) => error == Some(e) && View() == old(View())
              case Ok(n) => error == None && View() == n
    {
      hide Verified, AppliedMatches;
      var m := b.manifest;
      var verified := VerifyBundle(w, b, signed);
      if !verified || !(1 <= targetEpoch <= MAX_EPOCH) || !EpochText(targetSourceEpoch) || f !in guardSigned { return Some(BadManifest); }
      if !Binds(f, m, targetEpoch, targetSourceEpoch) || receiver.stream != m.stream { return Some(NotBound); }
      if targetEpoch in promotions {
        if promotions[targetEpoch] != PromotionReceipt(m, f) || receiver.fence != Some(targetEpoch)
           || source.None? || source.value.epoch != targetSourceEpoch { return Some(RetryConflict); }
        return None;
      }
      if receiver.epoch != m.sourceEpoch || receiver.checkpoint != m.finalSequence { return Some(TailMissing); }
      var same := AppliedHistoryMatches(receiver.applied, b.records);
      if !same { return Some(HistoryMismatch); }
      if StateDigest(receiver.tables) != m.state { return Some(StateMismatch); }
      if receiver.fence.None? || receiver.fence.value >= targetEpoch { return Some(FenceNotAdvanced); }
      if source.Some? && source.value.sequence != 0 { return Some(SourceInUse); }
      receiver := receiver.(fence := Some(targetEpoch));
      source := Some(FreshSource(receiver, targetSourceEpoch, targetEpoch));
      promotions := promotions[targetEpoch := PromotionReceipt(m, f)];
      return None;
    }
  }
}
