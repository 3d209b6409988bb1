/**
 * Exactly when a snapshot is built, verified, imported and promoted on, and what each leaves behind, field by
 * field; and that a signed manifest names one bundle.
 */
module PromotionLaws {
  import opened Wrappers
  import opened PairReplica
  import opened Outbox
  import opened LeaseChain
  import opened Snapshot
  import CanonicalWalk
  import H = HistoryText

  /** The source authority's record at a place of a bundle. */
  predicate RecordAt(b: Bundle, i: nat)
    requires i < |b.records|
  {
    var r := b.records[i];
    && r.stream == b.manifest.stream && r.epoch == b.manifest.sourceEpoch && r.sequence == i + 1
    && HeaderOk(r.stream, r.epoch, r.sequence, r.fence) && Sanitized(r.mutation)
    && r.digest == OpDigest(b.manifest.stream, b.manifest.sourceEpoch, i + 1, r.fence, r.mutation)
  }

  /** A bundle verifies exactly when a signed, well-formed manifest names its records, and each is genuine at its place. */
  lemma VerifiesExactly(w: H.Wire, b: Bundle, signed: set<Manifest>)
    ensures Verified(w, b, signed) <==>
              && b.manifest in signed
              && StreamText(b.manifest.stream) && EpochText(b.manifest.sourceEpoch) && SystemText(b.manifest.sourceSystemId)
              && 0 <= b.manifest.issuedAt <= MAX_MS
              && b.manifest.finalSequence == |b.records| <= MAX_SAFE && b.manifest.history.records == b.records
              && H.Fits(w, b.records)
              && forall i :: 0 <= i < |b.records| ==> RecordAt(b, i)
  {
    hide CanonicalWalk.Accepted, H.HistoryJson, H.Fits, Sanitized, StreamText, EpochText, SystemText, HeaderOk;
    H.AcceptedExactlyWhenFitting(w, b.records);
    forall i | 0 <= i < |b.records| ensures RecordAt(b, i) <==> RecordMatches(b.records[i], b.manifest, i + 1) {}
  }

  /** Nobody without the key can make another bundle verify under a signed manifest. */
  lemma ManifestNamesOneBundle(w: H.Wire, b: Bundle, c: Bundle, signed: set<Manifest>)
    requires Verified(w, b, signed) && Verified(w, c, signed) && b.manifest == c.manifest
    ensures b == c
  {
    hide H.Fits;
    VerifiesExactly(w, b, signed);
    VerifiesExactly(w, c, signed);
  }

  /** A snapshot is built exactly at the sequence the locked checkpoint shows, over a complete history that fits. */
  lemma BuildsExactly(w: H.Wire, a: PairStore.Authority, through: int, systemId: string, issuedAt: int)
    ensures Build(w, a, through, systemId, issuedAt).Ok? <==>
              && StreamText(a.source.stream) && 0 <= issuedAt <= MAX_MS
              && through == a.source.sequence == |a.source.rows| && H.Fits(w, Records(a.source.rows))
              && forall i :: 0 <= i < |a.source.rows| ==> a.source.rows[i].record.sequence == i + 1
    ensures Build(w, a, through, systemId, issuedAt).Ok? ==>
              var b := Build(w, a, through, systemId, issuedAt).value;
              && b.records == Records(a.source.rows) && b.manifest.history.records == b.records
              && b.manifest.state.tables == a.tables && b.manifest.finalSequence == through
              && b.manifest.stream == a.source.stream && b.manifest.sourceEpoch == a.source.epoch
              && b.manifest.sourceSystemId == systemId && b.manifest.issuedAt == issuedAt
  {
    hide CanonicalWalk.Accepted, H.HistoryJson, H.Fits, StreamText;
    H.AcceptedExactlyWhenFitting(w, Records(a.source.rows));
  }

  /** An import succeeds exactly at an empty genesis receiver of the stream and epoch whose replay ends in the signed state. */
  lemma ImportsExactly(w: H.Wire, v: Receiver, b: Bundle, signed: set<Manifest>)
    ensures Import(w, v, b, signed).Ok? <==>
              && Verified(w, b, signed)
              && v.stream == b.manifest.stream && v.epoch == b.manifest.sourceEpoch && v.checkpoint == 0
              && v.tables.pairs == map[] && v.tables.pending == map[]
              && (forall n :: 1 <= n <= |b.records| ==> n !in v.applied)
              && Replay(v.stream, Tables(map[], map[]), Mutations(b.records)) == Ok(b.manifest.state.tables)
    ensures Import(w, v, b, signed).Ok? ==>
              var v' := Import(w, v, b, signed).value;
              && v' == v.(tables := b.manifest.state.tables, checkpoint := |b.records|, applied := v'.applied)
              && (forall n :: n in v'.applied <==> n in v.applied || 1 <= n <= |b.records|)
              && (forall n :: 1 <= n <= |b.records| ==> v'.applied[n] == b.records[n - 1].digest)
              && forall n :: n in v.applied ==> v'.applied[n] == v.applied[n]
  {
    hide Verified, ApplyMutation, Replay;
    var applied := AppliedUpTo(b.records);
    assert forall n :: n in applied.Keys <==> 1 <= n <= |b.records|;
  }

  /** The guard's FENCED receipt is for this promotion on this bundle. */
  predicate FencedFor(f: Fencing, b: Bundle, targetEpoch: int, targetSourceEpoch: string) {
    && f.fenced
    && f.stream == b.manifest.stream
    && f.targetEpoch == targetEpoch
    && f.targetSourceEpoch == targetSourceEpoch
    && f.manifest == b.manifest
    && f.finalSequence == b.manifest.finalSequence
    && f.state == b.manifest.state
  }

  /**
   * A first promotion to an epoch goes through exactly when guard and source have signed for it, the receiver
   * holds the whole bundle and nothing else, its fence is behind the epoch, and its source side has no rows;
   * fence, source checkpoint and receipt are then all that changed.
   */
  lemma PromotesExactly(w: H.Wire, n: Node, b: Bundle, signed: set<Manifest>, targetEpoch: int, targetSourceEpoch: string,
                        f: Fencing, guardSigned: set<Fencing>)
    requires targetEpoch !in n.promotions
    ensures Promote(w, n, b, signed, targetEpoch, targetSourceEpoch, f, guardSigned).Ok? <==>
              && Verified(w, b, signed) && f in guardSigned && FencedFor(f, b, targetEpoch, targetSourceEpoch)
              && 1 <= targetEpoch <= MAX_EPOCH && EpochText(targetSourceEpoch)
              && n.receiver.stream == b.manifest.stream && n.receiver.epoch == b.manifest.sourceEpoch
              && n.receiver.checkpoint == |b.records| && n.receiver.tables == b.manifest.state.tables
              && 0 !in n.receiver.applied
              && HoldsDigests(n.receiver.applied, b.records)
              && n.receiver.fence.Some? && n.receiver.fence.value < targetEpoch
              && (n.source.Some? ==> n.source.value.sequence == 0)
    ensures Promote(w, n, b, signed, targetEpoch, targetSourceEpoch, f, guardSigned).Ok? ==>
              Promote(w, n, b, signed, targetEpoch, targetSourceEpoch, f, guardSigned).value ==
                Node(n.receiver.(fence := Some(targetEpoch)),
                     Some(Source(n.receiver.stream, targetSourceEpoch, 0, Some(targetEpoch), [], map[], None, None)),
                     n.promotions[targetEpoch := PromotionReceipt(b.manifest, f)])
  {
    hide Verified, EpochText, StreamText;
    SameLength(w, b, signed);
    HoldsExactly(n.receiver.applied, b.records);
    hide AppliedMatches, HoldsDigests;
  }

  /** The applied-history rows are those of the records, in order. */
  predicate HoldsDigests(applied: map<nat, Digest>, records: seq<Record>) {
    forall i :: 0 <= i < |records| ==> HoldsDigest(applied, records[i].digest, i + 1)
  }

  predicate HoldsDigest(applied: map<nat, Digest>, d: Digest, n: nat) {
    n in applied && applied[n] == d
  }

  lemma HoldsExactly(applied: map<nat, Digest>, records: seq<Record>)
    ensures AppliedMatches(applied, records) <==> 0 !in applied && HoldsDigests(applied, records)
  {
    if AppliedMatches(applied, records) {
      forall i | 0 <= i < |records| ensures HoldsDigest(applied, records[i].digest, i + 1) {
        assert AppliedRow(applied, records[i], i + 1);
      }
    }
    if 0 !in applied && HoldsDigests(applied, records) {
      forall i | 0 <= i < |records| ensures AppliedRow(applied, records[i], i + 1) {
        assert HoldsDigest(applied, records[i].digest, i + 1);
      }
    }
  }

  lemma SameLength(w: H.Wire, b: Bundle, signed: set<Manifest>)
    ensures Verified(w, b, signed) ==> b.manifest.finalSequence == |b.records|
  {
    hide CanonicalWalk.Accepted, H.HistoryJson, Sanitized, EpochText, StreamText;
  }

  /**
   * A retry of a promotion on record succeeds exactly when manifest and receipt are the recorded ones and the node
   * still stands where the promotion left it, and it changes nothing.
   */
  lemma RetriesExactly(w: H.Wire, n: Node, b: Bundle, signed: set<Manifest>, targetEpoch: int, targetSourceEpoch: string,
                       f: Fencing, guardSigned: set<Fencing>)
    requires targetEpoch in n.promotions
    ensures Promote(w, n, b, signed, targetEpoch, targetSourceEpoch, f, guardSigned).Ok? <==>
              && Verified(w, b, signed) && f in guardSigned && FencedFor(f, b, targetEpoch, targetSourceEpoch)
              && 1 <= targetEpoch <= MAX_EPOCH && EpochText(targetSourceEpoch) && n.receiver.stream == b.manifest.stream
              && n.promotions[targetEpoch].manifest == b.manifest && n.promotions[targetEpoch].fencing == f
              && n.receiver.fence == Some(targetEpoch)
              && n.source.Some? && n.source.value.epoch == targetSourceEpoch
    ensures Promote(w, n, b, signed, targetEpoch, targetSourceEpoch, f, guardSigned).Ok? ==>
              Promote(w, n, b, signed, targetEpoch, targetSourceEpoch, f, guardSigned).value == n
  {
    hide Verified, EpochText, StreamText;
  }
}
