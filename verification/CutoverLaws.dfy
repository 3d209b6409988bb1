/**
 * Exactly when each control transaction goes through on a lawful control database, what it leaves there, and that a
 * cutover for which all the evidence is there completes.
 */
module CutoverLaws {
  import opened Wrappers
  import opened LeaseChain
  import Q = Quorum
  import opened Cutover

  /** The intent's own numbers. */
  predicate Sound(v: Intent) {
    && 0 <= v.previousEpoch && v.targetEpoch == v.previousEpoch + 1 <= MAX_EPOCH
    && 0 <= v.finalSequence <= MAX_SAFE && 0 <= v.oldLeaseExpiresAt <= MAX_MS && 1 <= v.window <= MAX_WINDOW_MS
  }

  /** No cutover is under way, and this one continues the last. */
  predicate InTurn(c: Control, v: Intent) {
    match c.head
    case None => true
    case Some(h) => h.phase == Activated && v.previousEpoch == h.intent.targetEpoch
  }

  function WitnessAt(c: Control): int {
    match c.mark case None => 0 case Some(w) => w.epoch
  }

  function Link(c: Control): Option<Hash> {
    match c.head case None => None case Some(h) => Some(ReceiptHash(h))
  }

  /** A receipt appended to the history becomes its head. */
  predicate Appended(c: Control, after: Control, r: Receipt) {
    after.head == Some(r) && after.history == c.history + [r] && after.leases == c.leases
  }

  lemma NothingStored(c: Control, r: Receipt)
    requires ControlOk(c)
    requires |c.history| > 0 ==> Key(r) > Key(c.history[|c.history| - 1])
    ensures !Stored(c.history, Key(r))
  {
    hide WitnessOk, FencedOk, ChainOk;
    var n := |c.history|;
    forall i | 0 <= i < n ensures Key(c.history[i]) != Key(r) {
      KeysIncrease(c.history, i);
      KeysIncrease(c.history, n - 1);
    }
  }

  /**
   * A cutover begins exactly when its numbers are sound, none is under way and it continues the last, and the witness
   * stands at its previous epoch; its PREPARING receipt, linked to the head, is then all that is added.
   */
  lemma BeginsExactly(c: Control, v: Intent)
    requires ControlOk(c) && !(c.head.Some? && c.head.value.intent == v)
    ensures Begin(c, v).Ok? <==> Sound(v) && InTurn(c, v) && WitnessAt(c) == v.previousEpoch
    ensures Begin(c, v).Ok? ==>
              var (after, r) := Begin(c, v).value;
              && r == Receipt(v, Preparing, Link(c)) && Appended(c, after, r)
              && after.mark == (if c.mark == None then Some(Witness(0, Zeros)) else c.mark)
    ensures Begin(c, v) == Err(AnotherIntent) <==> !InTurn(c, v)
    ensures Begin(c, v) == Err(WitnessMismatch) <==> InTurn(c, v) && WitnessAt(c) != v.previousEpoch
  {
    if Sound(v) && InTurn(c, v) {
      NothingStored(c, Receipt(v, Preparing, HashOf(c.head)));
    }
    hide ControlOk, Stored;
  }

  /** The old lease, revoked, is the one the intent names. */
  predicate RevokedAsNamed(c: Control, v: Intent) {
    |c.leases| > 0 &&
    var g := c.leases[|c.leases| - 1];
    g.status == Revoked && v.oldLease == LeaseDigest(g) && g.epoch == v.previousEpoch
    && g.expiresAt == v.oldLeaseExpiresAt && g.window == v.window
  }

  /** The majority's record is the claim the intent names. */
  predicate ClaimedAsNamed(quorum: Option<Q.FenceRecord>, v: Intent) {
    match quorum
    case None => false
    case Some(r) => r.epoch == v.targetEpoch && r.nodeId == v.targetNode && r.commandId == v.commandId && v.redisClaim == RecordHash(r)
  }

  predicate Evident(c: Control, v: Intent, now: int, skew: nat, quorum: Option<Q.FenceRecord>) {
    RevokedAsNamed(c, v) && now >= v.oldLeaseExpiresAt + skew + v.window && ClaimedAsNamed(quorum, v)
  }

  /**
   * A PREPARING cutover is fenced exactly on its own command and on all the evidence: the old lease revoked as named
   * and proven expired, and the majority's claim; the witness then moves to the target epoch with the receipt.
   */
  lemma FencesExactly(c: Control, id: string, now: int, skew: nat, quorum: Option<Q.FenceRecord>)
    requires ControlOk(c) && c.head.Some? && c.head.value.phase == Preparing
    ensures var v := c.head.value.intent;
            && (MarkFenced(c, id, now, skew, quorum).Ok? <==> id == v.commandId && Evident(c, v, now, skew, quorum))
            && (MarkFenced(c, id, now, skew, quorum).Ok? ==>
                  var (after, r) := MarkFenced(c, id, now, skew, quorum).value;
                  && r == Receipt(v, Fenced, Link(c)) && Appended(c, after, r)
                  && after.mark == Some(Witness(v.targetEpoch, ReceiptHash(r))))
  {
    NothingStored(c, Receipt(c.head.value.intent, Fenced, Link(c)));
    assert ReceiptOk(c.history, |c.history| - 1);
    hide Stored, VerifyChain, HistoryOk, FencedOk, ChainOk;
  }

  /** A cutover becomes ACTIVE exactly on its own command once it is FENCED; the witness stays where it is. */
  lemma ActivatesExactly(c: Control, id: string)
    requires ControlOk(c)
    ensures MarkActive(c, id).Ok? <==> c.head.Some? && c.head.value.intent.commandId == id && c.head.value.phase != Preparing
    ensures MarkActive(c, id).Ok? ==>
              var (after, r) := MarkActive(c, id).value;
              if c.head.value.phase == Activated then after == c && r == c.head.value
              else r == Receipt(c.head.value.intent, Activated, Link(c)) && Appended(c, after, r) && after.mark == c.mark
  {
    if c.head.Some? && c.head.value.phase == Fenced { NothingStored(c, Receipt(c.head.value.intent, Activated, Link(c))); }
    hide Stored, HistoryOk, FencedOk, ChainOk, WitnessOk;
  }

  /** Genesis is installed exactly once, for a record of epoch 1, while nothing has moved the witness. */
  lemma BootstrapsExactly(c: Control, record: Q.FenceRecord)
    ensures Bootstrap(c, record).Ok? <==>
              record.epoch == 1 && (c.mark == None || c.mark == Some(Witness(1, RecordHash(record))))
    ensures Bootstrap(c, record).Ok? ==> Bootstrap(c, record).value == c.(mark := Some(Witness(1, RecordHash(record))))
  {
  }

  /** The three steps of a cutover in turn. */
  function Complete(c: Control, v: Intent, now: int, skew: nat, quorum: Option<Q.FenceRecord>): Control {
    Next(Next(Next(c, BeginCutover(v)), Fence(v.commandId, now, skew, quorum)), Activate(v.commandId))
  }

  /**
   * A cutover whose numbers are sound, that is in turn, and for which the evidence is there, completes: three receipts
   * are added, ACTIVE is the head and the witness stands at the target epoch, from where the next cutover can begin.
   */
  lemma CutoversComplete(c: Control, v: Intent, now: int, skew: nat, quorum: Option<Q.FenceRecord>)
    requires ControlOk(c) && Sound(v) && InTurn(c, v) && WitnessAt(c) == v.previousEpoch && Evident(c, v, now, skew, quorum)
    requires !(c.head.Some? && c.head.value.intent == v)
    ensures var after := Complete(c, v, now, skew, quorum);
            && ControlOk(after) && |after.history| == |c.history| + 3
            && after.head.Some? && after.head.value.phase == Activated && after.head.value.intent == v
            && WitnessAt(after) == v.targetEpoch
            && forall w: Intent :: Sound(w) && w.previousEpoch == v.targetEpoch ==> Begin(after, w).Ok?
  {
    hide ControlOk, Begin, MarkFenced, MarkActive, Sound;
    BeginsExactly(c, v);
    NextKeeps(c, BeginCutover(v));
    var begun := Next(c, BeginCutover(v));
    FencesExactly(begun, v.commandId, now, skew, quorum);
    NextKeeps(begun, Fence(v.commandId, now, skew, quorum));
    var fenced := Next(begun, Fence(v.commandId, now, skew, quorum));
    ActivatesExactly(fenced, v.commandId);
    NextKeeps(fenced, Activate(v.commandId));
    var after := Next(fenced, Activate(v.commandId));
    forall w: Intent | Sound(w) && w.previousEpoch == v.targetEpoch ensures Begin(after, w).Ok? {
      if w != v { BeginsExactly(after, w); } else { SoundNumbers(w); }
    }
  }

  lemma SoundNumbers(v: Intent)
    requires Sound(v)
    ensures v.previousEpoch != v.targetEpoch
  {
  }

  /** On any control database, lawful or not, a transaction that adds a receipt adds one whose epoch and phase no other has. */
  lemma NoReceiptTwice(c: Control, step: Step)
    ensures var after := Next(c, step).history;
            after != c.history ==>
              && |after| == |c.history| + 1 && after[..|c.history|] == c.history
              && forall i :: 0 <= i < |c.history| ==>
                   !(c.history[i].intent.targetEpoch == after[|c.history|].intent.targetEpoch && c.history[i].phase == after[|c.history|].phase)
  {
    hide VerifyChain, Install, FenceEvidence;
    var after := Next(c, step).history;
    if after != c.history {
      forall i | 0 <= i < |c.history| ensures Key(c.history[i]) != Key(after[|c.history|]) {}
    }
  }

  /** On any control database a FENCED receipt is added only while the witness stands at the epoch it ends. */
  lemma FencingNeedsTheWitness(c: Control, id: string, now: int, skew: nat, quorum: Option<Q.FenceRecord>)
    requires MarkFenced(c, id, now, skew, quorum).Ok? && MarkFenced(c, id, now, skew, quorum).value.0.history != c.history
    ensures c.head.Some? && c.mark.Some? && c.mark.value.epoch == c.head.value.intent.previousEpoch
  {
    hide VerifyChain, FenceEvidence, Stored;
  }

  /** A receipt in its place: sound, and linked to the one before. */
  predicate InPlace(rows: seq<Receipt>, i: nat)
    requires i < |rows|
  {
    Sound(rows[i].intent) && rows[i].prev == if i == 0 then None else Some(ReceiptHash(rows[i - 1]))
  }

  lemma {:induction false} LinkedByIndex(rows: seq<Receipt>, from: nat)
    requires from <= |rows|
    ensures LinkedFrom(rows[from..], if from == 0 then None else Some(ReceiptHash(rows[from - 1]))) <==>
              forall i :: from <= i < |rows| ==> InPlace(rows, i)
    decreases |rows| - from
  {
    if from < |rows| {
      LinkedByIndex(rows, from + 1);
      assert rows[from..][1..] == rows[from + 1..];
      assert (forall i :: from <= i < |rows| ==> InPlace(rows, i)) <==>
             InPlace(rows, from) && forall i :: from + 1 <= i < |rows| ==> InPlace(rows, i);
    }
  }

  /** A database verifies exactly when its receipts, in key order, are linked from none, and its head row is the last of them. */
  lemma VerifiesExactly(c: Control)
    ensures VerifyChain(c).Ok? <==>
              && (forall i :: 0 <= i < |c.history| ==> InPlace(Sorted(c.history), i))
              && c.head == if |c.history| == 0 then None else Some(Sorted(c.history)[|c.history| - 1])
    ensures VerifyChain(c).Ok? ==> VerifyChain(c).value == c.head
  {
    var rows := Sorted(c.history);
    LinkedByIndex(rows, 0);
    assert rows[0..] == rows;
    if |rows| > 0 && LinkedFrom(rows, None) { assert InPlace(rows, |rows| - 1); }
    hide Sorted, LinkedFrom;
  }

  predicate InKeyOrder(rows: seq<Receipt>) {
    forall i, j :: 0 <= i < j < |rows| ==> Key(rows[i]) <= Key(rows[j])
  }

  lemma {:induction false} InsertsInOrder(rows: seq<Receipt>, r: Receipt)
    requires InKeyOrder(rows)
    ensures InKeyOrder(Inserted(rows, r)) && multiset(Inserted(rows, r)) == multiset(rows) + multiset{r}
    ensures forall k :: 0 <= k < |rows| + 1 ==> Inserted(rows, r)[k] == r || Inserted(rows, r)[k] in rows
  {
    hide Key;
    if |rows| > 0 {
      var front, last := rows[..|rows| - 1], rows[|rows| - 1];
      assert rows == front + [last];
      if Key(last) > Key(r) {
        InsertsInOrder(front, r);
        var s := Inserted(front, r);
        forall k | 0 <= k < |s| ensures Key(s[k]) <= Key(last) {
          if s[k] != r { var j :| 0 <= j < |front| && front[j] == s[k]; assert rows[j] == s[k]; }
        }
      }
    }
  }

  /** The query's order: all the receipts, by target epoch and then by phase. */
  lemma {:induction false} SortsByKey(rows: seq<Receipt>)
    ensures InKeyOrder(Sorted(rows)) && multiset(Sorted(rows)) == multiset(rows)
  {
    if |rows| > 0 {
      SortsByKey(rows[..|rows| - 1]);
      InsertsInOrder(Sorted(rows[..|rows| - 1]), rows[|rows| - 1]);
      assert rows == rows[..|rows| - 1] + [rows[|rows| - 1]];
    }
    hide Inserted;
  }
}
