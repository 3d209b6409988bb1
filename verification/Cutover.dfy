/**
 * The cutover history and the epoch witness of packages/server/src/bpc-ha-final.ts, for one stream:
 * BpcCutoverController, verifyCutoverChain and PgRedisFenceWitness. Each transaction on the control
 * database is one step. Digests are terms, so they are injective and frames of different kinds never meet.
 */
module Cutover {
  import opened Wrappers
  import opened LeaseChain
  import opened Quorum

  datatype Phase = Preparing | Fenced | Activated

  /** What a cutover asks for; it is copied unchanged into every receipt of that cutover. */
  datatype Intent = Intent(
    commandId: string,
    previousEpoch: int,
    targetEpoch: int,
    targetNode: string,
    targetSourceEpoch: string,
    manifest: string,
    finalSequence: int,
    state: string,
    redisClaim: Hash,
    oldLease: LeaseDigest,
    oldLeaseExpiresAt: int,
    window: int)

  datatype Receipt = Receipt(intent: Intent, phase: Phase, prev: Option<Hash>)

  datatype Hash = Zeros | RecordHash(record: FenceRecord) | ReceiptHash(receipt: Receipt)

  datatype Witness = Witness(epoch: int, digest: Hash)

  datatype Control = Control(
    leases: seq<Grant>,
    mark: Option<Witness>,
    head: Option<Receipt>,
    history: seq<Receipt>)

  datatype CutoverError =
    | MalformedIntent
    | AnotherIntent
    | WitnessMismatch
    | DuplicateReceipt
    | IntentMissing
    | OutOfOrder
    | LeaseMissing
    | LeaseNotRevoked
    | TooEarly
    | NoQuorum
    | RedisMismatch
    | BrokenChain
    | WitnessLost
    | GenesisConflict

  /** validateBareCutover, apart from the shapes of identifiers. */
  predicate ValidIntent(v: Intent) {
    && 0 <= v.previousEpoch <= MAX_EPOCH - 1
    && 1 <= v.targetEpoch <= MAX_EPOCH
    && v.targetEpoch == v.previousEpoch + 1
    && 0 <= v.finalSequence <= MAX_SAFE
    && 0 <= v.oldLeaseExpiresAt <= MAX_MS
    && 1 <= v.window <= MAX_WINDOW_MS
  }

  function Rank(p: Phase): nat {
    match p case Preparing => 0 case Fenced => 1 case Activated => 2
  }

  /** ORDER BY target_epoch, phase rank. */
  function Key(r: Receipt): int {
    3 * r.intent.targetEpoch + Rank(r.phase)
  }

  predicate Stored(history: seq<Receipt>, key: int) {
    exists i :: 0 <= i < |history| && Key(history[i]) == key
  }

  function HashOf(r: Option<Receipt>): Option<Hash> {
    match r case None => None case Some(x) => Some(ReceiptHash(x))
  }

  function WitnessEpoch(c: Control): int {
    if c.mark.Some? then c.mark.value.epoch else 0
  }

  // ---- verifyCutoverChain ----

  predicate LinkedFrom(rows: seq<Receipt>, prev: Option<Hash>)
    decreases |rows|
  {
    |rows| == 0 || (rows[0].prev == prev && ValidIntent(rows[0].intent) && LinkedFrom(rows[1..], Some(ReceiptHash(rows[0]))))
  }

  /** The rows in key order, as the query returns them. */
  function Sorted(rows: seq<Receipt>): (s: seq<Receipt>)
    ensures |s| == |rows|
  {
    if |rows| == 0 then [] else Inserted(Sorted(rows[..|rows| - 1]), rows[|rows| - 1])
  }

  function Inserted(rows: seq<Receipt>, r: Receipt): (s: seq<Receipt>)
    ensures |s| == |rows| + 1
  {
    if |rows| == 0 || Key(rows[|rows| - 1]) <= Key(r) then rows + [r]
    else Inserted(rows[..|rows| - 1], r) + [rows[|rows| - 1]]
  }

  /** verifyCutoverChain: the verified head, or none when there is no history. */
  function VerifyChain(c: Control): Result<Option<Receipt>, CutoverError> {
    var rows := Sorted(c.history);
    if !LinkedFrom(rows, None) then Err(BrokenChain)
    else if c.head.None? then (if |rows| == 0 then Ok(None) else Err(BrokenChain))
    else if |rows| == 0 || c.head.value != rows[|rows| - 1] || !ValidIntent(c.head.value.intent) then Err(BrokenChain)
    else Ok(c.head)
  }

  // ---- The transactions ----

  /** BpcCutoverController.begin. */
  function Begin(c: Control, input: Intent): Result<(Control, Receipt), CutoverError> {
    if c.head.Some? && c.head.value.intent == input then Ok((c, c.head.value))
    else if c.head.Some? && (c.head.value.phase != Activated || input.previousEpoch != c.head.value.intent.targetEpoch) then
      Err(AnotherIntent)
    else if WitnessEpoch(c) != input.previousEpoch then Err(WitnessMismatch)
    else if !ValidIntent(input) then Err(MalformedIntent)
    else
      var r := Receipt(input, Preparing, HashOf(c.head));
      if Stored(c.history, Key(r)) then Err(DuplicateReceipt)
      else
        var mark := if c.mark.None? then Some(Witness(0, Zeros)) else c.mark;
        Ok((c.(mark := mark, head := Some(r), history := c.history + [r]), r))
  }

  /** Whether the old lease is exactly the revoked one the intent names. */
  predicate ExactlyRevoked(lease: Grant, v: Intent) {
    && lease.status == Revoked
    && LeaseDigest(lease) == v.oldLease
    && lease.epoch == v.previousEpoch
    && lease.expiresAt == v.oldLeaseExpiresAt
    && lease.window == v.window
  }

  predicate ClaimMatches(r: FenceRecord, v: Intent) {
    && r.epoch == v.targetEpoch
    && r.nodeId == v.targetNode
    && r.commandId == v.commandId
    && RecordHash(r) == v.redisClaim
  }

  /** The evidence transition(FENCED) demands: the revoked lease, its expiry proven on the control clock, the quorum. */
  function FenceEvidence(c: Control, v: Intent, now: int, skew: nat, quorum: Option<FenceRecord>): Option<CutoverError> {
    var lease := Head(c.leases);
    if lease.None? then Some(LeaseMissing)
    else if !ExactlyRevoked(lease.value, v) then Some(LeaseNotRevoked)
    else if now < lease.value.expiresAt + skew + v.window then Some(TooEarly)
    else if quorum.None? then Some(NoQuorum)
    else if !ClaimMatches(quorum.value, v) then Some(RedisMismatch)
    else None
  }

  /** markFenced. */
  function MarkFenced(c: Control, commandId: string, now: int, skew: nat, quorum: Option<FenceRecord>)
    : Result<(Control, Receipt), CutoverError>
  {
    if c.head.None? || c.head.value.intent.commandId != commandId then Err(IntentMissing) else
    var current := c.head.value;
    var refusal := FenceEvidence(c, current.intent, now, skew, quorum);
    if refusal.Some? then Err(refusal.value)
    else if current.phase != Preparing then
      (if VerifyChain(c) == Ok(Some(current)) && c.mark == Some(Witness(current.intent.targetEpoch, ReceiptHash(current)))
       then Ok((c, current))
       else Err(WitnessLost))
    else
      var r := Receipt(current.intent, Fenced, Some(ReceiptHash(current)));
      if Stored(c.history, Key(r)) then Err(DuplicateReceipt)
      else if c.mark.None? || c.mark.value.epoch != current.intent.previousEpoch then Err(WitnessLost)
      else Ok((c.(mark := Some(Witness(current.intent.targetEpoch, ReceiptHash(r))), head := Some(r), history := c.history + [r]), r))
  }

  /** transition(ACTIVE), the last transaction of markActive. */
  function MarkActive(c: Control, commandId: string): Result<(Control, Receipt), CutoverError> {
    if c.head.None? || c.head.value.intent.commandId != commandId then Err(IntentMissing) else
    var current := c.head.value;
    if current.phase == Activated then Ok((c, current))
    else if current.phase != Fenced then Err(OutOfOrder)
    else
      var r := Receipt(current.intent, Activated, Some(ReceiptHash(current)));
      if Stored(c.history, Key(r)) then Err(DuplicateReceipt)
      else Ok((c.(head := Some(r), history := c.history + [r]), r))
  }

  /** bootstrapGenesis of an authentic record. */
  function Bootstrap(c: Control, record: FenceRecord): Result<Control, CutoverError> {
    if record.epoch != 1 then Err(GenesisConflict)
    else if c.mark.None? then Ok(c.(mark := Some(Witness(1, RecordHash(record)))))
    else if c.mark.value == Witness(1, RecordHash(record)) then Ok(c)
    else Err(GenesisConflict)
  }

  /** PgRedisFenceWitness.verify: does the witness accept this quorum record? */
  predicate WitnessAccepts(c: Control, record: FenceRecord) {
    var epoch := WitnessEpoch(c);
    if epoch == 0 then false
    else if record.epoch == epoch && epoch == 1 && c.head.None? then c.mark.value.digest == RecordHash(record)
    else if c.head.None? then false
    else if !(VerifyChain(c).Ok? && VerifyChain(c).value.Some?) then false
    else
      var head := VerifyChain(c).value.value;
      if record.epoch == epoch then
        exists i :: 0 <= i < |c.history| && c.history[i].intent.targetEpoch == epoch && c.history[i].phase == Fenced
                    && c.mark.value.digest == ReceiptHash(c.history[i]) && c.history[i].intent.redisClaim == RecordHash(record)
      else
        record.epoch == epoch + 1 && head.phase == Preparing && head.intent.targetEpoch == record.epoch
        && head.intent.redisClaim == RecordHash(record)
  }

  // ---- What a lawful history is ----

  function PhaseAt(i: nat): Phase {
    if i % 3 == 0 then Preparing else if i % 3 == 1 then Fenced else Activated
  }

  /** Receipt i belongs to cutover i / 3, in phase i % 3, of consecutive target epochs. */
  predicate ReceiptOk(history: seq<Receipt>, i: nat)
    requires i < |history|
  {
    && ValidIntent(history[i].intent)
    && history[i].phase == PhaseAt(i)
    && history[i].intent.targetEpoch == history[0].intent.targetEpoch + i / 3
    && history[i].prev == (if i == 0 then None else Some(ReceiptHash(history[i - 1])))
    && (i % 3 != 0 ==> history[i].intent == history[i - 1].intent)
  }

  ghost predicate HistoryOk(history: seq<Receipt>) {
    forall i :: 0 <= i < |history| ==> ReceiptOk(history, i)
  }

  /** The FENCED receipt of the last completed fencing, or none. */
  function LastFenced(history: seq<Receipt>): Option<Receipt> {
    if |history| == 0 then None
    else if |history| % 3 == 1 then (if |history| >= 3 then Some(history[|history| - 3]) else None)
    else if |history| % 3 == 2 then Some(history[|history| - 1])
    else Some(history[|history| - 2])
  }

  predicate WitnessOk(mark: Option<Witness>, history: seq<Receipt>) {
    if |history| == 0 then
      mark.Some? ==> mark.value.epoch == 1 && mark.value.digest.RecordHash? && mark.value.digest.record.epoch == 1
    else
      var last := history[|history| - 1];
      && mark.Some?
      && mark.value.epoch == (if last.phase == Preparing then last.intent.previousEpoch else last.intent.targetEpoch)
      && (if LastFenced(history).Some? then mark.value.digest == ReceiptHash(LastFenced(history).value)
          else !mark.value.digest.ReceiptHash?)
  }

  /** Every FENCED receipt names a revoked grant of the control database and a claim of its own target epoch. */
  ghost predicate FencedOk(leases: seq<Grant>, history: seq<Receipt>) {
    forall i :: 0 <= i < |history| && history[i].phase != Preparing ==> FencedWith(leases, history[i].intent)
  }

  ghost predicate FencedWith(leases: seq<Grant>, v: Intent) {
    && (exists m :: 0 <= m < |leases| && ExactlyRevoked(leases[m], v))
    && v.redisClaim.RecordHash? && ClaimMatches(v.redisClaim.record, v)
  }

  ghost predicate ControlOk(c: Control) {
    && ChainOk(c.leases)
    && HistoryOk(c.history)
    && c.head == (if |c.history| == 0 then None else Some(c.history[|c.history| - 1]))
    && WitnessOk(c.mark, c.history)
    && FencedOk(c.leases, c.history)
    && (|c.history| > 0 ==> c.history[0].intent.previousEpoch <= 1)
  }

  // ---- Every transaction keeps it ----

  lemma AppendReceipt(history: seq<Receipt>, r: Receipt)
    requires HistoryOk(history) && ReceiptOk(history + [r], |history|)
    ensures HistoryOk(history + [r])
  {
    var h := history + [r];
    forall i | 0 <= i < |h| ensures ReceiptOk(h, i) {
      if i < |history| { assert ReceiptOk(history, i); }
    }
  }

  lemma KeysIncrease(history: seq<Receipt>, i: nat)
    requires HistoryOk(history) && i < |history|
    ensures Key(history[i]) == 3 * history[0].intent.targetEpoch + i
  {
    assert ReceiptOk(history, i);
  }

  lemma NotYetStored(history: seq<Receipt>, r: Receipt)
    requires HistoryOk(history + [r])
    ensures !Stored(history, Key(r))
  {
    var h := history + [r];
    KeysIncrease(h, |history|);
    forall i | 0 <= i < |history| ensures Key(history[i]) != Key(r) { KeysIncrease(h, i); assert h[i] == history[i]; }
  }

  lemma {:induction false} LawfulIsSorted(history: seq<Receipt>)
    requires HistoryOk(history)
    ensures Sorted(history) == history
  {
    if |history| > 0 {
      var front := history[..|history| - 1];
      forall i | 0 <= i < |front| ensures ReceiptOk(front, i) { assert ReceiptOk(history, i); }
      LawfulIsSorted(front);
      if |front| > 0 { KeysIncrease(history, |front| - 1); KeysIncrease(history, |front|); }
    }
  }

  lemma {:induction false} LawfulIsLinked(history: seq<Receipt>, from: nat)
    requires HistoryOk(history) && from <= |history|
    ensures LinkedFrom(history[from..], if from == 0 then None else Some(ReceiptHash(history[from - 1])))
    decreases |history| - from
  {
    if from < |history| {
      assert ReceiptOk(history, from);
      LawfulIsLinked(history, from + 1);
      assert history[from..][1..] == history[from + 1..];
    }
  }

  /** Every reachable state passes verifyCutoverChain, and the verified head is the latest receipt. */
  lemma LawfulStatesVerify(c: Control)
    requires ControlOk(c)
    ensures VerifyChain(c) == Ok(c.head)
  {
    hide WitnessOk, FencedOk, ChainOk;
    LawfulIsSorted(c.history);
    LawfulIsLinked(c.history, 0);
    assert c.history[0..] == c.history;
    if |c.history| > 0 { assert ReceiptOk(c.history, |c.history| - 1); }
  }

  lemma BeginKeeps(c: Control, input: Intent)
    requires ControlOk(c) && Begin(c, input).Ok?
    ensures ControlOk(Begin(c, input).value.0)
  {
    hide Stored, ChainOk, Key, ExactlyRevoked, ClaimMatches;
    var c', n := Begin(c, input).value.0, |c.history|;
    if c' != c {
      if n > 0 { assert ReceiptOk(c.history, n - 1); }
      AppendReceipt(c.history, c'.head.value);
    }
  }

  lemma FencedKeeps(c: Control, commandId: string, now: int, skew: nat, quorum: Option<FenceRecord>)
    requires ControlOk(c) && MarkFenced(c, commandId, now, skew, quorum).Ok?
    ensures ControlOk(MarkFenced(c, commandId, now, skew, quorum).value.0)
  {
    hide Stored, ChainOk, Key, VerifyChain, ExactlyRevoked, ClaimMatches;
    var c', n := MarkFenced(c, commandId, now, skew, quorum).value.0, |c.history|;
    assert ReceiptOk(c.history, n - 1);
    if c' != c {
      AppendReceipt(c.history, c'.head.value);
      assert ExactlyRevoked(c.leases[|c.leases| - 1], c'.head.value.intent);
      assert FencedWith(c.leases, c'.head.value.intent) by { ClaimIsRecord(quorum.value, c'.head.value.intent); }
    }
  }

  lemma ClaimIsRecord(r: FenceRecord, v: Intent)
    requires ClaimMatches(r, v)
    ensures v.redisClaim.RecordHash? && ClaimMatches(v.redisClaim.record, v)
  {
  }

  lemma ActiveKeeps(c: Control, commandId: string)
    requires ControlOk(c) && MarkActive(c, commandId).Ok?
    ensures ControlOk(MarkActive(c, commandId).value.0)
  {
    hide Stored, ChainOk, Key, FencedWith;
    var c', n := MarkActive(c, commandId).value.0, |c.history|;
    assert ReceiptOk(c.history, n - 1);
    if c' != c {
      AppendReceipt(c.history, c'.head.value);
      assert FencedWith(c.leases, c.history[n - 1].intent);
    }
  }

  lemma InstallKeeps(c: Control, g: Grant, signed: set<Grant>)
    requires ControlOk(c) && Install(c.leases, g, signed).Ok?
    ensures ControlOk(c.(leases := Install(c.leases, g, signed).value))
  {
    hide Install, WitnessOk, HistoryOk, ExactlyRevoked, ChainOk;
    InstallKeepsChain(c.leases, g, signed);
    var leases := Install(c.leases, g, signed).value;
    forall i | 0 <= i < |c.history| && c.history[i].phase != Preparing ensures FencedWith(leases, c.history[i].intent) {
      var m :| 0 <= m < |c.leases| && ExactlyRevoked(c.leases[m], c.history[i].intent);
      assert leases[m] == c.leases[m];
    }
  }

  // ---- Runs ----

  datatype Step =
    | InstallLease(grant: Grant, signed: set<Grant>)
    | BootstrapGenesis(record: FenceRecord)
    | BeginCutover(input: Intent)
    | Fence(commandId: string, now: int, skew: nat, quorum: Option<FenceRecord>)
    | Activate(commandId: string)

  /** A refused transaction changes nothing. */
  function Next(c: Control, step: Step): Control {
    match step
    case InstallLease(g, signed) =>
      (match Install(c.leases, g, signed) case Err(_) => c case Ok(leases) => c.(leases := leases))
    case BootstrapGenesis(r) => (match Bootstrap(c, r) case Err(_) => c case Ok(c') => c')
    case BeginCutover(input) => (match Begin(c, input) case Err(_) => c case Ok(p) => p.0)
    case Fence(id, now, skew, quorum) => (match MarkFenced(c, id, now, skew, quorum) case Err(_) => c case Ok(p) => p.0)
    case Activate(id) => (match MarkActive(c, id) case Err(_) => c case Ok(p) => p.0)
  }

  function Run(c: Control, steps: seq<Step>): Control {
    if |steps| == 0 then c else Next(Run(c, steps[..|steps| - 1]), steps[|steps| - 1])
  }

  const Empty := Control([], None, None, [])

  lemma NextKeeps(c: Control, step: Step)
    requires ControlOk(c)
    ensures ControlOk(Next(c, step))
  {
    hide ChainOk, HistoryOk, Begin, MarkFenced, MarkActive, Install;
    match step
    case InstallLease(g, signed) => if Install(c.leases, g, signed).Ok? { InstallKeeps(c, g, signed); }
    case BootstrapGenesis(r) =>
    case BeginCutover(input) => if Begin(c, input).Ok? { BeginKeeps(c, input); }
    case Fence(id, now, skew, quorum) =>
      if MarkFenced(c, id, now, skew, quorum).Ok? { FencedKeeps(c, id, now, skew, quorum); }
    case Activate(id) => if MarkActive(c, id).Ok? { ActiveKeeps(c, id); }
  }

  /**
   * Every reachable control database holds a lawful history: it verifies, target epochs are consecutive with
   * phases in order, and the witness epoch is the head's previous epoch while PREPARING and its target epoch
   * afterwards.
   */
  lemma {:induction false} EveryRunIsLawful(steps: seq<Step>)
    ensures ControlOk(Run(Empty, steps))
    ensures VerifyChain(Run(Empty, steps)) == Ok(Run(Empty, steps).head)
  {
    hide ControlOk, VerifyChain;
    if |steps| > 0 {
      EveryRunIsLawful(steps[..|steps| - 1]);
      NextKeeps(Run(Empty, steps[..|steps| - 1]), steps[|steps| - 1]);
    } else {
      EmptyIsLawful();
    }
    LawfulStatesVerify(Run(Empty, steps));
  }

  lemma EmptyIsLawful()
    ensures ControlOk(Empty)
  {
  }

  // ---- What the witness accepts ----

  /** The three records a lawful state names. */
  ghost predicate Named(c: Control, record: FenceRecord) {
    || (c.history == [] && c.mark == Some(Witness(1, RecordHash(record))))
    || (exists i :: 0 <= i < |c.history| && c.history[i].phase == Fenced
          && c.history[i].intent.targetEpoch == WitnessEpoch(c) && c.history[i].intent.redisClaim == RecordHash(record))
    || (c.head.Some? && c.head.value.phase == Preparing && WitnessEpoch(c) >= 1
          && c.head.value.intent.targetEpoch == record.epoch && c.head.value.intent.redisClaim == RecordHash(record))
  }

  /**
   * The witness accepts exactly genesis before any cutover, the record named by the witness epoch's FENCED
   * receipt, or the record named by the PREPARING head.
   */
  lemma WitnessAcceptsExactlyTheNamed(c: Control, record: FenceRecord)
    requires ControlOk(c)
    ensures WitnessAccepts(c, record) <==> c.mark.Some? && Named(c, record)
  {
    hide VerifyChain, ChainOk, ExactlyRevoked;
    LawfulStatesVerify(c);
    var n := |c.history|;
    if n > 0 { assert ReceiptOk(c.history, n - 1); }
    forall i | 0 <= i < n && c.history[i].phase == Fenced && c.history[i].intent.targetEpoch == WitnessEpoch(c)
      ensures c.mark.value.digest == ReceiptHash(c.history[i]) && FencedWith(c.leases, c.history[i].intent)
      ensures WitnessEpoch(c) >= 1
    {
      TheWitnessedFencing(c, i);
      assert ReceiptOk(c.history, i);
    }
  }

  /** The FENCED receipt of the witness epoch is the one whose digest the witness carries. */
  lemma TheWitnessedFencing(c: Control, i: nat)
    requires ControlOk(c) && i < |c.history|
    requires c.history[i].phase == Fenced && c.history[i].intent.targetEpoch == WitnessEpoch(c)
    ensures c.mark.value.digest == ReceiptHash(c.history[i]) && FencedWith(c.leases, c.history[i].intent)
  {
    hide ChainOk, ExactlyRevoked;
    var n := |c.history|;
    assert ReceiptOk(c.history, i);
    assert ReceiptOk(c.history, n - 1);
  }

  // ---- Retries ----

  /**
   * A FENCED retry with the same evidence returns the FENCED head, and fails once the cutover is ACTIVE: the
   * witness then still carries the FENCED digest, which the retry compares with the ACTIVE head.
   */
  lemma FencedRetry(c: Control, now: int, skew: nat, quorum: Option<FenceRecord>)
    requires ControlOk(c) && c.head.Some? && c.head.value.phase != Preparing
    requires FenceEvidence(c, c.head.value.intent, now, skew, quorum).None?
    ensures var r := MarkFenced(c, c.head.value.intent.commandId, now, skew, quorum);
            if c.head.value.phase == Fenced then r == Ok((c, c.head.value)) else r == Err(WitnessLost)
  {
    hide VerifyChain, FenceEvidence, ChainOk;
    LawfulStatesVerify(c);
    assert ReceiptOk(c.history, |c.history| - 1);
  }

  /** Repeating the intent of the head returns the head and changes nothing, whatever phase it has reached. */
  lemma BeginRetry(c: Control)
    requires c.head.Some?
    ensures Begin(c, c.head.value.intent) == Ok((c, c.head.value))
  {
  }

  /** A cutover begun before genesis can never be fenced, and genesis can no longer be installed. */
  lemma {:induction false} CutoverBeforeGenesisIsStuck(c: Control, steps: seq<Step>)
    requires ControlOk(c) && c.head.Some? && c.head.value.intent.previousEpoch == 0
    ensures var c' := Run(c, steps); c'.head == c.head && c'.history == c.history && c'.mark == c.mark
  {
    hide ControlOk;
    if |steps| > 0 {
      CutoverBeforeGenesisIsStuck(c, steps[..|steps| - 1]);
      RunKeeps(c, steps[..|steps| - 1]);
      StuckStep(Run(c, steps[..|steps| - 1]), steps[|steps| - 1]);
    }
  }

  lemma {:induction false} RunKeeps(c: Control, steps: seq<Step>)
    requires ControlOk(c)
    ensures ControlOk(Run(c, steps))
  {
    hide ControlOk;
    if |steps| > 0 {
      RunKeeps(c, steps[..|steps| - 1]);
      NextKeeps(Run(c, steps[..|steps| - 1]), steps[|steps| - 1]);
    }
  }

  lemma StuckStep(c: Control, step: Step)
    requires ControlOk(c) && c.head.Some? && c.head.value.intent.previousEpoch == 0
    ensures Next(c, step).head == c.head && Next(c, step).history == c.history && Next(c, step).mark == c.mark
  {
    hide VerifyChain, Stored, Install;
    var n := |c.history|;
    assert ReceiptOk(c.history, n - 1);
    assert ReceiptOk(c.history, 0);
    NoLeaseOfEpochZero(c);
  }

  lemma NoLeaseOfEpochZero(c: Control)
    requires ControlOk(c) && c.head.Some? && c.head.value.intent.previousEpoch == 0
    ensures c.head.value.phase == Preparing && |c.history| == 1
    ensures Head(c.leases).Some? ==> Head(c.leases).value.epoch >= 1
  {
    var n := |c.history|;
    assert ReceiptOk(c.history, n - 1) && ReceiptOk(c.history, 0);
    forall m | 0 <= m < |c.leases| ensures c.leases[m].epoch >= 1 { assert LinkedAt(c.leases, m); }
  }

  // ---- The head commits to the history ----

  lemma {:induction false} LinkedPrefix(rows: seq<Receipt>, prev: Option<Hash>)
    requires |rows| > 0 && LinkedFrom(rows, prev)
    ensures LinkedFrom(rows[..|rows| - 1], prev)
    ensures rows[|rows| - 1].prev == (if |rows| == 1 then prev else Some(ReceiptHash(rows[|rows| - 2])))
    decreases |rows|
  {
    if |rows| > 1 {
      LinkedPrefix(rows[1..], Some(ReceiptHash(rows[0])));
      assert rows[1..][..|rows| - 2] == rows[..|rows| - 1][1..];
    }
  }

  lemma {:induction false} LastCommitsToAll(a: seq<Receipt>, b: seq<Receipt>)
    requires LinkedFrom(a, None) && LinkedFrom(b, None) && |a| > 0 && |b| > 0
    requires a[|a| - 1] == b[|b| - 1]
    ensures a == b
    decreases |a|
  {
    LinkedPrefix(a, None);
    LinkedPrefix(b, None);
    if |a| > 1 && |b| > 1 { LastCommitsToAll(a[..|a| - 1], b[..|b| - 1]); }
    assert a == a[..|a| - 1] + [a[|a| - 1]];
    assert b == b[..|b| - 1] + [b[|b| - 1]];
  }

  /** Two control databases that verify with the same head retain the same history, receipt for receipt. */
  lemma HeadCommitsToHistory(c1: Control, c2: Control)
    requires VerifyChain(c1).Ok? && VerifyChain(c1) == VerifyChain(c2)
    ensures Sorted(c1.history) == Sorted(c2.history)
  {
    if c1.head.Some? { LastCommitsToAll(Sorted(c1.history), Sorted(c2.history)); }
  }

  // ---- The controller, run on the control database ----

  class BpcCutoverController {
    const maxClockSkewMs: nat
    var leases: seq<Grant>
    var mark: Option<Witness>
    var head: Option<Receipt>
    var history: seq<Receipt>

    ghost function View(): Control
      reads this
    {
      Control(leases, mark, head, history)
    }

    constructor (maxClockSkewMs: nat)
      ensures View() == Empty && this.maxClockSkewMs == maxClockSkewMs
    {
      this.maxClockSkewMs := maxClockSkewMs;
      leases, mark, head, history := [], None, None, [];
    }

    /** The loop of verifyCutoverChain over the ordered rows, then the comparison with the head row. */
    method VerifyCutoverChain() returns (r: Result<Option<Receipt>, CutoverError>)
      ensures r == VerifyChain(View())
    {
      var rows := Sorted(history);
      var previous: Option<Hash>, last: Option<Receipt> := None, None;
      var i := 0;
      while i < |rows|
        invariant 0 <= i <= |rows|
        invariant LinkedFrom(rows, None) <==> LinkedFrom(rows[i..], previous)
        invariant last == if i == 0 then None else Some(rows[i - 1])
      {
        if !ValidIntent(rows[i].intent) || rows[i].prev != previous { return Err(BrokenChain); }
        previous, last := Some(ReceiptHash(rows[i])), Some(rows[i]);
        assert rows[i..][1..] == rows[i + 1..];
        i := i + 1;
      }
      assert rows[i..] == [];
      if head.None? {
        if last.Some? { return Err(BrokenChain); }
        return Ok(None);
      }
      if !ValidIntent(head.value.intent) || last.None? || head.value != last.value { return Err(BrokenChain); }
      return Ok(head);
    }

    method BeginCutover(input: Intent) returns (r: Result<Receipt, CutoverError>)
      modifies this
      ensures match Begin(old(View()), input)
              case Err(e) => r == Err(e) && View() == old(View())
              case Ok(p) => r == Ok(p.1) && View() == p.0
    {
      if head.Some? {
        if head.value.intent == input { return Ok(head.value); }
        if head.value.phase != Activated || input.previousEpoch != head.value.intent.targetEpoch { return Err(AnotherIntent); }
      }
      var epoch := if mark.Some? then mark.value.epoch else 0;
      if epoch != input.previousEpoch { return Err(WitnessMismatch); }
      if !ValidIntent(input) { return Err(MalformedIntent); }
      var preparing := Receipt(input, Preparing, HashOf(head));
      if Stored(history, Key(preparing)) { return Err(DuplicateReceipt); }
      if mark.None? { mark := Some(Witness(0, Zeros)); }
      history := history + [preparing];
      head := Some(preparing);
      return Ok(preparing);
    }

    method Fence(commandId: string, now: int, quorum: Option<FenceRecord>) returns (r: Result<Receipt, CutoverError>)
      modifies this
      ensures match MarkFenced(old(View()), commandId, now, maxClockSkewMs, quorum)
              case Err(e) => r == Err(e) && View() == old(View())
              case Ok(p) => r == Ok(p.1) && View() == p.0
    {
      hide VerifyChain, Stored, ExactlyRevoked, ClaimMatches;
      if head.None? || head.value.intent.commandId != commandId { return Err(IntentMissing); }
      var current := head.value;
      if |leases| == 0 { return Err(LeaseMissing); }
      var lease := leases[|leases| - 1];
      if !ExactlyRevoked(lease, current.intent) { return Err(LeaseNotRevoked); }
      if now < lease.expiresAt + maxClockSkewMs + current.intent.window { return Err(TooEarly); }
      if quorum.None? { return Err(NoQuorum); }
      if !ClaimMatches(quorum.value, current.intent) { return Err(RedisMismatch); }
      if current.phase != Preparing {
        var verified := VerifyCutoverChain();
        if verified != Ok(Some(current)) || mark != Some(Witness(current.intent.targetEpoch, ReceiptHash(current))) {
          return Err(WitnessLost);
        }
        return Ok(current);
      }
      var next := Receipt(current.intent, Fenced, Some(ReceiptHash(current)));
      if Stored(history, Key(next)) { return Err(DuplicateReceipt); }
      if mark.None? || mark.value.epoch != current.intent.previousEpoch { return Err(WitnessLost); }
      history := history + [next];
      head := Some(next);
      mark := Some(Witness(current.intent.targetEpoch, ReceiptHash(next)));
      return Ok(next);
    }

    method Activate(commandId: string) returns (r: Result<Receipt, CutoverError>)
      modifies this
      ensures match MarkActive(old(View()), commandId)
              case Err(e) => r == Err(e) && View() == old(View())
              case Ok(p) => r == Ok(p.1) && View() == p.0
    {
      if head.None? || head.value.intent.commandId != commandId { return Err(IntentMissing); }
      var current := head.value;
      if current.phase == Activated { return Ok(current); }
      if current.phase != Fenced { return Err(OutOfOrder); }
      var next := Receipt(current.intent, Activated, Some(ReceiptHash(current)));
      if Stored(history, Key(next)) { return Err(DuplicateReceipt); }
      history := history + [next];
      head := Some(next);
      return Ok(next);
    }
  }
}
