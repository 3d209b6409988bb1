/**
 * markActive of packages/server/src/bpc-ha-final.ts. It runs in three transactions: check the readiness
 * attestation against the head, store it under the command id, and move the head to ACTIVE. Other control
 * transactions, and other calls of markActive, run in between.
 */
module Readiness {
  import opened Wrappers
  import opened Cutover
  import LeaseChain
  import Q = Quorum

  /** `independent` stands for the signature checks: signed by the snapshot authority and by no guard key. */
  datatype Attestation = Attestation(
    commandId: string,
    targetEpoch: int,
    targetSourceEpoch: string,
    manifest: string,
    appliedSequence: int,
    state: string,
    fenced: Hash,
    independent: bool)

  datatype World = World(
    control: Control,
    stored: map<string, Attestation>,
    /** Calls that have passed the check, and calls that have stored their attestation. */
    checked: set<Attestation>,
    ready: set<Attestation>)

  datatype ReadyStep =
    | ControlStep(step: Step)
    | Check(attestation: Attestation)
    | Store(attestation: Attestation)
    | Finish(attestation: Attestation)

  /** The attestation binds this FENCED receipt. */
  predicate Binds(a: Attestation, r: Receipt) {
    && a.independent
    && r.phase == Fenced
    && a.commandId == r.intent.commandId
    && a.targetEpoch == r.intent.targetEpoch
    && a.targetSourceEpoch == r.intent.targetSourceEpoch
    && a.manifest == r.intent.manifest
    && a.appliedSequence == r.intent.finalSequence
    && a.state == r.intent.state
    && a.fenced == ReceiptHash(r)
  }

  function NextReady(w: World, step: ReadyStep): World {
    match step
    case ControlStep(s) => if s.Activate? then w else w.(control := Next(w.control, s))
    case Check(a) =>
      if w.control.head.Some? && Binds(a, w.control.head.value) then w.(checked := w.checked + {a}) else w
    case Store(a) =>
      if a !in w.checked then w
      else if a.commandId !in w.stored then w.(stored := w.stored[a.commandId := a], ready := w.ready + {a})
      else if w.stored[a.commandId] == a then w.(ready := w.ready + {a})
      else w
    case Finish(a) => if a in w.ready then w.(control := Next(w.control, Activate(a.commandId))) else w
  }

  function RunReady(w: World, steps: seq<ReadyStep>): World {
    if |steps| == 0 then w else NextReady(RunReady(w, steps[..|steps| - 1]), steps[|steps| - 1])
  }

  const Start := World(Empty, map[], {}, {})

  predicate Uses(history: seq<Receipt>, commandId: string) {
    exists i :: 0 <= i < |history| && history[i].intent.commandId == commandId
  }

  /** A cutover is begun under a command id no earlier cutover had. */
  predicate FreshCommand(w: World, step: ReadyStep) {
    step.ControlStep? && step.step.BeginCutover? && Begin(w.control, step.step.input).Ok?
      && Begin(w.control, step.step.input).value.0 != w.control
    ==> !Uses(w.control.history, step.step.input.commandId)
  }

  ghost predicate AllFresh(steps: seq<ReadyStep>) {
    forall i :: 0 <= i < |steps| ==> FreshCommand(RunReady(Start, steps[..i]), steps[i])
  }

  /** Receipts of one command id belong to one cutover. */
  ghost predicate OneCutoverPerCommand(history: seq<Receipt>) {
    forall i, j :: 0 <= i < |history| && 0 <= j < |history| && history[i].intent.commandId == history[j].intent.commandId
      ==> i / 3 == j / 3
  }

  predicate BoundBy(history: seq<Receipt>, a: Attestation) {
    exists k :: 0 <= k < |history| && Binds(a, history[k])
  }

  /** An ACTIVE receipt's readiness: the stored attestation binds the FENCED receipt before it. */
  predicate Attested(history: seq<Receipt>, stored: map<string, Attestation>, i: nat)
    requires i < |history|
  {
    history[i].phase == Activated ==>
      && i >= 1
      && history[i].intent.commandId in stored
      && Binds(stored[history[i].intent.commandId], history[i - 1])
  }

  ghost predicate Inv(w: World) {
    && ControlOk(w.control)
    && OneCutoverPerCommand(w.control.history)
    && (forall a :: a in w.checked ==> BoundBy(w.control.history, a))
    && (forall a :: a in w.ready ==> a in w.checked && a.commandId in w.stored && w.stored[a.commandId] == a)
    && (forall i :: 0 <= i < |w.control.history| ==> Attested(w.control.history, w.stored, i))
  }

  /** A control step leaves the history alone or adds one receipt at its end. */
  lemma HistoryGrows(c: Control, step: Step)
    requires ControlOk(c)
    ensures var c' := Next(c, step);
            c'.history == c.history
            || (&& c'.history == c.history + [c'.history[|c.history|]]
                && (if step.BeginCutover? then c'.history[|c.history|].intent == step.input && c'.history[|c.history|].phase == Preparing
                                               && Begin(c, step.input).Ok? && Begin(c, step.input).value.0 != c
                    else c.head.Some? && c'.history[|c.history|].intent == c.head.value.intent
                         && (step.Activate? || c'.history[|c.history|].phase == Fenced)))
  {
    hide VerifyChain, Stored, FenceEvidence, HistoryOk, FencedOk, LeaseChain.Install, LeaseChain.ChainOk;
  }

  lemma BoundStays(history: seq<Receipt>, r: Receipt, a: Attestation)
    requires BoundBy(history, a)
    ensures BoundBy(history + [r], a)
  {
    var k :| 0 <= k < |history| && Binds(a, history[k]);
    assert (history + [r])[k] == history[k];
  }

  lemma AttestedStays(history: seq<Receipt>, r: Receipt, stored: map<string, Attestation>, i: nat)
    requires i < |history| && Attested(history, stored, i)
    ensures Attested(history + [r], stored, i)
  {
  }

  /** A new receipt of the head's cutover, or of a cutover under an unused command, keeps commands apart. */
  lemma CommandsStayApart(history: seq<Receipt>, r: Receipt)
    requires HistoryOk(history + [r]) && OneCutoverPerCommand(history)
    requires if r.phase == Preparing then !Uses(history, r.intent.commandId)
             else |history| > 0 && r.intent == history[|history| - 1].intent
    ensures OneCutoverPerCommand(history + [r])
  {
    var h, n := history + [r], |history|;
    assert ReceiptOk(h, n);
    forall i | 0 <= i < n && h[i].intent.commandId == r.intent.commandId ensures i / 3 == n / 3 {
      assert history[i] == h[i];
      assert history[n - 1] == h[n - 1];
    }
  }

  lemma ControlKeeps(w: World, step: Step)
    requires Inv(w) && !step.Activate? && FreshCommand(w, ControlStep(step))
    ensures Inv(NextReady(w, ControlStep(step)))
  {
    var c, c', n := w.control, Next(w.control, step), |w.control.history|;
    NextKeeps(c, step);
    HistoryGrows(c, step);
    if c'.history != c.history {
      var r := c'.history[n];
      assert HistoryOk(c'.history);
      CommandsStayApart(c.history, r);
      forall a | a in w.checked ensures BoundBy(c'.history, a) { BoundStays(c.history, r, a); }
      forall i | 0 <= i < |c'.history| ensures Attested(c'.history, w.stored, i) {
        if i < n { AttestedStays(c.history, r, w.stored, i); }
      }
    }
  }

  /** Under unique command ids an attestation that binds some FENCED receipt of a command binds the FENCED head. */
  lemma BindsTheHead(history: seq<Receipt>, a: Attestation)
    requires HistoryOk(history) && OneCutoverPerCommand(history) && BoundBy(history, a)
    requires |history| > 0 && history[|history| - 1].phase == Fenced
    requires history[|history| - 1].intent.commandId == a.commandId
    ensures Binds(a, history[|history| - 1])
  {
    hide LinkedFrom;
    var n := |history|;
    var k :| 0 <= k < n && Binds(a, history[k]);
    assert ReceiptOk(history, k) && ReceiptOk(history, n - 1);
    assert k / 3 == (n - 1) / 3;
  }

  lemma FinishFacts(w: World, a: Attestation)
    requires Inv(w) && a in w.ready && Next(w.control, Activate(a.commandId)).history != w.control.history
    ensures var h, h' := w.control.history, Next(w.control, Activate(a.commandId)).history;
            && |h| > 0 && |h'| == |h| + 1 && h' == h + [h'[|h|]]
            && Binds(a, h[|h| - 1]) && h'[|h|].intent == h[|h| - 1].intent
            && OneCutoverPerCommand(h')
  {
    var c, c' := w.control, Next(w.control, Activate(a.commandId));
    NextKeeps(c, Activate(a.commandId));
    HistoryGrows(c, Activate(a.commandId));
    ActivatesTheFencedHead(c, a.commandId);
    LawfulHistory(c);
    LawfulHistory(c');
    hide ControlOk, HistoryOk, Next, OneCutoverPerCommand, Binds;
    BindsTheHead(c.history, a);
    CommandsStayApart(c.history, c'.history[|c.history|]);
  }

  lemma FinishKeeps(w: World, a: Attestation)
    requires Inv(w) && a in w.ready
    ensures Inv(NextReady(w, Finish(a)))
  {
    hide ControlOk, HistoryOk, Next, OneCutoverPerCommand;
    var c, c', n := w.control, Next(w.control, Activate(a.commandId)), |w.control.history|;
    NextKeeps(c, Activate(a.commandId));
    if c'.history != c.history {
      FinishFacts(w, a);
      var r := c'.history[n];
      assert a.commandId == r.intent.commandId;
      hide Binds;
      forall b | b in w.checked ensures BoundBy(c'.history, b) { BoundStays(c.history, r, b); }
      forall i | 0 <= i < |c'.history| ensures Attested(c'.history, w.stored, i) {
        if i < n { AttestedStays(c.history, r, w.stored, i); }
      }
    }
  }

  lemma LawfulHistory(c: Control)
    requires ControlOk(c)
    ensures HistoryOk(c.history) && c.head == (if |c.history| == 0 then None else Some(c.history[|c.history| - 1]))
  {
  }

  lemma ActivatesTheFencedHead(c: Control, commandId: string)
    requires ControlOk(c) && Next(c, Activate(commandId)).history != c.history
    ensures |c.history| > 0 && c.history[|c.history| - 1].phase == Fenced
    ensures c.history[|c.history| - 1].intent.commandId == commandId
    ensures Next(c, Activate(commandId)).history[|c.history|].phase == Activated
  {
    hide Stored, HistoryOk, FencedOk, LeaseChain.ChainOk;
  }

  lemma {:induction false} RunKeepsReady(steps: seq<ReadyStep>)
    requires AllFresh(steps)
    ensures Inv(RunReady(Start, steps))
  {
    hide Inv, FreshCommand;
    if |steps| > 0 {
      var front := steps[..|steps| - 1];
      forall i | 0 <= i < |front| ensures FreshCommand(RunReady(Start, front[..i]), front[i]) { assert front[..i] == steps[..i]; }
      RunKeepsReady(front);
      StepKeepsReady(RunReady(Start, front), steps[|steps| - 1]);
    } else {
      StartReady();
    }
  }

  lemma StartReady()
    ensures Inv(Start)
  {
    EmptyIsLawful();
  }

  lemma StepKeepsReady(w: World, step: ReadyStep)
    requires Inv(w) && FreshCommand(w, step)
    ensures Inv(NextReady(w, step))
  {
    hide ControlOk, OneCutoverPerCommand;
    match step
    case ControlStep(s) => if !s.Activate? { ControlKeeps(w, s); }
    case Check(a) => if w.control.head.Some? && Binds(a, w.control.head.value) { HeadIsLast(w.control); }
    case Store(a) => StoreKeeps(w, a);
    case Finish(a) => if a in w.ready { FinishKeeps(w, a); }
  }

  lemma HeadIsLast(c: Control)
    requires ControlOk(c) && c.head.Some?
    ensures |c.history| > 0 && c.head.value == c.history[|c.history| - 1]
  {
  }

  lemma StoreKeeps(w: World, a: Attestation)
    requires Inv(w)
    ensures Inv(NextReady(w, Store(a)))
  {
    hide ControlOk, OneCutoverPerCommand, Binds;
    var w' := NextReady(w, Store(a));
    forall i | 0 <= i < |w.control.history| ensures Attested(w.control.history, w'.stored, i) {
      assert Attested(w.control.history, w.stored, i);
    }
  }

  /**
   * When every cutover is begun under a new command id, each ACTIVE receipt has a stored readiness
   * attestation that binds exactly the FENCED receipt it follows.
   */
  lemma EveryActivationIsAttested(steps: seq<ReadyStep>, i: nat)
    requires AllFresh(steps) && i < |RunReady(Start, steps).control.history|
    ensures Attested(RunReady(Start, steps).control.history, RunReady(Start, steps).stored, i)
  {
    RunKeepsReady(steps);
  }

  // ---- Runs by their command ids ----

  /** The command ids of the cutovers of a history, in order. */
  function Commands(history: seq<Receipt>): (ids: seq<string>)
    ensures |ids| == (|history| + 2) / 3
    ensures forall k :: 0 <= k < |ids| ==> ids[k] == history[3 * k].intent.commandId
  {
    seq((|history| + 2) / 3, k requires 0 <= k < (|history| + 2) / 3 => history[3 * k].intent.commandId)
  }

  predicate Distinct(ids: seq<string>) {
    forall i, j :: 0 <= i < j < |ids| ==> ids[i] != ids[j]
  }

  /** A cutover's receipts share its intent, so a used command id is one of the cutovers'. */
  lemma UsedIsACommand(history: seq<Receipt>, i: nat)
    requires HistoryOk(history) && i < |history|
    ensures history[i].intent.commandId == Commands(history)[i / 3]
  {
    assert ReceiptOk(history, i);
    if i % 3 > 0 { assert ReceiptOk(history, i - 1); }
  }

  lemma CommandsGrow(w: World, step: ReadyStep)
    requires ControlOk(w.control)
    ensures ControlOk(NextReady(w, step).control)
    ensures Commands(w.control.history) <= Commands(NextReady(w, step).control.history)
    ensures !FreshCommand(w, step) ==> !Distinct(Commands(NextReady(w, step).control.history))
  {
    hide ControlOk, HistoryOk, Begin, Uses;
    var c := w.control;
    if step.ControlStep? && !step.step.Activate? {
      NextKeeps(c, step.step);
      HistoryGrows(c, step.step);
      if !FreshCommand(w, step) { RepeatShows(c, step.step.input); }
    } else if step.Finish? && step.attestation in w.ready {
      NextKeeps(c, Activate(step.attestation.commandId));
      HistoryGrows(c, Activate(step.attestation.commandId));
    }
  }

  lemma RepeatShows(c: Control, input: Intent)
    requires ControlOk(c) && Begin(c, input).Ok? && Begin(c, input).value.0 != c && Uses(c.history, input.commandId)
    ensures !Distinct(Commands(Begin(c, input).value.0.history))
  {
    BeginAppends(c, input);
    hide Begin, ControlOk, Commands;
    var h, h' := c.history, Begin(c, input).value.0.history;
    var i :| 0 <= i < |h| && h[i].intent.commandId == input.commandId;
    LawfulHistory(c);
    UsedIsACommand(h, i);
    assert h'[3 * (i / 3)] == h[3 * (i / 3)];
    assert Commands(h')[i / 3] == Commands(h')[|h| / 3];
  }

  lemma BeginAppends(c: Control, input: Intent)
    requires ControlOk(c) && Begin(c, input).Ok? && Begin(c, input).value.0 != c
    ensures var h' := Begin(c, input).value.0.history;
            |h'| == |c.history| + 1 && c.history <= h' && h'[|c.history|].intent == input && |c.history| % 3 == 0
  {
    hide Stored, FencedOk, LeaseChain.ChainOk, HistoryOk;
    LawfulHistory(c);
    if |c.history| > 0 { LastPhase(c.history); }
  }

  lemma LastPhase(history: seq<Receipt>)
    requires HistoryOk(history) && |history| > 0
    ensures history[|history| - 1].phase == PhaseAt(|history| - 1)
  {
    assert ReceiptOk(history, |history| - 1);
  }

  lemma {:induction false} DistinctIsFresh(steps: seq<ReadyStep>)
    ensures ControlOk(RunReady(Start, steps).control)
    ensures Distinct(Commands(RunReady(Start, steps).control.history)) ==> AllFresh(steps)
  {
    hide NextReady, FreshCommand, ControlOk;
    if |steps| > 0 {
      var front, last := steps[..|steps| - 1], steps[|steps| - 1];
      DistinctIsFresh(front);
      CommandsGrow(RunReady(Start, front), last);
      if Distinct(Commands(RunReady(Start, steps).control.history)) {
        ShorterIsDistinct(Commands(RunReady(Start, front).control.history), Commands(RunReady(Start, steps).control.history));
        forall i | 0 <= i < |steps| ensures FreshCommand(RunReady(Start, steps[..i]), steps[i]) {
          if i < |front| { assert front[..i] == steps[..i]; }
        }
      }
    } else {
      EmptyIsLawful();
    }
  }

  lemma ShorterIsDistinct(a: seq<string>, b: seq<string>)
    requires a <= b && Distinct(b)
    ensures Distinct(a)
  {
    forall i, j | 0 <= i < j < |a| ensures a[i] != a[j] { assert b[i] == a[i] && b[j] == a[j]; }
  }

  // ---- A schedule for any list of command ids ----

  /** Leases are told apart by the lengths of their command ids. */
  function Lease(epoch: nat): LeaseChain.Grant
    requires epoch >= 1
  {
    LeaseChain.Grant(epoch, LeaseChain.Revoked, "a", "l", seq(epoch, _ => 'c'), 0, 1, epoch,
                     if epoch == 1 then None else Some(LeaseChain.LeaseDigest(Lease(epoch - 1))))
  }

  function Leases(n: nat): (leases: seq<LeaseChain.Grant>)
    ensures |leases| == n && forall i :: 0 <= i < n ==> leases[i] == Lease(i + 1)
  {
    seq(n, i requires 0 <= i < n => Lease(i + 1))
  }

  function Record(epoch: int, commandId: string): Q.FenceRecord {
    Q.FenceRecord(epoch, "b", "1", "k", commandId, 0)
  }

  /** Cutover k leads from epoch k + 1 to epoch k + 2. */
  function Request(ids: seq<string>, k: nat): Intent
    requires k < |ids|
  {
    Intent(ids[k], k + 1, k + 2, "b", "e", "m", 0, "s", RecordHash(Record(k + 2, ids[k])),
           LeaseChain.LeaseDigest(Lease(k + 1)), 0, 1)
  }

  /** The readiness of cutover k. */
  function Readied(history: seq<Receipt>, ids: seq<string>, k: nat): Attestation
    requires k < |ids| && 3 * k + 1 < |history|
  {
    Attestation(ids[k], k + 2, "e", "m", 0, "s", ReceiptHash(history[3 * k + 1]), true)
  }

  /** The first cutover under the command id of cutover k. */
  function FirstUse(ids: seq<string>, k: nat): (f: nat)
    requires k < |ids|
    ensures f <= k && ids[f] == ids[k] && forall i :: 0 <= i < f ==> ids[i] != ids[k]
  {
    FirstFrom(ids, k, 0)
  }

  function FirstFrom(ids: seq<string>, k: nat, from: nat): (f: nat)
    requires from <= k < |ids| && forall i :: 0 <= i < from ==> ids[i] != ids[k]
    ensures f <= k && ids[f] == ids[k] && forall i :: 0 <= i < f ==> ids[i] != ids[k]
    decreases k - from
  {
    if ids[from] == ids[k] then from else FirstFrom(ids, k, from + 1)
  }

  /** The control database with `m` receipts of the cutovers of `ids` and the first `n` leases. */
  ghost predicate At(c: Control, ids: seq<string>, n: nat, m: nat) {
    && ControlOk(c) && c.leases == Leases(n) && c.mark.Some?
    && |c.history| == m <= 3 * |ids|
    && forall i :: 0 <= i < m ==> c.history[i].intent == Request(ids, i / 3)
  }

  /** What is stored under the command id of cutover k: the readiness of the first cutover under it. */
  predicate Held(w: World, ids: seq<string>, k: nat)
    requires k < |ids| && 3 * k + 1 < |w.control.history|
  {
    && ids[k] in w.stored
    && w.stored[ids[k]] == Readied(w.control.history, ids, FirstUse(ids, k))
    && w.stored[ids[k]] in w.ready
  }

  predicate Known(ids: seq<string>, n: nat, id: string)
    requires n <= |ids|
  {
    exists k :: 0 <= k < n && ids[k] == id
  }

  /** The stored readiness of the first `n` cutovers, and of no other. */
  ghost predicate ReadyFor(w: World, ids: seq<string>, n: nat)
    requires n <= |ids| && 3 * n - 2 < |w.control.history|
  {
    && (forall k :: 0 <= k < n ==> Held(w, ids, k))
    && (forall id :: id in w.stored ==> Known(ids, n, id))
  }

  lemma InstallStep(c: Control, ids: seq<string>, k: nat)
    requires At(c, ids, k, 3 * k) && k < |ids| < LeaseChain.MAX_EPOCH
    ensures At(Next(c, InstallLease(Lease(k + 1), {Lease(k + 1)})), ids, k + 1, 3 * k)
    ensures Next(c, InstallLease(Lease(k + 1), {Lease(k + 1)})) == c.(leases := Leases(k + 1))
  {
    hide LeaseChain.Install, HistoryOk, FencedOk, WitnessOk;
    var g := Lease(k + 1);
    assert Leases(k) + [g] == Leases(k + 1);
    LeasesAreLawful(k + 1);
    LeaseChain.LawfulIsAccepted(c.leases, g, {g});
    NextKeeps(c, InstallLease(g, {g}));
  }

  lemma LeasesAreLawful(n: nat)
    requires n < LeaseChain.MAX_EPOCH
    ensures LeaseChain.ChainOk(Leases(n))
  {
    forall i, j | 0 <= i < j < n ensures LeaseChain.Follows(Leases(n)[i], Leases(n)[j]) {
      assert |Lease(i + 1).commandId| != |Lease(j + 1).commandId|;
    }
    forall i | 0 <= i < n ensures LeaseChain.LinkedAt(Leases(n), i) { }
  }

  /** The next receipt of the schedule extends a lawful history, under a key not stored yet. */
  lemma NextReceipt(c: Control, ids: seq<string>, n: nat, m: nat, r: Receipt)
    requires At(c, ids, n, m) && m < 3 * |ids| && |ids| < LeaseChain.MAX_EPOCH
    requires r.intent == Request(ids, m / 3) && r.phase == PhaseAt(m)
    requires r.prev == HashOf(c.head)
    ensures !Stored(c.history, Key(r))
    ensures m > 0 ==> c.head == Some(c.history[m - 1]) && c.history[m - 1].phase == PhaseAt(m - 1)
    ensures m == 0 ==> c.head == None && c.mark.value.epoch == 1
    ensures m > 0 ==> c.mark.value.epoch == (if m % 3 == 1 then m / 3 + 1 else (m - 1) / 3 + 2)
  {
    hide FencedOk, LeaseChain.ChainOk, Stored, Leases, Lease;
    if m > 0 {
      assert ReceiptOk(c.history, m - 1);
      assert (c.history + [r])[0] == c.history[0] && c.history[0].intent == Request(ids, 0);
      assert c.history[m - 1].intent == Request(ids, (m - 1) / 3);
    }
    assert ReceiptOk(c.history + [r], m);
    AppendReceipt(c.history, r);
    NotYetStored(c.history, r);
  }

  /** A step that adds the scheduled receipt and keeps the lawful state. */
  lemma Advances(c: Control, c': Control, ids: seq<string>, n: nat, m: nat, r: Receipt)
    requires At(c, ids, n, m) && m < 3 * |ids| && r.intent == Request(ids, m / 3)
    requires ControlOk(c') && c'.leases == c.leases && c'.mark.Some? && c'.history == c.history + [r]
    ensures At(c', ids, n, m + 1) && c.history <= c'.history
  {
    hide ControlOk, Leases, Request;
  }

  lemma BeginStep(c: Control, ids: seq<string>, k: nat)
    requires At(c, ids, k + 1, 3 * k) && k < |ids| < LeaseChain.MAX_EPOCH
    ensures At(Next(c, BeginCutover(Request(ids, k))), ids, k + 1, 3 * k + 1)
    ensures c.history <= Next(c, BeginCutover(Request(ids, k))).history
  {
    hide ControlOk, Stored, Leases, Lease;
    var input := Request(ids, k);
    var r := Receipt(input, Preparing, HashOf(c.head));
    NextReceipt(c, ids, k + 1, 3 * k, r);
    NextKeeps(c, BeginCutover(input));
    if k > 0 { assert c.history[3 * k - 1].intent == Request(ids, k - 1); }
    Advances(c, Next(c, BeginCutover(input)), ids, k + 1, 3 * k, r);
  }

  lemma FenceStep(c: Control, ids: seq<string>, k: nat)
    requires k < |ids| < LeaseChain.MAX_EPOCH && At(c, ids, k + 1, 3 * k + 1)
    ensures At(Next(c, Fence(ids[k], 1, 0, Some(Record(k + 2, ids[k])))), ids, k + 1, 3 * k + 2)
    ensures c.history <= Next(c, Fence(ids[k], 1, 0, Some(Record(k + 2, ids[k])))).history
  {
    hide ControlOk, Stored, VerifyChain;
    assert c.history[3 * k].intent == Request(ids, k);
    var r := Receipt(Request(ids, k), Fenced, HashOf(c.head));
    NextReceipt(c, ids, k + 1, 3 * k + 1, r);
    NextKeeps(c, Fence(ids[k], 1, 0, Some(Record(k + 2, ids[k]))));
    assert FenceEvidence(c, Request(ids, k), 1, 0, Some(Record(k + 2, ids[k]))).None?;
    Advances(c, Next(c, Fence(ids[k], 1, 0, Some(Record(k + 2, ids[k])))), ids, k + 1, 3 * k + 1, r);
  }

  lemma ActivateStep(c: Control, ids: seq<string>, k: nat)
    requires k < |ids| < LeaseChain.MAX_EPOCH && At(c, ids, k + 1, 3 * k + 2)
    ensures At(Next(c, Activate(ids[k])), ids, k + 1, 3 * k + 3)
    ensures c.history <= Next(c, Activate(ids[k])).history
  {
    hide ControlOk, Stored;
    assert c.history[3 * k + 1].intent == Request(ids, k);
    var r := Receipt(Request(ids, k), Activated, HashOf(c.head));
    NextReceipt(c, ids, k + 1, 3 * k + 2, r);
    NextKeeps(c, Activate(ids[k]));
    Advances(c, Next(c, Activate(ids[k])), ids, k + 1, 3 * k + 2, r);
  }

  /** One cutover: a fresh check and store of its own readiness, and the finish of whichever call stored first. */
  function Round(history: seq<Receipt>, ids: seq<string>, k: nat): seq<ReadyStep>
    requires k < |ids| && 3 * k + 1 < |history|
  {
    [ControlStep(InstallLease(Lease(k + 1), {Lease(k + 1)})),
     ControlStep(BeginCutover(Request(ids, k))),
     ControlStep(Fence(ids[k], 1, 0, Some(Record(k + 2, ids[k])))),
     Check(Readied(history, ids, k)),
     Store(Readied(history, ids, k)),
     Finish(Readied(history, ids, FirstUse(ids, k)))]
  }

  lemma ReadyStays(w: World, w': World, ids: seq<string>, n: nat)
    requires n <= |ids| && 3 * n - 2 < |w.control.history| && ReadyFor(w, ids, n)
    requires w.control.history <= w'.control.history && w'.stored == w.stored && w.ready <= w'.ready
    ensures ReadyFor(w', ids, n)
  {
    hide FirstUse, Known;
    forall k | 0 <= k < n ensures Held(w', ids, k) {
      assert Held(w, ids, k);
      assert w'.control.history[3 * FirstUse(ids, k) + 1] == w.control.history[3 * FirstUse(ids, k) + 1];
    }
  }

  /** Storing the readiness of cutover k takes effect exactly when its command id is new. */
  lemma StoreStep(w: World, ids: seq<string>, k: nat)
    requires k < |ids| && 3 * k + 1 < |w.control.history| && ReadyFor(w, ids, k)
    requires Readied(w.control.history, ids, k) in w.checked
    ensures NextReady(w, Store(Readied(w.control.history, ids, k))).control == w.control
    ensures ReadyFor(NextReady(w, Store(Readied(w.control.history, ids, k))), ids, k + 1)
  {
    var f, a := FirstUse(ids, k), Readied(w.control.history, ids, k);
    if f < k {
      assert Held(w, ids, f) && FirstUse(ids, f) == f;
      assert w.stored[ids[k]].targetEpoch == f + 2;
    } else {
      assert !Known(ids, k, ids[k]);
    }
    var w' := NextReady(w, Store(a));
    hide FirstUse, Readied;
    forall i | 0 <= i < k + 1 ensures Held(w', ids, i) { if i < k { assert Held(w, ids, i); } }
    forall id | id in w'.stored ensures Known(ids, k + 1, id) {
      if id in w.stored { assert Known(ids, k, id); } else { assert ids[k] == id; }
    }
  }

  lemma RoundRuns(w: World, ids: seq<string>, k: nat) returns (steps: seq<ReadyStep>)
    requires k < |ids| < LeaseChain.MAX_EPOCH && At(w.control, ids, k, 3 * k) && ReadyFor(w, ids, k)
    ensures At(RunReady(w, steps).control, ids, k + 1, 3 * k + 3) && ReadyFor(RunReady(w, steps), ids, k + 1)
  {
    hide At, NextReady, ReadyFor, Next, Readied;
    var w3 := UpToFenced(w, ids, k);
    var h := w3.control.history;
    var a := Readied(h, ids, k);
    steps := Round(h, ids, k);
    var w5 := CheckedAndStored(w3, ids, k);
    var w6 := Finished(w5, ids, k);
    SixSteps(w, steps);
  }

  lemma UpToFenced(w: World, ids: seq<string>, k: nat) returns (w': World)
    requires k < |ids| < LeaseChain.MAX_EPOCH && At(w.control, ids, k, 3 * k) && ReadyFor(w, ids, k)
    ensures At(w'.control, ids, k + 1, 3 * k + 2) && ReadyFor(w', ids, k)
    ensures |w'.control.history| == 3 * k + 2
    ensures w' == NextReady(NextReady(NextReady(w, ControlStep(InstallLease(Lease(k + 1), {Lease(k + 1)}))),
                                      ControlStep(BeginCutover(Request(ids, k)))),
                            ControlStep(Fence(ids[k], 1, 0, Some(Record(k + 2, ids[k])))))
  {
    hide ControlOk, Next, ReadyFor;
    var c := w.control;
    InstallStep(c, ids, k);
    var c1 := Next(c, InstallLease(Lease(k + 1), {Lease(k + 1)}));
    BeginStep(c1, ids, k);
    var c2 := Next(c1, BeginCutover(Request(ids, k)));
    FenceStep(c2, ids, k);
    var c3 := Next(c2, Fence(ids[k], 1, 0, Some(Record(k + 2, ids[k]))));
    w' := w.(control := c3);
    ReadyStays(w, w', ids, k);
  }

  lemma CheckedAndStored(w: World, ids: seq<string>, k: nat) returns (w': World)
    requires k < |ids| && At(w.control, ids, k + 1, 3 * k + 2) && ReadyFor(w, ids, k)
    ensures var a := Readied(w.control.history, ids, k); w' == NextReady(NextReady(w, Check(a)), Store(a))
    ensures w'.control == w.control && ReadyFor(w', ids, k + 1)
  {
    hide FencedOk, LeaseChain.ChainOk, ReadyFor, Lease, Leases;
    var a := Readied(w.control.history, ids, k);
    HeadIsLast(w.control);
    LastPhase(w.control.history);
    assert w.control.history[3 * k + 1].intent == Request(ids, k);
    assert Binds(a, w.control.head.value);
    hide ControlOk, Binds;
    var w1 := NextReady(w, Check(a));
    assert w1 == w.(checked := w.checked + {a});
    ReadyStays(w, w1, ids, k);
    StoreStep(w1, ids, k);
    w' := NextReady(w1, Store(a));
  }

  lemma Finished(w: World, ids: seq<string>, k: nat) returns (w': World)
    requires k < |ids| < LeaseChain.MAX_EPOCH && At(w.control, ids, k + 1, 3 * k + 2)
    requires |w.control.history| == 3 * k + 2 && ReadyFor(w, ids, k + 1)
    ensures w' == NextReady(w, Finish(Readied(w.control.history, ids, FirstUse(ids, k))))
    ensures At(w'.control, ids, k + 1, 3 * k + 3) && ReadyFor(w', ids, k + 1)
  {
    hide At, Next;
    ActivateStep(w.control, ids, k);
    assert Held(w, ids, k);
    assert Readied(w.control.history, ids, FirstUse(ids, k)).commandId == ids[k];
    hide ReadyFor, Held;
    w' := w.(control := Next(w.control, Activate(ids[k])));
    ReadyStays(w, w', ids, k + 1);
  }

  lemma RunUnfolds(w: World, steps: seq<ReadyStep>, i: nat)
    requires i < |steps|
    ensures RunReady(w, steps[..i + 1]) == NextReady(RunReady(w, steps[..i]), steps[i])
  {
    assert steps[..i + 1][..i] == steps[..i];
  }

  lemma SixSteps(w: World, s: seq<ReadyStep>)
    requires |s| == 6
    ensures RunReady(w, s) == NextReady(NextReady(NextReady(NextReady(NextReady(NextReady(w, s[0]), s[1]), s[2]), s[3]), s[4]), s[5])
  {
    hide NextReady;
    assert s[..0] == [] && s[..6] == s;
    RunUnfolds(w, s, 0);
    RunUnfolds(w, s, 1);
    RunUnfolds(w, s, 2);
    RunUnfolds(w, s, 3);
    RunUnfolds(w, s, 4);
    RunUnfolds(w, s, 5);
  }

  lemma {:induction false} RunsJoin(w: World, a: seq<ReadyStep>, b: seq<ReadyStep>)
    ensures RunReady(w, a + b) == RunReady(RunReady(w, a), b)
  {
    hide NextReady;
    if |b| > 0 {
      assert (a + b)[..|a + b| - 1] == a + b[..|b| - 1];
      RunsJoin(w, a, b[..|b| - 1]);
    } else {
      assert a + b == a;
    }
  }

  /** The first n cutovers of a list can be run, each activated by the first call that stored under its id. */
  lemma {:induction false} CutoversRun(ids: seq<string>, n: nat) returns (steps: seq<ReadyStep>)
    requires n <= |ids| < LeaseChain.MAX_EPOCH
    ensures At(RunReady(Start, steps).control, ids, n, 3 * n) && ReadyFor(RunReady(Start, steps), ids, n)
  {
    hide At, ReadyFor, NextReady;
    if n == 0 {
      steps := [ControlStep(BootstrapGenesis(Record(1, "")))];
      Genesis(ids);
    } else {
      var before := CutoversRun(ids, n - 1);
      var more := RoundRuns(RunReady(Start, before), ids, n - 1);
      RunsJoin(Start, before, more);
      steps := before + more;
    }
  }

  lemma Genesis(ids: seq<string>)
    ensures var w := RunReady(Start, [ControlStep(BootstrapGenesis(Record(1, "")))]);
            At(w.control, ids, 0, 0) && ReadyFor(w, ids, 0)
  {
    var steps := [ControlStep(BootstrapGenesis(Record(1, "")))];
    assert steps[..0] == [];
    EmptyIsLawful();
    NextKeeps(Empty, BootstrapGenesis(Record(1, "")));
    assert Leases(0) == [];
  }

  /** Every ACTIVE receipt of the run has its own stored readiness. */
  ghost predicate AllAttested(w: World) {
    forall i :: 0 <= i < |w.control.history| ==> Attested(w.control.history, w.stored, i)
  }

  /** When a later cutover repeats a command id, a call that stored the earlier readiness activates it. */
  lemma RepeatedCommandRuns(ids: seq<string>, i: nat, j: nat) returns (steps: seq<ReadyStep>)
    requires i < j < |ids| < LeaseChain.MAX_EPOCH && ids[i] == ids[j]
    ensures Commands(RunReady(Start, steps).control.history) == ids[..j + 1] && !AllAttested(RunReady(Start, steps))
  {
    hide RunReady, At, ReadyFor;
    steps := CutoversRun(ids, j + 1);
    NotItsOwn(RunReady(Start, steps), ids, i, j);
  }

  lemma NotItsOwn(w: World, ids: seq<string>, i: nat, j: nat)
    requires i < j < |ids| && ids[i] == ids[j] && At(w.control, ids, j + 1, 3 * j + 3) && ReadyFor(w, ids, j + 1)
    ensures Commands(w.control.history) == ids[..j + 1] && !AllAttested(w)
  {
    hide At, Readied, Attested;
    CommandsAre(w.control, ids, j + 1);
    LastCutover(w.control, ids, j);
    EarlierReadiness(w, ids, i, j);
    OtherReadiness(w.control.history, w.stored, 3 * j + 2);
  }

  lemma LastCutover(c: Control, ids: seq<string>, j: nat)
    requires j < |ids| && At(c, ids, j + 1, 3 * j + 3)
    ensures |c.history| == 3 * j + 3 && c.history[3 * j + 2].phase == Activated
    ensures c.history[3 * j + 2].intent == Request(ids, j) && c.history[3 * j + 1].intent == Request(ids, j)
  {
    LawfulHistory(c);
    hide ControlOk, Leases, Request;
    LastPhase(c.history);
  }

  lemma EarlierReadiness(w: World, ids: seq<string>, i: nat, j: nat)
    requires i < j < |ids| && ids[i] == ids[j] && 3 * j + 1 < |w.control.history| && ReadyFor(w, ids, j + 1)
    ensures ids[j] in w.stored && w.stored[ids[j]].targetEpoch < j + 2
  {
    assert Held(w, ids, j) && FirstUse(ids, j) <= i;
  }

  lemma OtherReadiness(history: seq<Receipt>, stored: map<string, Attestation>, i: nat)
    requires 1 <= i < |history| && history[i].phase == Activated && history[i].intent == history[i - 1].intent
    requires history[i].intent.commandId in stored
    requires stored[history[i].intent.commandId].targetEpoch != history[i].intent.targetEpoch
    ensures !Attested(history, stored, i)
  {
  }

  lemma CommandsAre(c: Control, ids: seq<string>, n: nat)
    requires n <= |ids| && At(c, ids, n, 3 * n)
    ensures Commands(c.history) == ids[..n]
  {
    hide ControlOk, Leases;
  }

  /**
   * For cutovers begun under the command ids of a list, in its order, every interleaving leaves each ACTIVE
   * receipt with a stored readiness that binds the FENCED receipt before it, exactly when the ids differ.
   */
  lemma AttestedExactlyWhenCommandsDiffer(ids: seq<string>)
    requires |ids| < LeaseChain.MAX_EPOCH
    ensures Distinct(ids) <==>
            forall steps :: Commands(RunReady(Start, steps).control.history) <= ids ==> AllAttested(RunReady(Start, steps))
  {
    hide RunReady, AllFresh, Commands;
    if Distinct(ids) {
      forall steps | Commands(RunReady(Start, steps).control.history) <= ids ensures AllAttested(RunReady(Start, steps)) {
        ShorterIsDistinct(Commands(RunReady(Start, steps).control.history), ids);
        DistinctIsFresh(steps);
        RunKeepsReady(steps);
      }
    } else {
      var i, j :| 0 <= i < j < |ids| && ids[i] == ids[j];
      var steps := RepeatedCommandRuns(ids, i, j);
    }
  }
}
