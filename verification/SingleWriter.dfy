/**
 * Write fencing across a cutover: the lease check inside a source transaction, the guard's lease chain and
 * the cutover history, on two database clocks that drift. `now` is true time in microseconds. The control
 * clock runs at most `ahead` in front of it and the source clock at most `behind` after it; a transaction
 * commits within its signed window of its last check. Databases read their clocks to a millisecond: the
 * source rounds down, the control database rounds to the nearest.
 */
module SingleWriter {
  import opened Wrappers
  import opened LeaseChain
  import Q = Quorum
  import C = Cutover

  datatype Clocks = Clocks(ahead: nat, behind: nat, sourceSkewMs: nat, controlSkewMs: nat)

  /** The lease a source process was started with. */
  datatype Binding = Binding(epoch: int, holder: string, leaseId: string, grant: LeaseDigest, window: int)

  /** A transaction that passed its check and has not finished. */
  datatype Ticket = Ticket(epoch: int, holder: string, checkedAt: int, window: int)

  datatype Write = Write(ticket: Ticket, at: int)

  datatype World = World(
    now: int,
    /** Every lease grant the guard has signed. */
    guard: seq<Grant>,
    control: C.Control,
    /** When each receipt of the cutover history was written. */
    times: seq<int>,
    tickets: set<Ticket>,
    writes: seq<Write>)

  datatype Step =
    | Tick(micros: nat)
    | Sign(grant: Grant)
    | InstallLease(grant: Grant)
    | BootstrapGenesis(record: Q.FenceRecord)
    | BeginCutover(input: C.Intent)
    | Fence(commandId: string, clock: int, quorum: Option<Q.FenceRecord>)
    | Activate(commandId: string)
    | Check(binding: Binding, feed: seq<Grant>, clock: int)
    | Finish(ticket: Ticket)

  function FloorMs(micros: int): int {
    micros / 1000
  }

  function NearestMs(micros: int): int {
    (micros + 500) / 1000
  }

  /** assertWritableInTx on a source database whose lease head is `g`. */
  predicate Writable(c: C.Control, b: Binding, g: Grant, sourceMs: int, skew: nat) {
    && g.status == Active
    && g.epoch == b.epoch
    && g.holder == b.holder
    && g.leaseId == b.leaseId
    && LeaseDigest(g) == b.grant
    && g.window == b.window
    && sourceMs + skew < g.expiresAt
    && (b.epoch > 1 ==> exists i :: 0 <= i < |c.history| && ActiveFor(c.history[i], b.epoch))
  }

  predicate ActiveFor(r: C.Receipt, epoch: int) {
    r.phase == C.Activated && r.intent.targetEpoch == epoch
  }

  /** A control transaction; receipts it adds are stamped with the time. */
  function Governed(w: World, step: C.Step): World {
    var c := C.Next(w.control, step);
    w.(control := c, times := if |c.history| > |w.times| then w.times + [w.now] else w.times)
  }

  /**
   * The guard signs one lawful chain; the control database and the source database of each check have been fed
   * grants from it, independently of each other.
   */
  ghost function Next(k: Clocks, w: World, step: Step): World {
    match step
    case Tick(d) => w.(now := w.now + d)
    case Sign(g) => if ChainOk(w.guard + [g]) then w.(guard := w.guard + [g]) else w
    case InstallLease(g) => Governed(w, C.InstallLease(g, Signed(w.guard)))
    case BootstrapGenesis(r) => Governed(w, C.BootstrapGenesis(r))
    case BeginCutover(input) => Governed(w, C.BeginCutover(input))
    case Fence(id, clock, quorum) =>
      if clock > w.now + k.ahead then w else Governed(w, C.Fence(id, NearestMs(clock), k.controlSkewMs, quorum))
    case Activate(id) => Governed(w, C.Activate(id))
    case Check(b, feed, clock) =>
      var head := Head(InstallAll([], feed, Signed(w.guard)));
      if clock < w.now - k.behind || head.None? then w
      else if !Writable(w.control, b, head.value, FloorMs(clock), k.sourceSkewMs) then w
      else w.(tickets := w.tickets + {Ticket(b.epoch, b.holder, w.now, b.window)})
    case Finish(t) =>
      if t in w.tickets && w.now <= t.checkedAt + t.window * 1000 then w.(writes := w.writes + [Write(t, w.now)]) else w
  }

  ghost function Run(k: Clocks, w: World, steps: seq<Step>): World {
    if |steps| == 0 then w else Next(k, Run(k, w, steps[..|steps| - 1]), steps[|steps| - 1])
  }

  const Start := World(0, [], C.Empty, [], {}, [])

  /**
   * A source transaction passes its check exactly when the lease its database holds last is active, is the very grant
   * the process is bound to, in each of its terms, has not come within the skew of its expiry, and, past the first
   * epoch, the cutover to the epoch is ACTIVE.
   */
  lemma ChecksExactly(k: Clocks, w: World, b: Binding, feed: seq<Grant>, clock: int)
    requires clock >= w.now - k.behind && Ticket(b.epoch, b.holder, w.now, b.window) !in w.tickets
    ensures var held := InstallAll([], feed, Signed(w.guard));
            Next(k, w, Check(b, feed, clock)).tickets != w.tickets <==>
              |held| > 0 &&
              var g := held[|held| - 1];
              && g.status == Active && b.grant == LeaseDigest(g)
              && b.epoch == g.epoch && b.holder == g.holder && b.leaseId == g.leaseId && b.window == g.window
              && clock / 1000 + k.sourceSkewMs < g.expiresAt
              && (b.epoch > 1 ==> exists i :: 0 <= i < |w.control.history|
                                              && w.control.history[i].phase == C.Activated
                                              && w.control.history[i].intent.targetEpoch == b.epoch)
  {
    var t := Ticket(b.epoch, b.holder, w.now, b.window);
    assert w.tickets + {t} != w.tickets by { assert t in w.tickets + {t}; }
    hide InstallAll, Signed;
  }

  // ---- The invariant ----

  ghost predicate TimesOk(times: seq<int>, history: seq<C.Receipt>, now: int) {
    && |times| == |history|
    && (forall i, j :: 0 <= i <= j < |times| ==> times[i] <= times[j])
    && (forall i :: 0 <= i < |times| ==> times[i] <= now)
  }

  /** No FENCED receipt is written before the old lease's expiry is proven on the control clock. */
  ghost predicate FencesProven(k: Clocks, times: seq<int>, history: seq<C.Receipt>)
    requires |times| == |history|
  {
    forall i :: 0 <= i < |history| && history[i].phase == C.Fenced ==> FenceProven(k, history[i].intent, times[i])
  }

  predicate FenceProven(k: Clocks, v: C.Intent, at: int) {
    at >= (v.oldLeaseExpiresAt + k.controlSkewMs + v.window) * 1000 - 500 - k.ahead
  }

  predicate GrantedBy(k: Clocks, t: Ticket, g: Grant) {
    && g.status == Active
    && g.epoch == t.epoch
    && g.holder == t.holder
    && g.window == t.window
    && t.checkedAt < (g.expiresAt - k.sourceSkewMs) * 1000 + k.behind
  }

  /** A ticket was granted on an active lease of its epoch, after that epoch's ACTIVE receipt. */
  ghost predicate TicketOk(k: Clocks, guard: seq<Grant>, c: C.Control, times: seq<int>, t: Ticket)
    requires |times| == |c.history|
  {
    && (exists n :: 0 <= n < |guard| && GrantedBy(k, t, guard[n]))
    && (t.epoch > 1 ==> exists i :: 0 <= i < |c.history| && ActiveFor(c.history[i], t.epoch) && times[i] <= t.checkedAt)
  }

  ghost predicate WritesOk(writes: seq<Write>, tickets: set<Ticket>, now: int) {
    && (forall i :: 0 <= i < |writes| ==>
          && writes[i].ticket in tickets
          && writes[i].ticket.checkedAt <= writes[i].at <= now
          && writes[i].at <= writes[i].ticket.checkedAt + writes[i].ticket.window * 1000)
    && (forall i, j :: 0 <= i <= j < |writes| ==> writes[i].at <= writes[j].at)
  }

  ghost predicate Inv(k: Clocks, w: World) {
    && ChainOk(w.guard) && w.control.leases <= w.guard
    && C.ControlOk(w.control)
    && TimesOk(w.times, w.control.history, w.now)
    && FencesProven(k, w.times, w.control.history)
    && (forall t :: t in w.tickets ==> TicketOk(k, w.guard, w.control, w.times, t) && t.checkedAt <= w.now)
    && WritesOk(w.writes, w.tickets, w.now)
  }

  /** Control transactions only extend the lease chain and the history. */
  lemma ControlGrows(c: C.Control, step: C.Step)
    requires C.ControlOk(c)
    ensures c.leases <= C.Next(c, step).leases
    ensures !step.InstallLease? ==> C.Next(c, step).leases == c.leases
    ensures C.Next(c, step).history == c.history
            || (|C.Next(c, step).history| == |c.history| + 1 && c.history <= C.Next(c, step).history)
  {
    hide C.ControlOk, C.VerifyChain, C.Stored, Install, C.FenceEvidence;
    if step.InstallLease? && Install(c.leases, step.grant, step.signed).Ok? {
      assert ChainOk(c.leases) by { ChainOf(c); }
      InstallKeepsChain(c.leases, step.grant, step.signed);
    }
  }

  lemma ControlInstalls(w: World, g: Grant)
    requires ChainOk(w.guard) && w.control.leases <= w.guard
    ensures C.Next(w.control, C.InstallLease(g, Signed(w.guard))).leases <= w.guard
  {
    hide Install;
    if Install(w.control.leases, g, Signed(w.guard)).Ok? { PrefixGrows(w.guard, w.control.leases, g); }
  }

  lemma ChainOf(c: C.Control)
    requires C.ControlOk(c)
    ensures ChainOk(c.leases) && C.HistoryOk(c.history)
  {
  }

  lemma TicketLasts(k: Clocks, guard: seq<Grant>, c: C.Control, times: seq<int>, guard': seq<Grant>, c': C.Control, times': seq<int>, t: Ticket)
    requires |times| == |c.history| && |times'| == |c'.history|
    requires guard <= guard' && c.history <= c'.history && times <= times'
    requires TicketOk(k, guard, c, times, t)
    ensures TicketOk(k, guard', c', times', t)
  {
    hide GrantedBy;
    var n :| 0 <= n < |guard| && GrantedBy(k, t, guard[n]);
    assert guard'[n] == guard[n];
    if t.epoch > 1 {
      var i :| 0 <= i < |c.history| && ActiveFor(c.history[i], t.epoch) && times[i] <= t.checkedAt;
      assert c'.history[i] == c.history[i] && times'[i] == times[i];
    }
  }

  lemma GovernedKeeps(k: Clocks, w: World, step: C.Step)
    requires Inv(k, w)
    requires step.Fence? ==> NewFenceProven(k, w, step)
    requires step.InstallLease? ==> step.signed == Signed(w.guard)
    ensures Inv(k, Governed(w, step))
  {
    hide C.ControlOk, C.Next, TicketOk, WritesOk, FenceProven;
    var w' := Governed(w, step);
    ControlGrows(w.control, step);
    if step.InstallLease? { ControlInstalls(w, step.grant); }
    C.NextKeeps(w.control, step);
    assert w.times <= w'.times;
    assert w.control.history <= w'.control.history;
    forall t | t in w'.tickets ensures TicketOk(k, w'.guard, w'.control, w'.times, t) {
      TicketLasts(k, w.guard, w.control, w.times, w.guard, w'.control, w'.times, t);
    }
    StampedFences(k, w, step);
  }

  ghost predicate NewFenceProven(k: Clocks, w: World, step: C.Step) {
    var c := C.Next(w.control, step);
    |c.history| > |w.control.history| ==> FenceProven(k, c.history[|w.control.history|].intent, w.now)
  }

  lemma StampedFences(k: Clocks, w: World, step: C.Step)
    requires Inv(k, w) && (step.Fence? ==> NewFenceProven(k, w, step))
    requires w.control.history <= Governed(w, step).control.history && w.times <= Governed(w, step).times
    requires |Governed(w, step).times| == |Governed(w, step).control.history|
    ensures FencesProven(k, Governed(w, step).times, Governed(w, step).control.history)
  {
    hide C.ControlOk, C.Next, TicketOk, WritesOk, FenceProven;
    var w' := Governed(w, step);
    forall i | 0 <= i < |w'.control.history| && w'.control.history[i].phase == C.Fenced
      ensures FenceProven(k, w'.control.history[i].intent, w'.times[i])
    {
      if i < |w.control.history| {
        assert w'.control.history[i] == w.control.history[i] && w'.times[i] == w.times[i];
      } else if !step.Fence? {
        OnlyFenceFences(w.control, step);
      }
    }
  }

  lemma OnlyFenceFences(c: C.Control, step: C.Step)
    requires |C.Next(c, step).history| > |c.history|
    requires !step.Fence?
    ensures C.Next(c, step).history[|c.history|].phase != C.Fenced
  {
    hide C.VerifyChain, C.Stored, Install, C.MarkFenced;
  }

  lemma FenceStepProven(k: Clocks, w: World, id: string, clock: int, quorum: Option<Q.FenceRecord>)
    requires clock <= w.now + k.ahead
    ensures NewFenceProven(k, w, C.Fence(id, NearestMs(clock), k.controlSkewMs, quorum))
  {
    hide C.VerifyChain, C.Stored, C.ClaimMatches;
  }

  lemma CheckKeeps(k: Clocks, w: World, b: Binding, feed: seq<Grant>, clock: int)
    requires Inv(k, w)
    ensures Inv(k, Next(k, w, Check(b, feed, clock)))
  {
    hide C.ControlOk, FencesProven, ChainOk, InstallAll;
    var w' := Next(k, w, Check(b, feed, clock));
    if w' != w {
      var t := Ticket(b.epoch, b.holder, w.now, b.window);
      DatabasesHoldPrefixes(w.guard, feed);
      var n := |InstallAll([], feed, Signed(w.guard))|;
      assert GrantedBy(k, t, w.guard[n - 1]);
      assert TicketOk(k, w.guard, w.control, w.times, t);
    }
  }

  lemma SignKeeps(k: Clocks, w: World, g: Grant)
    requires Inv(k, w)
    ensures Inv(k, Next(k, w, Sign(g)))
  {
    hide C.ControlOk, FencesProven, ChainOk, WritesOk, TicketOk;
    var w' := Next(k, w, Sign(g));
    forall t | t in w'.tickets ensures TicketOk(k, w'.guard, w'.control, w'.times, t) {
      TicketLasts(k, w.guard, w.control, w.times, w'.guard, w'.control, w'.times, t);
    }
  }

  lemma NextKeeps(k: Clocks, w: World, step: Step)
    requires Inv(k, w)
    ensures Inv(k, Next(k, w, step))
  {
    hide C.ControlOk, FencesProven, TicketOk, Governed, Writable, ChainOk;
    match step
    case Tick(_) =>
    case Sign(g) => SignKeeps(k, w, g);
    case InstallLease(g) => GovernedKeeps(k, w, C.InstallLease(g, Signed(w.guard)));
    case BootstrapGenesis(r) => GovernedKeeps(k, w, C.BootstrapGenesis(r));
    case BeginCutover(input) => GovernedKeeps(k, w, C.BeginCutover(input));
    case Fence(id, clock, quorum) =>
      if clock <= w.now + k.ahead {
        FenceStepProven(k, w, id, clock, quorum);
        GovernedKeeps(k, w, C.Fence(id, NearestMs(clock), k.controlSkewMs, quorum));
      }
    case Activate(id) => GovernedKeeps(k, w, C.Activate(id));
    case Check(b, feed, clock) => CheckKeeps(k, w, b, feed, clock);
    case Finish(_) =>
  }

  lemma {:induction false} RunKeeps(k: Clocks, steps: seq<Step>)
    ensures Inv(k, Run(k, Start, steps))
  {
    hide Inv;
    if |steps| > 0 {
      RunKeeps(k, steps[..|steps| - 1]);
      NextKeeps(k, Run(k, Start, steps[..|steps| - 1]), steps[|steps| - 1]);
    } else {
      StartOk(k);
    }
  }

  lemma StartOk(k: Clocks)
    ensures Inv(k, Start)
  {
    C.EmptyIsLawful();
  }

  // ---- Safety ----

  /** The drift the configured skews cover: half a millisecond less than their sum. */
  predicate Covered(k: Clocks) {
    k.ahead + k.behind <= (k.sourceSkewMs + k.controlSkewMs) * 1000 - 500
  }

  /** The receipts of a world: FENCED ends the writes of its previous epoch, ACTIVE opens its target's. */
  predicate Ends(r: C.Receipt, epoch: int) {
    r.phase == C.Fenced && r.intent.previousEpoch == epoch
  }

  /** Write j of an epoch commits at or after the FENCED receipt i that ends the epoch. */
  predicate OverlapAt(w: World, i: int, j: int)
    requires |w.times| == |w.control.history|
  {
    && 0 <= i < |w.times|
    && 0 <= j < |w.writes|
    && Ends(w.control.history[i], w.writes[j].ticket.epoch)
    && w.writes[j].at >= w.times[i]
  }

  ghost predicate Overlap(w: World)
    requires |w.times| == |w.control.history|
  {
    exists i, j :: OverlapAt(w, i, j)
  }

  lemma FencedLease(c: C.Control, i: nat) returns (m: nat)
    requires C.ControlOk(c) && i < |c.history| && c.history[i].phase == C.Fenced
    ensures m < |c.leases| && C.ExactlyRevoked(c.leases[m], c.history[i].intent)
  {
    assert C.FencedWith(c.leases, c.history[i].intent);
    m :| 0 <= m < |c.leases| && C.ExactlyRevoked(c.leases[m], c.history[i].intent);
  }

  lemma NoWriteAfterFencedAt(k: Clocks, w: World, i: nat, j: nat)
    requires Inv(k, w) && Covered(k)
    requires i < |w.control.history| && j < |w.writes| && Ends(w.control.history[i], w.writes[j].ticket.epoch)
    ensures w.writes[j].at < w.times[i]
  {
    hide C.ControlOk;
    var t := w.writes[j].ticket;
    assert TicketOk(k, w.guard, w.control, w.times, t);
    ChainOf(w.control);
    var m := FencedLease(w.control, i);
    var n :| 0 <= n < |w.guard| && GrantedBy(k, t, w.guard[n]);
    assert w.guard[m] == w.control.leases[m];
    RevocationBoundsTheEpoch(w.guard, n, m);
    assert FenceProven(k, w.control.history[i].intent, w.times[i]);
  }

  lemma TimesMatch(k: Clocks, steps: seq<Step>)
    ensures |Run(k, Start, steps).times| == |Run(k, Start, steps).control.history|
  {
    RunKeeps(k, steps);
  }

  ghost predicate CanOverlap(k: Clocks, steps: seq<Step>) {
    TimesMatch(k, steps);
    Overlap(Run(k, Start, steps))
  }

  /**
   * When the clocks' drift is covered, no transaction of an epoch commits at or after the FENCED receipt that
   * ends that epoch, whichever prefixes of the lease chain the two databases hold.
   */
  lemma NoWriteAfterFenced(k: Clocks, steps: seq<Step>)
    requires Covered(k)
    ensures !CanOverlap(k, steps)
  {
    hide Run, Covered;
    RunKeeps(k, steps);
    var w := Run(k, Start, steps);
    forall i, j | OverlapAt(w, i, j) ensures false { NoWriteAfterFencedAt(k, w, i, j); }
  }

  /** No write of a later epoch than the first precedes the ACTIVE receipt that opens the epoch. */
  lemma NoWriteBeforeActive(k: Clocks, steps: seq<Step>, j: nat)
    requires j < |Run(k, Start, steps).writes| && Run(k, Start, steps).writes[j].ticket.epoch > 1
    ensures var w := Run(k, Start, steps);
            exists i :: 0 <= i < |w.control.history| && ActiveFor(w.control.history[i], w.writes[j].ticket.epoch)
              && i < |w.times| && w.times[i] <= w.writes[j].at
  {
    RunKeeps(k, steps);
    var w := Run(k, Start, steps);
    var t := w.writes[j].ticket;
    assert TicketOk(k, w.guard, w.control, w.times, t);
    var i :| 0 <= i < |w.control.history| && ActiveFor(w.control.history[i], t.epoch) && w.times[i] <= t.checkedAt;
  }

  /** The FENCED receipt that ended an epoch precedes the ACTIVE receipt of every later one. */
  lemma FencedBeforeLaterActive(c: C.Control, epoch: int, a: nat) returns (i: nat)
    requires C.ControlOk(c) && a < |c.history| && c.history[a].phase == C.Activated
    requires 1 <= epoch < c.history[a].intent.targetEpoch
    ensures i < a && Ends(c.history[i], epoch)
  {
    hide C.FencedOk, C.WitnessOk, ChainOk;
    assert C.ReceiptOk(c.history, a) && C.ReceiptOk(c.history, 0);
    var first := c.history[0].intent.targetEpoch;
    i := 3 * (epoch + 1 - first) + 1;
    assert C.ReceiptOk(c.history, i);
  }

  lemma WritesInEpochOrder(k: Clocks, w: World, i: nat, j: nat)
    requires Inv(k, w) && Covered(k) && i < j < |w.writes|
    ensures w.writes[i].ticket.epoch <= w.writes[j].ticket.epoch
    ensures w.writes[i].ticket.epoch == w.writes[j].ticket.epoch ==> w.writes[i].ticket.holder == w.writes[j].ticket.holder
  {
    hide C.ControlOk, Covered, FencesProven;
    var t, u := w.writes[i].ticket, w.writes[j].ticket;
    ChainOf(w.control);
    assert TicketOk(k, w.guard, w.control, w.times, t) && TicketOk(k, w.guard, w.control, w.times, u);
    var n :| 0 <= n < |w.guard| && GrantedBy(k, t, w.guard[n]);
    var m :| 0 <= m < |w.guard| && GrantedBy(k, u, w.guard[m]);
    assert LinkedAt(w.guard, m);
    assert n < m ==> Follows(w.guard[n], w.guard[m]);
    assert m < n ==> Follows(w.guard[m], w.guard[n]);
    if u.epoch < t.epoch {
      var a :| 0 <= a < |w.control.history| && ActiveFor(w.control.history[a], t.epoch) && w.times[a] <= t.checkedAt;
      var f := FencedBeforeLaterActive(w.control, u.epoch, a);
      NoWriteAfterFencedAt(k, w, f, j);
    }
  }

  /** When the clocks' drift is covered, committed writes are ordered by epoch, with one holder in each epoch. */
  lemma SingleWriterPerEpoch(k: Clocks, steps: seq<Step>, i: nat, j: nat)
    requires Covered(k) && i < j < |Run(k, Start, steps).writes|
    ensures var w := Run(k, Start, steps);
            && w.writes[i].ticket.epoch <= w.writes[j].ticket.epoch
            && w.writes[i].at <= w.writes[j].at
            && (w.writes[i].ticket.epoch == w.writes[j].ticket.epoch ==>
                  w.writes[i].ticket.holder == w.writes[j].ticket.holder)
  {
    hide Run, Covered;
    RunKeeps(k, steps);
    WritesInEpochOrder(k, Run(k, Start, steps), i, j);
  }

  // ---- The bound is exact ----

  /** A schedule of one cutover from epoch 1 in which a source transaction is in flight, for window `ms`. */
  datatype Schedule = Schedule(k: Clocks, ms: int) {
    predicate Valid() {
      1 <= ms <= MAX_WINDOW_MS && k.sourceSkewMs < MAX_MS && !Covered(k)
    }

    function Lease(): Grant {
      Grant(1, Active, "a", "l", "c1", k.sourceSkewMs + 1, ms, 1, None)
    }

    function Revocation(): Grant {
      Grant(1, Revoked, "a", "l", "c2", k.sourceSkewMs + 1, ms, 2, Some(LeaseDigest(Lease())))
    }

    function Genesis(): Q.FenceRecord {
      Q.FenceRecord(1, "a", "1", "k", "c1", 0)
    }

    function Claim(): Q.FenceRecord {
      Q.FenceRecord(2, "b", "2", "k", "x", 0)
    }

    function Intent(): C.Intent {
      C.Intent("x", 1, 2, "b", "e2", "m", 0, "s", C.RecordHash(Claim()), LeaseDigest(Revocation()), k.sourceSkewMs + 1, ms)
    }

    function Bound(): Binding {
      Binding(1, "a", "l", LeaseDigest(Lease()), ms)
    }

    /** The check happens at the last source reading that still passes, 999 microseconds into its millisecond. */
    function CheckedAt(): nat {
      999 + k.behind
    }

    /** The fence reads the first control clock that rounds up to the proven millisecond. */
    function FenceReading(): int {
      (k.sourceSkewMs + 1 + k.controlSkewMs + ms) * 1000 - 500
    }

    function FencedAt(): nat {
      if FenceReading() - k.ahead <= CheckedAt() then CheckedAt() else FenceReading() - k.ahead
    }

    function InFlight(): Ticket {
      Ticket(1, "a", CheckedAt(), ms)
    }

    function Steps(): seq<Step> {
      [Tick(CheckedAt()),
       BootstrapGenesis(Genesis()),
       Sign(Lease()),
       InstallLease(Lease()),
       Check(Bound(), [Lease()], 999),
       Sign(Revocation()),
       InstallLease(Revocation()),
       BeginCutover(Intent()),
       Tick(FencedAt() - CheckedAt()),
       Fence("x", FenceReading(), Some(Claim())),
       Finish(InFlight())]
    }

    function Prepared(): C.Receipt {
      C.Receipt(Intent(), C.Preparing, None)
    }

    function FencedReceipt(): C.Receipt {
      C.Receipt(Intent(), C.Fenced, Some(C.ReceiptHash(Prepared())))
    }

    /** The world when the transaction is in flight, and when the cutover is PREPARING. */
    function InFlightWorld(): World {
      World(CheckedAt(), [Lease()], C.Control([Lease()], Some(C.Witness(1, C.RecordHash(Genesis()))), None, []), [], {InFlight()}, [])
    }

    function PreparingWorld(): World {
      World(CheckedAt(), [Lease(), Revocation()],
            C.Control([Lease(), Revocation()], Some(C.Witness(1, C.RecordHash(Genesis()))), Some(Prepared()), [Prepared()]),
            [CheckedAt()], {InFlight()}, [])
    }

    function FencedWorld(): World {
      World(FencedAt(), [Lease(), Revocation()],
            C.Control([Lease(), Revocation()], Some(C.Witness(2, C.ReceiptHash(FencedReceipt()))),
                      Some(FencedReceipt()), [Prepared(), FencedReceipt()]),
            [CheckedAt(), FencedAt()], {InFlight()}, [])
    }

    lemma LeasesAreInstalled()
      requires Valid()
      ensures ChainOk([Lease()]) && ChainOk([Lease(), Revocation()])
      ensures Install([], Lease(), Signed([Lease()])) == Ok([Lease()])
      ensures InstallAll([], [Lease()], Signed([Lease()])) == [Lease()]
      ensures Install([Lease()], Revocation(), Signed([Lease(), Revocation()])) == Ok([Lease(), Revocation()])
    {
      hide Install, MaxExpiry, ByCommand, FirstOfEpoch;
      var one, two := [Lease()], [Lease(), Revocation()];
      assert [] + [Lease()] == one && one + [Revocation()] == two;
      assert "c1"[1] != "c2"[1];
      assert LinkedAt(one, 0) && LinkedAt(two, 0) && LinkedAt(two, 1);
      assert Follows(Lease(), Revocation());
      assert ChainOk(one) && ChainOk(two);
      LawfulIsAccepted([], Lease(), Signed(one));
      LawfulIsAccepted(one, Revocation(), Signed(two));
      assert one[..0] == [] && InstallAll([], one[..0], Signed(one)) == [];
    }

    lemma ReachesLeased()
      requires Valid()
      ensures Next(k, Next(k, Next(k, Next(k, Start, Steps()[0]), Steps()[1]), Steps()[2]), Steps()[3]) ==
              InFlightWorld().(tickets := {})
    {
      hide Install, ChainOk, InstallAll;
      LeasesAreInstalled();
      assert [] + [Lease()] == [Lease()];
    }

    lemma ReachesInFlight()
      requires Valid()
      ensures Next(k, InFlightWorld().(tickets := {}), Steps()[4]) == InFlightWorld()
    {
      hide Install, ChainOk, InstallAll;
      LeasesAreInstalled();
      assert Writable(InFlightWorld().control, Bound(), Lease(), FloorMs(999), k.sourceSkewMs);
    }

    lemma ReachesPreparing()
      requires Valid()
      ensures Next(k, Next(k, Next(k, InFlightWorld(), Steps()[5]), Steps()[6]), Steps()[7]) == PreparingWorld()
    {
      hide Install, ChainOk, InstallAll;
      LeasesAreInstalled();
      assert [Lease()] + [Revocation()] == [Lease(), Revocation()];
    }

    lemma ReachesFenced()
      requires Valid()
      ensures Next(k, Next(k, PreparingWorld(), Steps()[8]), Steps()[9]) == FencedWorld()
    {
      assert NearestMs(FenceReading()) == k.sourceSkewMs + 1 + k.controlSkewMs + ms;
      var w := Next(k, PreparingWorld(), Steps()[8]);
      assert w == PreparingWorld().(now := FencedAt());
      assert !C.Stored(w.control.history, C.Key(FencedReceipt()));
      assert C.FenceEvidence(w.control, Intent(), NearestMs(FenceReading()), k.controlSkewMs, Some(Claim())).None?;
    }

    lemma Finishes()
      requires Valid()
      ensures Next(k, FencedWorld(), Steps()[10]) == FencedWorld().(writes := [Write(InFlight(), FencedAt())])
    {
    }

    lemma RunUnfolds(w: World, steps: seq<Step>, i: nat)
      requires i < |steps|
      ensures Run(k, w, steps[..i + 1]) == Next(k, Run(k, w, steps[..i]), steps[i])
    {
      assert steps[..i + 1][..i] == steps[..i];
    }

    lemma Overlaps()
      requires Valid()
      ensures Run(k, Start, Steps()) == FencedWorld().(writes := [Write(InFlight(), FencedAt())])
    {
      hide Next;
      var s := Steps();
      assert s[..0] == [] && s[..11] == s;
      assert Run(k, Start, s[..0]) == Start;
      RunUnfolds(Start, s, 0);
      RunUnfolds(Start, s, 1);
      RunUnfolds(Start, s, 2);
      RunUnfolds(Start, s, 3);
      RunUnfolds(Start, s, 4);
      RunUnfolds(Start, s, 5);
      RunUnfolds(Start, s, 6);
      RunUnfolds(Start, s, 7);
      RunUnfolds(Start, s, 8);
      RunUnfolds(Start, s, 9);
      RunUnfolds(Start, s, 10);
      hide Run;
      ReachesLeased();
      ReachesInFlight();
      ReachesPreparing();
      ReachesFenced();
      Finishes();
    }
  }

  /**
   * Fencing is safe on every schedule exactly when the drift is at most the two configured skews less half a
   * millisecond: the control clock is rounded to the nearest millisecond, so it can prove the expiry that much
   * too early.
   */
  lemma OverlapExactlyWhenUncovered(k: Clocks)
    requires k.sourceSkewMs < MAX_MS
    ensures Covered(k) <==> forall steps :: !CanOverlap(k, steps)
  {
    if Covered(k) {
      forall steps ensures !CanOverlap(k, steps) { NoWriteAfterFenced(k, steps); }
    } else {
      var schedule := Schedule(k, 1);
      schedule.Overlaps();
      var w := Run(k, Start, schedule.Steps());
      assert OverlapAt(w, 1, 0);
      assert CanOverlap(k, schedule.Steps());
    }
  }
}
