/**
 * Replay protection of the HTTP hop, packages/server/src/http-outbox-transport.ts: the receiver's freshness
 * check and PgReplayNonceStore.checkAndStore. Application times are milliseconds, database times are
 * microseconds; the store compares the two through the database clock rounded to the nearest millisecond,
 * but prunes and stamps rows with the exact one.
 */
module HttpReplay {
  import opened Wrappers

  datatype Config = Config(freshness: nat, skew: nat, retention: nat, safety: nat)

  /** The inequality createHttpOutboxReceiver demands of its store. */
  predicate Admitted(c: Config) {
    c.retention - 2 * c.skew >= 2 * c.freshness + c.safety
  }

  datatype Request = Request(keyId: string, timestamp: nat, nonce: string, body: string)

  function Abs(x: int): int {
    if x < 0 then -x else x
  }

  /** The cast of a non-negative number to bigint: halves go away from zero. */
  function NearestMs(micros: nat): nat {
    (micros + 500) / 1000
  }

  predicate Fresh(c: Config, r: Request, currentTime: nat) {
    Abs(currentTime - r.timestamp) <= c.freshness
  }

  predicate ClocksAgree(c: Config, app: nat, db: nat) {
    Abs(NearestMs(db) - app) <= c.skew
  }

  // ---- The store ----

  /** DELETE ... WHERE expires_at < now(). */
  function Pruned(rows: map<string, int>, db: nat): (kept: map<string, int>)
    ensures forall n :: n in kept <==> n in rows && rows[n] >= db
    ensures forall n :: n in kept ==> kept[n] == rows[n]
  {
    map n | n in rows && rows[n] >= db :: rows[n]
  }

  /** checkAndStore once the clocks agree: the rows afterwards, and whether the nonce was new. */
  function CheckAndStore(c: Config, rows: map<string, int>, nonce: string, db: nat): (map<string, int>, bool) {
    var kept := Pruned(rows, db);
    if nonce in kept then (kept, false) else (kept[nonce := db + c.retention * 1000], true)
  }

  // ---- Runs ----

  datatype Step =
    /** A signed request read fresh at `currentTime`, and stored when the two clocks read `app` and `db`. */
    | Arrive(request: Request, currentTime: nat, app: nat, db: nat)
    /** Any other use of the store, which prunes and may insert. */
    | OtherUse(nonce: string, app: nat, db: nat)

  datatype World = World(rows: map<string, int>, app: nat, accepted: seq<Request>)

  const Empty := World(map[], 0, [])

  function Next(c: Config, w: World, step: Step): World {
    match step
    case Arrive(r, currentTime, app, db) =>
      if !Fresh(c, r, currentTime) then w
      else if !ClocksAgree(c, app, db) then w.(app := app)
      else
        var (rows, isNew) := CheckAndStore(c, w.rows, r.nonce, db);
        World(rows, app, if isNew then w.accepted + [r] else w.accepted)
    case OtherUse(nonce, app, db) =>
      if !ClocksAgree(c, app, db) then w.(app := app)
      else w.(rows := CheckAndStore(c, w.rows, nonce, db).0, app := app)
  }

  function Run(c: Config, w: World, steps: seq<Step>): World {
    if |steps| == 0 then w else Next(c, Run(c, w, steps[..|steps| - 1]), steps[|steps| - 1])
  }

  /** The application clock does not run backwards, and a request reaches the store within `delay` of its check. */
  predicate Timely(w: World, step: Step, delay: nat) {
    && step.app >= w.app
    && (step.Arrive? ==> step.currentTime <= step.app <= step.currentTime + delay)
  }

  ghost predicate AllTimely(c: Config, w: World, steps: seq<Step>, delay: nat) {
    forall i :: 0 <= i < |steps| ==> Timely(Run(c, w, steps[..i]), steps[i], delay)
  }

  // ---- Safety ----

  /** The earliest expiry a row of an accepted request can carry. */
  function Floor(c: Config, r: Request): int {
    (r.timestamp - c.freshness - c.skew + c.retention) * 1000 - 500
  }

  /** Either the row is still there, or the application clock has passed the time it was pruned at. */
  predicate Remembered(c: Config, w: World, r: Request) {
    || (r.nonce in w.rows && w.rows[r.nonce] >= Floor(c, r))
    || (w.app + c.skew) * 1000 + 499 > Floor(c, r)
  }

  ghost predicate Inv(c: Config, w: World) {
    && (forall i :: 0 <= i < |w.accepted| ==> Remembered(c, w, w.accepted[i]))
    && (forall i, j :: 0 <= i < j < |w.accepted| ==> w.accepted[i] != w.accepted[j])
  }

  /** The drift, delay and rounding that retention must cover. */
  predicate Covers(c: Config, delay: nat) {
    2 * c.freshness + 2 * c.skew + delay + 1 <= c.retention
  }

  lemma StoreRemembers(c: Config, w: World, nonce: string, app: nat, db: nat, r: Request)
    requires Remembered(c, w, r) && app >= w.app && ClocksAgree(c, app, db)
    ensures Remembered(c, World(CheckAndStore(c, w.rows, nonce, db).0, app, w.accepted), r)
  {
  }

  lemma AcceptedOnlyOnce(c: Config, w: World, r: Request, currentTime: nat, app: nat, db: nat, delay: nat)
    requires Covers(c, delay) && Remembered(c, w, r)
    requires Fresh(c, r, currentTime) && w.app <= app <= currentTime + delay && ClocksAgree(c, app, db)
    ensures !CheckAndStore(c, w.rows, r.nonce, db).1
  {
  }

  lemma AcceptanceIsRemembered(c: Config, w: World, r: Request, currentTime: nat, app: nat, db: nat)
    requires Fresh(c, r, currentTime) && currentTime <= app && ClocksAgree(c, app, db)
    requires CheckAndStore(c, w.rows, r.nonce, db).1
    ensures Remembered(c, Next(c, w, Arrive(r, currentTime, app, db)), r)
  {
  }

  lemma NextKeeps(c: Config, w: World, step: Step, delay: nat)
    requires Inv(c, w) && Covers(c, delay) && Timely(w, step, delay)
    ensures Inv(c, Next(c, w, step))
  {
    hide CheckAndStore, ClocksAgree;
    var nonce := if step.Arrive? then step.request.nonce else step.nonce;
    if ClocksAgree(c, step.app, step.db) {
      forall i | 0 <= i < |w.accepted|
        ensures Remembered(c, World(CheckAndStore(c, w.rows, nonce, step.db).0, step.app, w.accepted), w.accepted[i])
      {
        StoreRemembers(c, w, nonce, step.app, step.db, w.accepted[i]);
      }
      if step.Arrive? && Fresh(c, step.request, step.currentTime) && CheckAndStore(c, w.rows, nonce, step.db).1 {
        AcceptanceIsRemembered(c, w, step.request, step.currentTime, step.app, step.db);
        forall i | 0 <= i < |w.accepted| ensures w.accepted[i] != step.request {
          if w.accepted[i] == step.request {
            AcceptedOnlyOnce(c, w, step.request, step.currentTime, step.app, step.db, delay);
          }
        }
      }
    }
  }

  lemma {:induction false} RunKeeps(c: Config, steps: seq<Step>, delay: nat)
    requires Covers(c, delay) && AllTimely(c, Empty, steps, delay)
    ensures Inv(c, Run(c, Empty, steps))
  {
    hide Next, Covers;
    if |steps| > 0 {
      var front := steps[..|steps| - 1];
      forall i | 0 <= i < |front| ensures Timely(Run(c, Empty, front[..i]), front[i], delay) {
        assert front[..i] == steps[..i];
      }
      RunKeeps(c, front, delay);
      NextKeeps(c, Run(c, Empty, front), steps[|steps| - 1], delay);
    }
  }

  ghost predicate AcceptedTwice(w: World) {
    exists i, j :: 0 <= i < j < |w.accepted| && w.accepted[i] == w.accepted[j]
  }

  // ---- The bound is exact ----

  /**
   * A replay at the edge: stored as early and seen as late as freshness, skew, rounding and delay allow. The
   * application clock starts far enough from zero for the database clock behind it to be a time after 1970.
   */
  function Base(c: Config): nat {
    c.skew + 1
  }

  function Request0(c: Config): Request {
    Request("k", Base(c) + c.freshness, "n", "b")
  }

  /** The database clocks of the two arrivals: as far behind and as far ahead as the store tolerates. */
  function EarlyDb(c: Config): nat {
    (Base(c) - c.skew) * 1000 - 500
  }

  function LateDb(c: Config, delay: nat): nat {
    (Base(c) + 2 * c.freshness + delay + c.skew) * 1000 + 499
  }

  function Replayed(c: Config, delay: nat): seq<Step> {
    [Arrive(Request0(c), Base(c), Base(c), EarlyDb(c)),
     Arrive(Request0(c), Base(c) + 2 * c.freshness, Base(c) + 2 * c.freshness + delay, LateDb(c, delay))]
  }

  lemma ReplayedTwice(c: Config, delay: nat)
    requires !Covers(c, delay)
    ensures AllTimely(c, Empty, Replayed(c, delay), delay)
    ensures AcceptedTwice(Run(c, Empty, Replayed(c, delay)))
  {
    var steps, r := Replayed(c, delay), Request0(c);
    var first := World(map["n" := EarlyDb(c) + c.retention * 1000], Base(c), [r]);
    assert steps[..0] == [] && steps[..1] == [steps[0]] && steps[..2] == steps;
    assert NearestMs(EarlyDb(c)) == Base(c) - c.skew && NearestMs(LateDb(c, delay)) == Base(c) + 2 * c.freshness + delay + c.skew;
    assert Next(c, Empty, steps[0]) == first;
    assert "n" !in Pruned(first.rows, LateDb(c, delay));
    var second := Next(c, first, steps[1]);
    assert second.accepted == [r, r];
    assert steps[..1][..0] == [];
    assert Run(c, Empty, steps[..1]) == first;
    assert Run(c, Empty, steps) == second;
    assert second.accepted[0] == second.accepted[1];
  }

  /**
   * For requests that reach the store within `delay` of their freshness check, no signed request is accepted
   * twice exactly when the retention exceeds twice the freshness, twice the skew and the delay, whatever
   * other requests prune in between.
   */
  lemma NoReplayExactlyWhenCovered(c: Config, delay: nat)
    ensures Covers(c, delay) <==>
            forall steps :: AllTimely(c, Empty, steps, delay) ==> !AcceptedTwice(Run(c, Empty, steps))
  {
    if Covers(c, delay) {
      forall steps | AllTimely(c, Empty, steps, delay) ensures !AcceptedTwice(Run(c, Empty, steps)) {
        RunKeeps(c, steps, delay);
      }
    } else {
      ReplayedTwice(c, delay);
    }
  }

  /**
   * The receiver's own inequality is the one for every delay shorter than its safety margin. A delay equal to the
   * margin is covered exactly when retention exceeds the demanded minimum: the rounding costs the last millisecond.
   */
  lemma AdmittedCovers(c: Config, delay: nat)
    ensures c.safety >= 1 ==> (Admitted(c) <==> Covers(c, c.safety - 1))
    ensures Admitted(c) && delay < c.safety ==> Covers(c, delay)
    ensures Admitted(c) && delay == c.safety ==> (Covers(c, delay) <==> c.retention - 2 * c.skew > 2 * c.freshness + c.safety)
  {
  }

  // ---- What is accepted ----

  function NonceOf(step: Step): string {
    if step.Arrive? then step.request.nonce else step.nonce
  }

  /** A step that gets as far as the table: a stale request does not, and neither does anything on disagreeing clocks. */
  predicate Uses(c: Config, step: Step) {
    && (step.Arrive? ==> step.currentTime - c.freshness <= step.request.timestamp <= step.currentTime + c.freshness)
    && step.app - c.skew <= NearestMs(step.db) <= step.app + c.skew
  }

  function Expiry(c: Config, step: Step): int {
    step.db + c.retention * 1000
  }

  /** From step j on, up to but not including n, no clock that pruned the table was past the expiry of j's row. */
  predicate Lasts(c: Config, steps: seq<Step>, j: nat, n: nat)
    requires j < n <= |steps|
  {
    forall k :: j < k < n && Uses(c, steps[k]) ==> steps[k].db <= Expiry(c, steps[j])
  }

  /** A step whose nonce is new: it uses the table, and no earlier step whose nonce was new left a row that lasts through it. */
  predicate IsNew(c: Config, steps: seq<Step>, i: nat)
    requires i < |steps|
    decreases i
  {
    && Uses(c, steps[i])
    && forall j: nat :: j < i && NonceOf(steps[j]) == NonceOf(steps[i]) && IsNew(c, steps, j) ==> !Lasts(c, steps, j, i + 1)
  }

  /** Step j's row is in the table after the first n steps. */
  predicate Left(c: Config, steps: seq<Step>, n: nat, nonce: string, j: nat)
    requires n <= |steps|
  {
    j < n && IsNew(c, steps, j) && NonceOf(steps[j]) == nonce && Lasts(c, steps, j, n)
  }

  ghost predicate SomeLeft(c: Config, steps: seq<Step>, n: nat, nonce: string)
    requires n <= |steps|
  {
    exists j: nat :: Left(c, steps, n, nonce, j)
  }

  /** The table is what the history of its uses says. */
  ghost predicate RowsAre(c: Config, steps: seq<Step>, n: nat, rows: map<string, int>)
    requires n <= |steps|
  {
    && (forall nonce :: nonce in rows ==> SomeLeft(c, steps, n, nonce))
    && (forall nonce, j: nat :: Left(c, steps, n, nonce, j) ==> nonce in rows && rows[nonce] == Expiry(c, steps[j]))
  }

  lemma LastsOneMore(c: Config, steps: seq<Step>, n: nat, j: nat)
    requires j < n < |steps|
    ensures Lasts(c, steps, j, n + 1) <==> Lasts(c, steps, j, n) && (Uses(c, steps[n]) ==> steps[n].db <= Expiry(c, steps[j]))
  {
    hide Uses, Expiry;
  }

  lemma StoredExactly(c: Config, w: World, step: Step)
    ensures Uses(c, step) ==> Next(c, w, step).rows == AfterUse(c, w.rows, step)
    ensures !Uses(c, step) ==> Next(c, w, step).rows == w.rows
  {
  }

  lemma NewExactly(c: Config, steps: seq<Step>, n: nat, rows: map<string, int>)
    requires n < |steps| && RowsAre(c, steps, n, rows) && Uses(c, steps[n])
    ensures IsNew(c, steps, n) <==> NonceOf(steps[n]) !in Pruned(rows, steps[n].db)
  {
    hide Uses;
    var nonce := NonceOf(steps[n]);
    if nonce in Pruned(rows, steps[n].db) {
      var j: nat :| Left(c, steps, n, nonce, j);
      LastsOneMore(c, steps, n, j);
    } else {
      forall j: nat | j < n && NonceOf(steps[j]) == nonce && IsNew(c, steps, j) ensures !Lasts(c, steps, j, n + 1) {
        LastsOneMore(c, steps, n, j);
        if Lasts(c, steps, j, n) { assert Left(c, steps, n, nonce, j); }
      }
    }
  }

  function AfterUse(c: Config, rows: map<string, int>, step: Step): map<string, int> {
    var kept := Pruned(rows, step.db);
    if NonceOf(step) in kept then kept else kept[NonceOf(step) := Expiry(c, step)]
  }

  lemma OriginOfRow(c: Config, steps: seq<Step>, n: nat, rows: map<string, int>, nonce: string)
    requires n < |steps| && RowsAre(c, steps, n, rows) && Uses(c, steps[n]) && nonce in AfterUse(c, rows, steps[n])
    ensures SomeLeft(c, steps, n + 1, nonce)
  {
    NewExactly(c, steps, n, rows);
    hide Uses, IsNew, Lasts, Expiry;
    if nonce in Pruned(rows, steps[n].db) {
      var j: nat :| Left(c, steps, n, nonce, j);
      assert rows[nonce] == Expiry(c, steps[j]);
      LastsOneMore(c, steps, n, j);
      assert Left(c, steps, n + 1, nonce, j);
    } else {
      LastsAtOnce(c, steps, n);
      assert Left(c, steps, n + 1, nonce, n);
    }
  }

  lemma LeftIsRow(c: Config, steps: seq<Step>, n: nat, rows: map<string, int>, nonce: string, j: nat)
    requires n < |steps| && RowsAre(c, steps, n, rows) && Uses(c, steps[n]) && Left(c, steps, n + 1, nonce, j)
    ensures nonce in AfterUse(c, rows, steps[n]) && AfterUse(c, rows, steps[n])[nonce] == Expiry(c, steps[j])
  {
    NewExactly(c, steps, n, rows);
    hide Uses, IsNew, Lasts, Expiry;
    if j < n {
      LastsOneMore(c, steps, n, j);
      assert Left(c, steps, n, nonce, j);
    }
  }

  /** A use of the table leaves exactly the rows that outlast it, and its own if it is new. */
  lemma UseKeepsRows(c: Config, steps: seq<Step>, n: nat, rows: map<string, int>)
    requires n < |steps| && RowsAre(c, steps, n, rows) && Uses(c, steps[n])
    ensures RowsAre(c, steps, n + 1, AfterUse(c, rows, steps[n]))
  {
    hide Uses, IsNew, Lasts, Expiry, AfterUse, SomeLeft;
    var rows' := AfterUse(c, rows, steps[n]);
    forall nonce | nonce in rows' ensures SomeLeft(c, steps, n + 1, nonce) { OriginOfRow(c, steps, n, rows, nonce); }
    forall nonce, j: nat | Left(c, steps, n + 1, nonce, j) ensures nonce in rows' && rows'[nonce] == Expiry(c, steps[j]) {
      LeftIsRow(c, steps, n, rows, nonce, j);
    }
  }

  lemma LastsAtOnce(c: Config, steps: seq<Step>, n: nat)
    requires n < |steps|
    ensures Lasts(c, steps, n, n + 1)
  {
  }

  lemma OtherKeepsRows(c: Config, steps: seq<Step>, n: nat, rows: map<string, int>)
    requires n < |steps| && RowsAre(c, steps, n, rows) && !Uses(c, steps[n])
    ensures RowsAre(c, steps, n + 1, rows)
  {
    hide Uses, Lasts;
    forall nonce, j: nat ensures Left(c, steps, n + 1, nonce, j) <==> Left(c, steps, n, nonce, j) {
      if j < n { LastsOneMore(c, steps, n, j); }
    }
  }

  lemma {:induction false} RunRows(c: Config, steps: seq<Step>, n: nat)
    requires n <= |steps|
    ensures RowsAre(c, steps, n, Run(c, Empty, steps[..n]).rows)
  {
    hide RowsAre, Uses, Next;
    if n == 0 {
      NoRows(c, steps);
    } else {
      RunRows(c, steps, n - 1);
      assert steps[..n][..n - 1] == steps[..n - 1] && steps[..n][n - 1] == steps[n - 1];
      var w := Run(c, Empty, steps[..n - 1]);
      StoredExactly(c, w, steps[n - 1]);
      if Uses(c, steps[n - 1]) { UseKeepsRows(c, steps, n - 1, w.rows); }
      else { OtherKeepsRows(c, steps, n - 1, w.rows); }
    }
  }

  lemma NoRows(c: Config, steps: seq<Step>)
    ensures RowsAre(c, steps, 0, Run(c, Empty, steps[..0]).rows)
  {
  }

  /**
   * In every run a request is accepted exactly when it is fresh, the clocks agree and its nonce is new: no earlier
   * use of the nonce that was new left a row which every clock since, this one included, still found unexpired.
   */
  lemma AcceptedExactlyWhenNew(c: Config, steps: seq<Step>, i: nat)
    requires i < |steps| && steps[i].Arrive?
    ensures var before, after := Run(c, Empty, steps[..i]), Run(c, Empty, steps[..i + 1]);
            after.accepted == if IsNew(c, steps, i) then before.accepted + [steps[i].request] else before.accepted
  {
    RunRows(c, steps, i);
    assert steps[..i + 1][..i] == steps[..i] && steps[..i + 1][i] == steps[i];
    var w := Run(c, Empty, steps[..i]);
    if Uses(c, steps[i]) { NewExactly(c, steps, i, w.rows); }
    hide RowsAre, Run;
    assert Run(c, Empty, steps[..i + 1]) == Next(c, w, steps[i]) by { RunUnfolds(c, steps, i); }
    AcceptsNew(c, w, steps[i]);
  }

  lemma RunUnfolds(c: Config, steps: seq<Step>, i: nat)
    requires i < |steps|
    ensures Run(c, Empty, steps[..i + 1]) == Next(c, Run(c, Empty, steps[..i]), steps[i])
  {
    assert steps[..i + 1][..i] == steps[..i];
  }

  lemma AcceptsNew(c: Config, w: World, step: Step)
    requires step.Arrive?
    ensures Next(c, w, step).accepted ==
              if Uses(c, step) && NonceOf(step) !in Pruned(w.rows, step.db) then w.accepted + [step.request] else w.accepted
  {
  }

  /** A nonce that no earlier step brought to the table is always new. */
  lemma UnusedNoncesAreNew(c: Config, steps: seq<Step>, i: nat)
    requires i < |steps| && Uses(c, steps[i])
    requires forall j :: 0 <= j < i && Uses(c, steps[j]) ==> NonceOf(steps[j]) != NonceOf(steps[i])
    ensures IsNew(c, steps, i)
  {
    hide Uses;
  }

  /** With nothing in between, a nonce is new again exactly when the retention has run out on the database clock. */
  lemma NewAgainAfterRetention(c: Config, steps: seq<Step>, i: nat)
    requires i + 1 < |steps| && IsNew(c, steps, i) && Uses(c, steps[i + 1]) && NonceOf(steps[i + 1]) == NonceOf(steps[i])
    ensures IsNew(c, steps, i + 1) <==> steps[i + 1].db > steps[i].db + c.retention * 1000
  {
    hide Uses;
    LastsAtOnce(c, steps, i);
    LastsOneMore(c, steps, i + 1, i);
    if steps[i + 1].db > Expiry(c, steps[i]) {
      forall j: nat | j < i + 1 && NonceOf(steps[j]) == NonceOf(steps[i + 1]) && IsNew(c, steps, j) ensures !Lasts(c, steps, j, i + 2) {
        if j < i {
          LastsOneMore(c, steps, i + 1, j);
          assert !Lasts(c, steps, j, i + 1);
        }
      }
    }
  }

  // ---- The receiver ----

  datatype Outcome = Stale | BadSignature | SkewExceeded | Replay | Accepted

  class HttpOutboxReceiver {
    const config: Config
    var world: World

    constructor (config: Config)
      requires Admitted(config)
      ensures this.config == config && world == Empty
    {
      this.config := config;
      world := Empty;
    }

    /** PgReplayNonceStore.checkAndStore: None when the clocks disagree and the store fails closed. */
    method CheckAndStoreInTx(nonce: string, app: nat, db: nat) returns (isNew: Option<bool>)
      modifies this
      ensures isNew.None? <==> !ClocksAgree(config, app, db)
      ensures isNew.None? ==> world == old(world).(app := app)
      ensures isNew.Some? ==>
                && world == old(world).(rows := CheckAndStore(config, old(world).rows, nonce, db).0, app := app)
                && isNew.value == CheckAndStore(config, old(world).rows, nonce, db).1
      ensures isNew.Some? ==>
                && (isNew.value <==> !(nonce in old(world).rows && old(world).rows[nonce] >= db))
                && nonce in world.rows && (isNew.value ==> world.rows[nonce] == db + config.retention * 1000)
                && forall n :: n != nonce ==>
                     (n in world.rows <==> n in old(world).rows && old(world).rows[n] >= db)
                     && (n in world.rows ==> world.rows[n] == old(world).rows[n])
    {
      var before := world.rows;
      world := world.(app := app);
      var dbNow := NearestMs(db);
      if dbNow - app > config.skew || app - dbNow > config.skew { return None; }
      var kept := Pruned(before, db);
      if nonce in kept {
        world := world.(rows := kept);
        return Some(false);
      }
      world := world.(rows := kept[nonce := db + config.retention * 1000]);
      return Some(true);
    }

    /** The checks of the handler from freshness on, in order. */
    method Handle(r: Request, authentic: bool, currentTime: nat, app: nat, db: nat) returns (outcome: Outcome)
      modifies this
      ensures outcome == (if !Fresh(config, r, currentTime) then Stale
                          else if !authentic then BadSignature
                          else if !ClocksAgree(config, app, db) then SkewExceeded
                          else if CheckAndStore(config, old(world).rows, r.nonce, db).1 then Accepted else Replay)
      ensures outcome == Accepted <==>
                && authentic && Uses(config, Arrive(r, currentTime, app, db))
                && !(r.nonce in old(world).rows && old(world).rows[r.nonce] >= db)
      ensures authentic ==> world == Next(config, old(world), Arrive(r, currentTime, app, db))
      ensures authentic ==> (outcome == Accepted <==> |world.accepted| > |old(world).accepted|)
      ensures !authentic ==> world == old(world)
    {
      if currentTime - r.timestamp > config.freshness || r.timestamp - currentTime > config.freshness { return Stale; }
      if !authentic { return BadSignature; }
      var isNew := CheckAndStoreInTx(r.nonce, app, db);
      if isNew.None? { return SkewExceeded; }
      if !isNew.value { return Replay; }
      world := world.(accepted := world.accepted + [r]);
      return Accepted;
    }
  }
}
