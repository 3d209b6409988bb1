/**
 * The governed Redis nonce store of packages/server/src/redis-governed.ts. A key set with PX d at time t is
 * visible through t + d, where its PTTL is 0. Redis does not roll a script back when the server fails in the
 * middle of it, so a script runs with a number of writes it lives to make. Keys can also be lost.
 */
module RedisGoverned {
  import opened Wrappers

  /** The stored text `retention:quarantine`; a text that does not parse reads as zeros. */
  datatype Config = Config(text: string, retention: nat, quarantine: nat) {
    predicate Parses() {
      retention > 0 && quarantine > 0
    }
  }

  datatype Quarantine = Quarantine(epoch: string, until: int)

  datatype Redis = Redis(
    epoch: Option<string>,
    quarantine: Option<Quarantine>,
    config: Option<Config>,
    nonces: map<string, int>)

  datatype Status =
    | Crashed
    | Invalid
    | CheckedOk
    | ConfigEstablished
    | ConfigMissing
    | ConfigInvalid
    | ConfigMismatch
    | Missing
    | EpochChanged
    | Malformed
    | Quarantined
    | Fresh
    | Replay

  /** A script in progress: the store, and how many more writes it makes before the server dies. */
  datatype Exec = Exec(redis: Redis, budget: nat)

  datatype Reply = Reply(status: Status, epoch: string, ttl: int)

  predicate Alive(until: int, now: int) {
    now <= until
  }

  function LiveQuarantine(r: Redis, now: int): Option<Quarantine> {
    if r.quarantine.Some? && Alive(r.quarantine.value.until, now) then r.quarantine else None
  }

  /** PTTL of the quarantine key: -2 when there is none. */
  function Pttl(r: Redis, now: int): int {
    var q := LiveQuarantine(r, now);
    if q.Some? then q.value.until - now else -2
  }

  function Or(epoch: Option<string>, fallback: string): string {
    if epoch.Some? then epoch.value else fallback
  }

  // ---- Writes, each made only while the script lives ----

  function SetQuarantine(x: Exec, now: int, epoch: string, duration: nat): Exec {
    if x.budget == 0 then x
    else Exec(x.redis.(quarantine := Some(Quarantine(epoch, now + duration))), x.budget - 1)
  }

  function SetEpochNx(x: Exec, epoch: string): Exec {
    if x.budget == 0 then x
    else Exec(if x.redis.epoch.Some? then x.redis else x.redis.(epoch := Some(epoch)), x.budget - 1)
  }

  function SetConfigNx(x: Exec, config: Config): Exec {
    if x.budget == 0 then x
    else Exec(if x.redis.config.Some? then x.redis else x.redis.(config := Some(config)), x.budget - 1)
  }

  /** quarantine_at_least: extends the shared quarantine, or starts one. */
  function QuarantineAtLeast(x: Exec, now: int, epoch: string, minimum: nat): Exec {
    var ttl := Pttl(x.redis, now);
    SetQuarantine(x, now, epoch, if ttl > minimum then ttl else minimum)
  }

  function Max(a: nat, b: nat): nat {
    if a > b then a else b
  }

  // ---- RECONCILE_SCRIPT ----

  function ReconcileConfig(x: Exec, now: int, newEpoch: string, c: Config): (Exec, Status) {
    if x.redis.config.Some? then (x, CheckedOk)
    else (SetConfigNx(QuarantineAtLeast(x, now, Or(x.redis.epoch, newEpoch), c.quarantine), c), ConfigEstablished)
  }

  function ReconcileEpoch(x: Exec, now: int, newEpoch: string, c: Config, status: Status): (Exec, Status) {
    if x.redis.epoch.Some? then (x, status)
    else (SetEpochNx(QuarantineAtLeast(x, now, newEpoch, c.quarantine), newEpoch), Missing)
  }

  function ReconcileExpected(x: Exec, now: int, expected: Option<string>, c: Config, status: Status): (Exec, Status) {
    if expected.Some? && x.redis.epoch != expected
    then (QuarantineAtLeast(x, now, Or(x.redis.epoch, ""), c.quarantine), EpochChanged)
    else (x, status)
  }

  function ReconcileQuarantine(x: Exec, now: int, c: Config): Exec {
    var q := LiveQuarantine(x.redis, now);
    if q.Some? && (Some(q.value.epoch) != x.redis.epoch || q.value.until - now <= 0)
    then QuarantineAtLeast(x, now, Or(x.redis.epoch, ""), c.quarantine) else x
  }

  function Reconcile(x: Exec, now: int, newEpoch: string, expected: Option<string>, c: Config): (Exec, Reply) {
    if c.quarantine == 0 then (x, Reply(Invalid, "", -2)) else
    var (x1, s1) := ReconcileConfig(x, now, newEpoch, c);
    if x1.redis.config.None? then (x1, Reply(Crashed, "", -2))
    else if !x1.redis.config.value.Parses() then
      var y := QuarantineAtLeast(x1, now, Or(x1.redis.epoch, newEpoch), c.quarantine);
      (y, Reply(ConfigInvalid, Or(x1.redis.epoch, newEpoch), Pttl(y.redis, now)))
    else if x1.redis.config.value != c then
      var y := QuarantineAtLeast(x1, now, Or(x1.redis.epoch, newEpoch), Max(c.quarantine, x1.redis.config.value.quarantine));
      (y, Reply(ConfigMismatch, Or(x1.redis.epoch, newEpoch), Pttl(y.redis, now)))
    else
      var (x2, s2) := ReconcileEpoch(x1, now, newEpoch, c, s1);
      if x2.redis.epoch.None? then (x2, Reply(Invalid, "", Pttl(x2.redis, now)))
      else
        var (x3, s3) := ReconcileExpected(x2, now, expected, c, s2);
        var x4 := ReconcileQuarantine(x3, now, c);
        (x4, Reply(s3, x4.redis.epoch.value, Pttl(x4.redis, now)))
  }

  // ---- CONSUME_SCRIPT ----

  function LiveNonce(r: Redis, nonce: string, now: int): bool {
    nonce in r.nonces && Alive(r.nonces[nonce], now)
  }

  function Consume(x: Exec, now: int, nonce: string, expected: string, newEpoch: string, c: Config): (Exec, Reply) {
    if c.quarantine == 0 then (x, Reply(Invalid, "", -2))
    else if x.redis.config.None? then
      var y := SetConfigNx(QuarantineAtLeast(x, now, Or(x.redis.epoch, newEpoch), c.quarantine), c);
      (y, Reply(ConfigMissing, Or(x.redis.epoch, newEpoch), Pttl(y.redis, now)))
    else if !x.redis.config.value.Parses() then
      var y := QuarantineAtLeast(x, now, Or(x.redis.epoch, newEpoch), c.quarantine);
      (y, Reply(ConfigInvalid, Or(x.redis.epoch, newEpoch), Pttl(y.redis, now)))
    else if x.redis.config.value != c then
      var y := QuarantineAtLeast(x, now, Or(x.redis.epoch, newEpoch), Max(c.quarantine, x.redis.config.value.quarantine));
      (y, Reply(ConfigMismatch, Or(x.redis.epoch, newEpoch), Pttl(y.redis, now)))
    else if x.redis.epoch.None? then
      var y := SetEpochNx(QuarantineAtLeast(x, now, newEpoch, c.quarantine), newEpoch);
      (y, Reply(Missing, Or(y.redis.epoch, ""), Pttl(y.redis, now)))
    else if x.redis.epoch.value != expected then
      var y := QuarantineAtLeast(x, now, x.redis.epoch.value, c.quarantine);
      (y, Reply(EpochChanged, x.redis.epoch.value, Pttl(y.redis, now)))
    else if LiveQuarantine(x.redis, now).Some? then
      (var q := LiveQuarantine(x.redis, now).value;
       if q.epoch != x.redis.epoch.value || q.until - now <= 0 then
         var y := QuarantineAtLeast(x, now, x.redis.epoch.value, c.quarantine);
         (y, Reply(Malformed, x.redis.epoch.value, Pttl(y.redis, now)))
       else (x, Reply(Quarantined, x.redis.epoch.value, q.until - now)))
    else if LiveNonce(x.redis, nonce, now) then (x, Reply(Replay, x.redis.epoch.value, -2))
    else if x.budget == 0 then (x, Reply(Crashed, "", -2))
    else (Exec(x.redis.(nonces := x.redis.nonces[nonce := now + c.retention]), x.budget - 1),
          Reply(Fresh, x.redis.epoch.value, -2))
  }

  // ---- Runs ----

  datatype Acceptance = Acceptance(nonce: string, at: int)

  datatype World = World(redis: Redis, now: int, accepted: seq<Acceptance>)

  /** The keys a failure loses. */
  datatype Loss = Loss(epoch: bool, config: bool, quarantine: bool, nonces: set<string>)

  datatype Step =
    | Tick(ms: nat)
    | RunReconcile(newEpoch: string, checkpointed: Option<string>, budget: nat)
    | RunConsume(nonce: string, expected: string, newEpoch: string, budget: nat)
    | Lose(loss: Loss)

  function Without(r: Redis, l: Loss): Redis {
    Redis(if l.epoch then None else r.epoch,
          if l.quarantine then None else r.quarantine,
          if l.config then None else r.config,
          r.nonces - l.nonces)
  }

  function Next(c: Config, w: World, step: Step): World {
    match step
    case Tick(ms) => w.(now := w.now + ms)
    case RunReconcile(newEpoch, expected, budget) =>
      w.(redis := Reconcile(Exec(w.redis, budget), w.now, newEpoch, expected, c).0.redis)
    case RunConsume(nonce, expected, newEpoch, budget) =>
      var (x, reply) := Consume(Exec(w.redis, budget), w.now, nonce, expected, newEpoch, c);
      World(x.redis, w.now, if reply.status == Fresh then w.accepted + [Acceptance(nonce, w.now)] else w.accepted)
    case Lose(l) => w.(redis := Without(w.redis, l))
  }

  function Run(c: Config, w: World, steps: seq<Step>): World {
    if |steps| == 0 then w else Next(c, Run(c, w, steps[..|steps| - 1]), steps[|steps| - 1])
  }

  const Empty := World(Redis(None, None, None, map[]), 0, [])

  /** The fault model: a failure that loses any key loses the epoch marker or the configuration marker too. */
  predicate LossTakesAMarker(step: Step) {
    step.Lose? ==> step.loss.epoch || step.loss.config
  }

  // ---- Safety ----

  predicate MarkerMissing(r: Redis) {
    r.epoch.None? || r.config.None?
  }

  predicate QuarantinedThrough(r: Redis, t: int) {
    r.quarantine.Some? && r.quarantine.value.until >= t
  }

  predicate NonceThrough(r: Redis, nonce: string, t: int) {
    nonce in r.nonces && r.nonces[nonce] >= t
  }

  /** Why a nonce accepted at `a.at` cannot be accepted again before its retention has passed. */
  predicate Guarded(c: Config, r: Redis, a: Acceptance) {
    || NonceThrough(r, a.nonce, a.at + c.retention)
    || QuarantinedThrough(r, a.at + c.retention)
    || MarkerMissing(r)
  }

  ghost predicate Inv(c: Config, w: World) {
    && (forall i :: 0 <= i < |w.accepted| ==> w.accepted[i].at <= w.now)
    && (forall i :: 0 <= i < |w.accepted| ==> w.now <= w.accepted[i].at + c.retention ==> Guarded(c, w.redis, w.accepted[i]))
    && (forall i, j :: 0 <= i < j < |w.accepted| ==> Apart(c, w.accepted[i], w.accepted[j]))
  }

  predicate Apart(c: Config, a: Acceptance, b: Acceptance) {
    a.nonce == b.nonce ==> b.at > a.at + c.retention
  }

  /** What no script write undoes: longer quarantine, kept nonces, and markers that reappear only under quarantine. */
  ghost predicate Preserves(c: Config, now: int, before: Redis, after: Redis) {
    && (forall t :: t >= now && QuarantinedThrough(before, t) ==> QuarantinedThrough(after, t))
    && (forall n, t :: t >= now && NonceThrough(before, n, t) ==> NonceThrough(after, n, t))
    && (before.epoch.None? && after.epoch.Some? ==> QuarantinedThrough(after, now + c.quarantine))
    && (before.config.None? && after.config.Some? ==> QuarantinedThrough(after, now + c.quarantine))
  }

  lemma QuarantineIsNeverShortened(x: Exec, now: int, epoch: string, minimum: nat, t: int)
    requires QuarantinedThrough(x.redis, t) && t >= now
    ensures QuarantinedThrough(QuarantineAtLeast(x, now, epoch, minimum).redis, t)
  {
  }

  lemma PreservesThen(c: Config, now: int, a: Redis, b: Redis, d: Redis)
    requires Preserves(c, now, a, b) && Preserves(c, now, b, d)
    ensures Preserves(c, now, a, d)
  {
  }

  lemma AtLeastPreserves(c: Config, x: Exec, now: int, epoch: string, minimum: nat)
    ensures Preserves(c, now, x.redis, QuarantineAtLeast(x, now, epoch, minimum).redis)
  {
  }

  lemma ReconcileConfigPreserves(c: Config, x: Exec, now: int, newEpoch: string)
    ensures Preserves(c, now, x.redis, ReconcileConfig(x, now, newEpoch, c).0.redis)
  {
  }

  lemma ReconcileEpochPreserves(c: Config, x: Exec, now: int, newEpoch: string, status: Status)
    ensures Preserves(c, now, x.redis, ReconcileEpoch(x, now, newEpoch, c, status).0.redis)
  {
  }

  lemma ReconcilePreserves(c: Config, x: Exec, now: int, newEpoch: string, expected: Option<string>)
    ensures Preserves(c, now, x.redis, Reconcile(x, now, newEpoch, expected, c).0.redis)
  {
    hide Preserves, ReconcileConfig, ReconcileEpoch, QuarantineAtLeast;
    var (x1, s1) := ReconcileConfig(x, now, newEpoch, c);
    var (x2, s2) := ReconcileEpoch(x1, now, newEpoch, c, s1);
    var (x3, s3) := ReconcileExpected(x2, now, expected, c, s2);
    ReconcileConfigPreserves(c, x, now, newEpoch);
    ReconcileEpochPreserves(c, x1, now, newEpoch, s1);
    AtLeastPreserves(c, x1, now, Or(x1.redis.epoch, newEpoch), c.quarantine);
    if x1.redis.config.Some? {
      AtLeastPreserves(c, x1, now, Or(x1.redis.epoch, newEpoch), Max(c.quarantine, x1.redis.config.value.quarantine));
      PreservesThen(c, now, x.redis, x1.redis,
                    QuarantineAtLeast(x1, now, Or(x1.redis.epoch, newEpoch), Max(c.quarantine, x1.redis.config.value.quarantine)).redis);
    }
    PreservesThen(c, now, x.redis, x1.redis, QuarantineAtLeast(x1, now, Or(x1.redis.epoch, newEpoch), c.quarantine).redis);
    AtLeastPreserves(c, x2, now, Or(x2.redis.epoch, ""), c.quarantine);
    AtLeastPreserves(c, x3, now, Or(x3.redis.epoch, ""), c.quarantine);
    PreservesItself(c, now, x.redis);
    PreservesItself(c, now, x2.redis);
    PreservesItself(c, now, x3.redis);
    PreservesThen(c, now, x.redis, x1.redis, x2.redis);
    PreservesThen(c, now, x.redis, x2.redis, x3.redis);
    PreservesThen(c, now, x.redis, x3.redis, ReconcileQuarantine(x3, now, c).redis);
  }

  lemma PreservesItself(c: Config, now: int, r: Redis)
    ensures Preserves(c, now, r, r)
  {
  }

  lemma ConsumePreserves(c: Config, x: Exec, now: int, nonce: string, expected: string, newEpoch: string)
    ensures Preserves(c, now, x.redis, Consume(x, now, nonce, expected, newEpoch, c).0.redis)
  {
  }

  /** No script shortens a live quarantine, wherever it dies. */
  lemma ScriptsNeverShortenTheQuarantine(c: Config, x: Exec, now: int, nonce: string, expected: string, newEpoch: string,
                                         continuity: Option<string>, t: int)
    requires QuarantinedThrough(x.redis, t) && t >= now
    ensures QuarantinedThrough(Reconcile(x, now, newEpoch, continuity, c).0.redis, t)
    ensures QuarantinedThrough(Consume(x, now, nonce, expected, newEpoch, c).0.redis, t)
  {
    hide Reconcile, Consume, QuarantinedThrough;
    ReconcilePreserves(c, x, now, newEpoch, continuity);
    ConsumePreserves(c, x, now, nonce, expected, newEpoch);
  }

  // ---- What the scripts answer ----

  /** Both markers are there and say what this process expects. */
  predicate Marked(r: Redis, c: Config, expected: string) {
    r.config == Some(c) && c.retention > 0 && c.quarantine > 0 && r.epoch == Some(expected)
  }

  predicate UnderQuarantine(r: Redis, now: int) {
    match r.quarantine case None => false case Some(q) => now <= q.until
  }

  predicate Seen(r: Redis, nonce: string, now: int) {
    nonce in r.nonces && now <= r.nonces[nonce]
  }

  /**
   * With its markers in place and no quarantine, a nonce is a replay exactly while its key lives, and fresh otherwise
   * unless the server dies first; only a fresh one changes anything, and only its own key.
   */
  lemma MarkedAnswers(c: Config, x: Exec, now: int, nonce: string, expected: string, newEpoch: string)
    requires Marked(x.redis, c, expected) && !UnderQuarantine(x.redis, now)
    ensures var (after, reply) := Consume(x, now, nonce, expected, newEpoch, c);
            if Seen(x.redis, nonce, now) then after == x && reply == Reply(Replay, expected, -2)
            else if x.budget == 0 then after == x && reply.status == Crashed
            else reply == Reply(Fresh, expected, -2)
                 && after == Exec(x.redis.(nonces := x.redis.nonces[nonce := now + c.retention]), x.budget - 1)
  {
  }

  /** Everything else is refused, each condition with its own status. */
  lemma RefusedStatuses(c: Config, x: Exec, now: int, nonce: string, expected: string, newEpoch: string)
    requires c.retention > 0 && c.quarantine > 0
    ensures var r, status := x.redis, Consume(x, now, nonce, expected, newEpoch, c).1.status;
            && (status == ConfigMissing <==> r.config == None)
            && (status == ConfigInvalid <==> r.config.Some? && (r.config.value.retention == 0 || r.config.value.quarantine == 0))
            && (status == ConfigMismatch <==>
                  r.config.Some? && r.config != Some(c) && r.config.value.retention > 0 && r.config.value.quarantine > 0)
            && (status == Missing <==> r.config == Some(c) && r.epoch == None)
            && (status == EpochChanged <==> r.config == Some(c) && r.epoch.Some? && r.epoch != Some(expected))
            && (status == Malformed <==>
                  Marked(r, c, expected) && UnderQuarantine(r, now) && (r.quarantine.value.epoch != expected || r.quarantine.value.until == now))
            && (status == Quarantined <==>
                  Marked(r, c, expected) && UnderQuarantine(r, now) && r.quarantine.value.epoch == expected && r.quarantine.value.until > now)
  {
  }

  /** The epoch a script works under: the stored one, or the new one when there was none. */
  function EpochAfter(r: Redis, newEpoch: string): string {
    match r.epoch case None => newEpoch case Some(e) => e
  }

  /** SET NX: a marker that stands is never replaced. */
  lemma MarkersAreNotReplaced(x: Exec, epoch: string, config: Config)
    ensures x.redis.epoch.Some? ==> SetEpochNx(x, epoch).redis == x.redis
    ensures x.redis.config.Some? ==> SetConfigNx(x, config).redis == x.redis
  {
  }

  /** Without a quarantine length neither script does anything. */
  lemma NoLengthNoScript(c: Config, x: Exec, now: int, nonce: string, expected: string, newEpoch: string, continuity: Option<string>)
    requires c.quarantine == 0
    ensures Consume(x, now, nonce, expected, newEpoch, c) == (x, Reply(Invalid, "", -2))
    ensures Reconcile(x, now, newEpoch, continuity, c) == (x, Reply(Invalid, "", -2))
  {
  }

  /** A refusal, if the server lives to write it, leaves a quarantine of at least the configured length, under which nothing is fresh. */
  lemma RefusalsQuarantine(c: Config, x: Exec, now: int, nonce: string, expected: string, newEpoch: string)
    requires c.retention > 0 && c.quarantine > 0 && x.budget >= 2
    ensures var (after, reply) := Consume(x, now, nonce, expected, newEpoch, c);
            && (reply.status != Fresh && reply.status != Replay && reply.status != Quarantined ==>
                  && QuarantinedThrough(after.redis, now + c.quarantine) && reply.ttl == after.redis.quarantine.value.until - now
                  && reply.epoch == EpochAfter(x.redis, newEpoch) == after.redis.quarantine.value.epoch)
            && (reply.status == Quarantined ==> after == x && reply.ttl == x.redis.quarantine.value.until - now)
  {
  }

  /** A process that finds everything as it should be, with or without a quarantine of this epoch, changes nothing. */
  lemma ReconcilesToItself(c: Config, x: Exec, now: int, newEpoch: string, continuity: Option<string>, epoch: string)
    requires Marked(x.redis, c, epoch) && (continuity.Some? ==> continuity == Some(epoch))
    requires UnderQuarantine(x.redis, now) ==> x.redis.quarantine.value.epoch == epoch && x.redis.quarantine.value.until > now
    ensures var ttl := if UnderQuarantine(x.redis, now) then x.redis.quarantine.value.until - now else -2;
            Reconcile(x, now, newEpoch, continuity, c) == (x, Reply(CheckedOk, epoch, ttl))
  {
  }

  /**
   * A reconciliation that the server lives through answers by what it found. With a configuration that is missing or
   * this process's own it leaves both markers in place, and under a quarantine of full length if one was missing or
   * the epoch is not the checkpointed one.
   */
  lemma ReconcileAnswers(c: Config, x: Exec, now: int, newEpoch: string, continuity: Option<string>)
    requires c.retention > 0 && c.quarantine > 0 && x.budget >= 8
    ensures var r, (after, reply) := x.redis, Reconcile(x, now, newEpoch, continuity, c);
            var own, epoch := r.config == None || r.config == Some(c), EpochAfter(r, newEpoch);
            var same := continuity == None || continuity == Some(epoch);
            && (reply.status == ConfigInvalid <==> r.config.Some? && (r.config.value.retention == 0 || r.config.value.quarantine == 0))
            && (reply.status == ConfigMismatch <==> !own && r.config.value.retention > 0 && r.config.value.quarantine > 0)
            && (reply.status == EpochChanged <==> own && !same)
            && (reply.status == Missing <==> own && same && r.epoch == None)
            && (reply.status == ConfigEstablished <==> own && same && r.epoch.Some? && r.config == None)
            && (reply.status == CheckedOk <==> own && same && r.epoch.Some? && r.config == Some(c))
            && (own ==> after.redis.config == Some(c) && after.redis.epoch == Some(epoch)) && reply.epoch == epoch
            && (reply.status != CheckedOk ==> QuarantinedThrough(after.redis, now + c.quarantine))
            && after.redis.nonces == r.nonces
  {
    hide QuarantinedThrough;
    ConfigAnswers(c, x, now, newEpoch);
    var (x1, s1) := ReconcileConfig(x, now, newEpoch, c);
    if x1.redis.config == Some(c) { EpochAnswers(c, x1, now, newEpoch, s1, continuity); }
    else { QuarantineHolds(x1, now, Or(x1.redis.epoch, newEpoch), c.quarantine, c.quarantine);
           QuarantineHolds(x1, now, Or(x1.redis.epoch, newEpoch), Max(c.quarantine, x1.redis.config.value.quarantine), c.quarantine); }
    hide ReconcileConfig, ReconcileEpoch, ReconcileExpected, ReconcileQuarantine, QuarantineAtLeast;
  }

  lemma QuarantineHolds(x: Exec, now: int, epoch: string, minimum: nat, least: nat)
    requires x.budget > 0 && least <= minimum
    ensures var y := QuarantineAtLeast(x, now, epoch, minimum);
            && QuarantinedThrough(y.redis, now + least) && y.budget == x.budget - 1
            && y.redis == x.redis.(quarantine := y.redis.quarantine)
  {
  }

  lemma ConfigAnswers(c: Config, x: Exec, now: int, newEpoch: string)
    requires x.budget >= 2
    ensures var (x1, s1) := ReconcileConfig(x, now, newEpoch, c);
            && x1.redis == x.redis.(config := if x.redis.config == None then Some(c) else x.redis.config, quarantine := x1.redis.quarantine)
            && x1.budget >= x.budget - 2
            && s1 == (if x.redis.config == None then ConfigEstablished else CheckedOk)
            && (x.redis.config == None ==> QuarantinedThrough(x1.redis, now + c.quarantine))
  {
  }

  lemma EpochAnswers(c: Config, x: Exec, now: int, newEpoch: string, status: Status, continuity: Option<string>)
    requires x.budget >= 5
    ensures var (x2, s2) := ReconcileEpoch(x, now, newEpoch, c, status);
            var (x3, s3) := ReconcileExpected(x2, now, continuity, c, s2);
            var x4 := ReconcileQuarantine(x3, now, c);
            var epoch := EpochAfter(x.redis, newEpoch);
            && x4.redis == x.redis.(epoch := Some(epoch), quarantine := x4.redis.quarantine)
            && s3 == (if continuity.Some? && continuity != Some(epoch) then EpochChanged
                      else if x.redis.epoch == None then Missing else status)
            && x2.redis.epoch.Some? && x4.redis.epoch == Some(epoch)
            && (x.redis.epoch == None || (continuity.Some? && continuity != Some(epoch)) ==> QuarantinedThrough(x4.redis, now + c.quarantine))
            && (QuarantinedThrough(x.redis, now + c.quarantine) ==> QuarantinedThrough(x4.redis, now + c.quarantine))
  {
    var (x2, s2) := ReconcileEpoch(x, now, newEpoch, c, status);
    var (x3, s3) := ReconcileExpected(x2, now, continuity, c, s2);
    EpochStep(c, x, now, newEpoch, status);
    ExpectedStep(c, x2, now, continuity, s2);
    QuarantineStep(c, x3, now);
    hide ReconcileEpoch, ReconcileExpected, ReconcileQuarantine, QuarantineAtLeast;
  }

  lemma EpochStep(c: Config, x: Exec, now: int, newEpoch: string, status: Status)
    requires x.budget >= 2
    ensures var (y, s) := ReconcileEpoch(x, now, newEpoch, c, status);
            && y.redis == x.redis.(epoch := Some(EpochAfter(x.redis, newEpoch)), quarantine := y.redis.quarantine) && y.budget >= x.budget - 2
            && s == (if x.redis.epoch == None then Missing else status)
            && (x.redis.epoch == None || QuarantinedThrough(x.redis, now + c.quarantine) ==> QuarantinedThrough(y.redis, now + c.quarantine))
  {
  }

  lemma ExpectedStep(c: Config, x: Exec, now: int, continuity: Option<string>, status: Status)
    requires x.budget >= 1
    ensures var (y, s) := ReconcileExpected(x, now, continuity, c, status);
            && y.redis == x.redis.(quarantine := y.redis.quarantine) && y.budget >= x.budget - 1
            && s == (if continuity.Some? && continuity != x.redis.epoch then EpochChanged else status)
            && ((continuity.Some? && continuity != x.redis.epoch) || QuarantinedThrough(x.redis, now + c.quarantine) ==>
                  QuarantinedThrough(y.redis, now + c.quarantine))
  {
  }

  lemma QuarantineStep(c: Config, x: Exec, now: int)
    ensures var y := ReconcileQuarantine(x, now, c);
            && y.redis == x.redis.(quarantine := y.redis.quarantine)
            && (QuarantinedThrough(x.redis, now + c.quarantine) ==> QuarantinedThrough(y.redis, now + c.quarantine))
  {
  }

  lemma PreservesGuards(c: Config, now: int, before: Redis, after: Redis, a: Acceptance)
    requires Preserves(c, now, before, after) && c.quarantine >= c.retention
    requires a.at <= now <= a.at + c.retention && Guarded(c, before, a)
    ensures Guarded(c, after, a)
  {
  }

  /** A FRESH answer needs both markers, no live quarantine and no live nonce. */
  lemma FreshMeans(c: Config, x: Exec, now: int, nonce: string, expected: string, newEpoch: string)
    requires Consume(x, now, nonce, expected, newEpoch, c).1.status == Fresh
    ensures !MarkerMissing(x.redis) && !QuarantinedThrough(x.redis, now) && !NonceThrough(x.redis, nonce, now)
    ensures NonceThrough(Consume(x, now, nonce, expected, newEpoch, c).0.redis, nonce, now + c.retention)
  {
  }

  lemma ScriptKeeps(c: Config, w: World, r: Redis)
    requires Inv(c, w) && c.quarantine >= c.retention && Preserves(c, w.now, w.redis, r)
    ensures Inv(c, w.(redis := r))
  {
    forall i | 0 <= i < |w.accepted| && w.now <= w.accepted[i].at + c.retention ensures Guarded(c, r, w.accepted[i]) {
      PreservesGuards(c, w.now, w.redis, r, w.accepted[i]);
    }
  }

  lemma ConsumeKeeps(c: Config, w: World, nonce: string, expected: string, newEpoch: string, budget: nat)
    requires Inv(c, w) && c.quarantine >= c.retention
    ensures Inv(c, Next(c, w, RunConsume(nonce, expected, newEpoch, budget)))
  {
    hide Consume, Preserves;
    var (x, reply) := Consume(Exec(w.redis, budget), w.now, nonce, expected, newEpoch, c);
    ConsumePreserves(c, Exec(w.redis, budget), w.now, nonce, expected, newEpoch);
    ScriptKeeps(c, w, x.redis);
    if reply.status == Fresh {
      FreshMeans(c, Exec(w.redis, budget), w.now, nonce, expected, newEpoch);
    }
  }

  lemma NextKeeps(c: Config, w: World, step: Step)
    requires Inv(c, w) && c.quarantine >= c.retention && LossTakesAMarker(step)
    ensures Inv(c, Next(c, w, step))
  {
    hide Consume, Reconcile;
    match step
    case Tick(ms) =>
    case RunReconcile(newEpoch, expected, budget) =>
      ReconcilePreserves(c, Exec(w.redis, budget), w.now, newEpoch, expected);
      ScriptKeeps(c, w, Reconcile(Exec(w.redis, budget), w.now, newEpoch, expected, c).0.redis);
    case RunConsume(nonce, expected, newEpoch, budget) => ConsumeKeeps(c, w, nonce, expected, newEpoch, budget);
    case Lose(l) =>
  }

  lemma {:induction false} RunKeeps(c: Config, steps: seq<Step>)
    requires c.quarantine >= c.retention
    requires forall i :: 0 <= i < |steps| ==> LossTakesAMarker(steps[i])
    ensures Inv(c, Run(c, Empty, steps))
  {
    hide Next;
    if |steps| > 0 {
      RunKeeps(c, steps[..|steps| - 1]);
      NextKeeps(c, Run(c, Empty, steps[..|steps| - 1]), steps[|steps| - 1]);
    }
  }

  /**
   * Verifiers that share one retention and one quarantine at least as long accept the same nonce twice only
   * more than the retention apart, across every interleaving of scripts, crashes inside scripts, expiries and
   * losses that take a marker.
   */
  lemma AcceptancesAreApart(c: Config, steps: seq<Step>, i: nat, j: nat)
    requires c.quarantine >= c.retention
    requires forall s :: 0 <= s < |steps| ==> LossTakesAMarker(steps[s])
    requires i < j < |Run(c, Empty, steps).accepted|
    requires Run(c, Empty, steps).accepted[i].nonce == Run(c, Empty, steps).accepted[j].nonce
    ensures Run(c, Empty, steps).accepted[j].at > Run(c, Empty, steps).accepted[i].at + c.retention
  {
    hide Run;
    RunKeeps(c, steps);
    var accepted := Run(c, Empty, steps).accepted;
    assert Apart(c, accepted[i], accepted[j]);
  }

  // ---- Which losses are safe ----

  predicate TakesAMarker(l: Loss) {
    l.epoch || l.config
  }

  /**
   * A set of losses the guards survive: one that spares both markers loses no nonce, and loses the quarantine
   * only where no loss at all loses a nonce.
   */
  predicate Survivable(losses: set<Loss>) {
    forall l :: l in losses ==>
      TakesAMarker(l) || (l.nonces == {} && (l.quarantine ==> forall m :: m in losses ==> m.nonces == {}))
  }

  /** Every loss of the run is one of these. */
  predicate OnlyLoses(steps: seq<Step>, losses: set<Loss>) {
    forall i :: 0 <= i < |steps| && steps[i].Lose? ==> steps[i].loss in losses
  }

  ghost predicate AllApart(c: Config, w: World) {
    forall i, j :: 0 <= i < j < |w.accepted| ==> Apart(c, w.accepted[i], w.accepted[j])
  }

  /** Where no nonce is ever lost, the nonces alone guard. */
  ghost predicate NoncesGuard(c: Config, w: World) {
    && (forall i :: 0 <= i < |w.accepted| ==> w.accepted[i].at <= w.now)
    && (forall i :: 0 <= i < |w.accepted| && w.now <= w.accepted[i].at + c.retention ==>
          NonceThrough(w.redis, w.accepted[i].nonce, w.accepted[i].at + c.retention))
    && AllApart(c, w)
  }

  lemma NoncesKeep(c: Config, w: World, step: Step)
    requires NoncesGuard(c, w) && (step.Lose? ==> step.loss.nonces == {})
    ensures NoncesGuard(c, Next(c, w, step))
  {
    hide Consume, Reconcile;
    match step
    case Tick(ms) =>
    case RunReconcile(newEpoch, expected, budget) =>
      ReconcilePreserves(c, Exec(w.redis, budget), w.now, newEpoch, expected);
    case RunConsume(nonce, expected, newEpoch, budget) =>
      ConsumePreserves(c, Exec(w.redis, budget), w.now, nonce, expected, newEpoch);
      if Consume(Exec(w.redis, budget), w.now, nonce, expected, newEpoch, c).1.status == Fresh {
        FreshMeans(c, Exec(w.redis, budget), w.now, nonce, expected, newEpoch);
      }
    case Lose(l) => assert w.redis.nonces - {} == w.redis.nonces;
  }

  lemma {:induction false} NoncesSurvive(c: Config, steps: seq<Step>, losses: set<Loss>)
    requires OnlyLoses(steps, losses) && forall l :: l in losses ==> l.nonces == {}
    ensures NoncesGuard(c, Run(c, Empty, steps))
  {
    hide Next;
    if |steps| > 0 {
      NoncesSurvive(c, steps[..|steps| - 1], losses);
      NoncesKeep(c, Run(c, Empty, steps[..|steps| - 1]), steps[|steps| - 1]);
    }
  }

  lemma {:induction false} MarkersSurvive(c: Config, steps: seq<Step>, losses: set<Loss>)
    requires c.quarantine >= c.retention && OnlyLoses(steps, losses)
    requires forall l :: l in losses ==> TakesAMarker(l) || (l.nonces == {} && !l.quarantine)
    ensures Inv(c, Run(c, Empty, steps))
  {
    hide Next;
    if |steps| > 0 {
      var front, last := Run(c, Empty, steps[..|steps| - 1]), steps[|steps| - 1];
      MarkersSurvive(c, steps[..|steps| - 1], losses);
      if LossTakesAMarker(last) { NextKeeps(c, front, last); } else { LosesNothing(c, front, last.loss); }
    }
  }

  lemma LosesNothing(c: Config, w: World, l: Loss)
    requires !TakesAMarker(l) && l.nonces == {} && !l.quarantine
    ensures Next(c, w, Lose(l)) == w
  {
    assert w.redis.nonces - {} == w.redis.nonces;
  }

  /** Both markers established, the quarantine run out, and one nonce accepted. */
  function Established(nonce: string, epoch: string, c: Config): seq<Step> {
    [RunReconcile(epoch, None, 4), Tick(c.quarantine + 1), RunConsume(nonce, epoch, epoch, 1)]
  }

  function Once(nonce: string, epoch: string, c: Config): World {
    var late := c.quarantine + 1;
    World(Redis(Some(epoch), Some(Quarantine(epoch, c.quarantine)), Some(c), map[nonce := late + c.retention]), late,
          [Acceptance(nonce, late)])
  }

  lemma EstablishedOnce(nonce: string, epoch: string, c: Config)
    requires c.Parses()
    ensures Run(c, Empty, Established(nonce, epoch, c)) == Once(nonce, epoch, c)
  {
    var steps := Established(nonce, epoch, c);
    var r := Redis(Some(epoch), Some(Quarantine(epoch, c.quarantine)), Some(c), map[]);
    assert Next(c, Empty, steps[0]) == World(r, 0, []);
    assert Next(c, World(r, 0, []), steps[1]) == World(r, c.quarantine + 1, []);
    assert Next(c, World(r, c.quarantine + 1, []), steps[2]) == Once(nonce, epoch, c);
    hide Next;
    RunUnfolds(c, Empty, steps, 0);
    RunUnfolds(c, Empty, steps, 1);
    RunUnfolds(c, Empty, steps, 2);
    assert steps[..0] == [] && steps[..3] == steps;
  }

  /** With both markers back, no quarantine and no live nonce, the nonce is accepted. */
  lemma AcceptedAgain(c: Config, w: World, nonce: string, epoch: string)
    requires c.Parses() && w.redis.epoch == Some(epoch) && w.redis.config == Some(c)
    requires LiveQuarantine(w.redis, w.now).None? && !LiveNonce(w.redis, nonce, w.now)
    ensures Next(c, w, RunConsume(nonce, epoch, epoch, 1)).accepted == w.accepted + [Acceptance(nonce, w.now)]
  {
  }

  /** A loss of one nonce that spares both markers lets it be accepted twice at once. */
  lemma LossWithoutAMarkerReplays(c: Config, nonce: string, epoch: string, l: Loss)
    requires c.Parses() && !TakesAMarker(l) && nonce in l.nonces
    ensures var steps := Established(nonce, epoch, c) + [Lose(l), RunConsume(nonce, epoch, epoch, 1)];
            Run(c, Empty, steps).accepted == [Acceptance(nonce, c.quarantine + 1), Acceptance(nonce, c.quarantine + 1)]
  {
    var w := Once(nonce, epoch, c);
    var more := [Lose(l), RunConsume(nonce, epoch, epoch, 1)];
    EstablishedOnce(nonce, epoch, c);
    var w1 := Next(c, w, more[0]);
    assert !LiveNonce(w1.redis, nonce, w1.now) && LiveQuarantine(w1.redis, w1.now).None?;
    hide Next;
    AcceptedAgain(c, w1, nonce, epoch);
    RunsJoin(c, Established(nonce, epoch, c), more);
    RunUnfolds(c, w, more, 0);
    RunUnfolds(c, w, more, 1);
    assert more[..0] == [] && more[..2] == more;
  }

  /** A reconcile after the loss of a marker puts it back, under a full quarantine. */
  lemma Reestablished(c: Config, w: World, nonce: string, epoch: string, m: Loss)
    requires c.Parses() && TakesAMarker(m) && nonce in m.nonces && w == Once(nonce, epoch, c)
    ensures Next(c, Next(c, w, Lose(m)), RunReconcile(epoch, None, 4)) ==
              w.(redis := Redis(Some(epoch), Some(Quarantine(epoch, w.now + c.quarantine)), Some(c), map[]))
  {
    hide Consume;
    var w1 := Next(c, w, Lose(m));
    assert w1.redis.nonces == map[] && MarkerMissing(w1.redis);
  }

  /** A nonce lost with a marker and, once that is back, a quarantine lost without one: accepted twice at once. */
  lemma LostQuarantineReplays(c: Config, nonce: string, epoch: string, m: Loss, l: Loss)
    requires c.Parses() && TakesAMarker(m) && nonce in m.nonces && !TakesAMarker(l) && l.quarantine
    ensures var steps := Established(nonce, epoch, c)
                         + [Lose(m), RunReconcile(epoch, None, 4), Lose(l), RunConsume(nonce, epoch, epoch, 1)];
            Run(c, Empty, steps).accepted == [Acceptance(nonce, c.quarantine + 1), Acceptance(nonce, c.quarantine + 1)]
  {
    var w := Once(nonce, epoch, c);
    var more := [Lose(m), RunReconcile(epoch, None, 4), Lose(l), RunConsume(nonce, epoch, epoch, 1)];
    EstablishedOnce(nonce, epoch, c);
    Reestablished(c, w, nonce, epoch, m);
    var w2 := Next(c, Next(c, w, more[0]), more[1]);
    hide Consume, Reconcile;
    var w3 := Next(c, w2, more[2]);
    assert w2.redis.nonces - l.nonces == w2.redis.nonces;
    assert w3 == w2.(redis := Redis(Some(epoch), None, Some(c), map[]));
    hide Next;
    AcceptedAgain(c, w3, nonce, epoch);
    RunsJoin(c, Established(nonce, epoch, c), more);
    FourSteps(c, w, more);
  }

  lemma FourSteps(c: Config, w: World, s: seq<Step>)
    requires |s| == 4
    ensures Run(c, w, s) == Next(c, Next(c, Next(c, Next(c, w, s[0]), s[1]), s[2]), s[3])
  {
    hide Next;
    RunUnfolds(c, w, s, 0);
    RunUnfolds(c, w, s, 1);
    RunUnfolds(c, w, s, 2);
    RunUnfolds(c, w, s, 3);
    assert s[..0] == [] && s[..4] == s;
  }

  lemma {:induction false} RunsJoin(c: Config, a: seq<Step>, b: seq<Step>)
    ensures Run(c, Empty, a + b) == Run(c, Run(c, Empty, a), b)
  {
    hide Next;
    if |b| > 0 {
      assert (a + b)[..|a + b| - 1] == a + b[..|b| - 1];
      RunsJoin(c, a, b[..|b| - 1]);
    } else {
      assert a + b == a;
    }
  }

  /**
   * For verifiers that share one configuration, every run that loses only what these losses take keeps two
   * acceptances of a nonce more than the retention apart, exactly when the losses are survivable.
   */
  lemma ApartExactlyWhenSurvivable(c: Config, losses: set<Loss>)
    requires c.Parses() && c.quarantine >= c.retention
    ensures Survivable(losses) <==> forall steps | OnlyLoses(steps, losses) :: AllApart(c, Run(c, Empty, steps))
  {
    hide Run, NoncesGuard, Apart;
    if Survivable(losses) {
      forall steps | OnlyLoses(steps, losses) ensures AllApart(c, Run(c, Empty, steps)) {
        if forall l :: l in losses ==> l.nonces == {} {
          NoncesSurvive(c, steps, losses);
          GuardedIsApart(c, Run(c, Empty, steps));
        } else {
          MarkersSurvive(c, steps, losses);
        }
      }
    } else {
      var l :| l in losses && !(TakesAMarker(l) || (l.nonces == {} && (l.quarantine ==> forall m :: m in losses ==> m.nonces == {})));
      var steps := Unsurvivable(c, losses, l);
    }
  }

  lemma GuardedIsApart(c: Config, w: World)
    requires NoncesGuard(c, w)
    ensures AllApart(c, w)
  {
  }

  lemma Unsurvivable(c: Config, losses: set<Loss>, l: Loss) returns (steps: seq<Step>)
    requires c.Parses() && l in losses && !TakesAMarker(l)
    requires l.nonces != {} || (l.quarantine && exists m :: m in losses && m.nonces != {})
    ensures OnlyLoses(steps, losses) && !AllApart(c, Run(c, Empty, steps))
  {
    hide Run, AllApart;
    if l.nonces != {} {
      var nonce :| nonce in l.nonces;
      LossWithoutAMarkerReplays(c, nonce, "e", l);
      steps := Established(nonce, "e", c) + [Lose(l), RunConsume(nonce, "e", "e", 1)];
      TwiceAtOnce(c, Run(c, Empty, steps), nonce);
    } else {
      var m :| m in losses && m.nonces != {};
      var nonce :| nonce in m.nonces;
      if TakesAMarker(m) {
        LostQuarantineReplays(c, nonce, "e", m, l);
        steps := Established(nonce, "e", c) + [Lose(m), RunReconcile("e", None, 4), Lose(l), RunConsume(nonce, "e", "e", 1)];
      } else {
        LossWithoutAMarkerReplays(c, nonce, "e", m);
        steps := Established(nonce, "e", c) + [Lose(m), RunConsume(nonce, "e", "e", 1)];
      }
      TwiceAtOnce(c, Run(c, Empty, steps), nonce);
    }
  }

  lemma TwiceAtOnce(c: Config, w: World, nonce: string)
    requires |w.accepted| == 2 && w.accepted[0] == w.accepted[1] && w.accepted[0].nonce == nonce
    ensures !AllApart(c, w)
  {
    assert !Apart(c, w.accepted[0], w.accepted[1]);
  }

  lemma RunUnfolds(c: Config, w: World, steps: seq<Step>, i: nat)
    requires i < |steps|
    ensures Run(c, w, steps[..i + 1]) == Next(c, Run(c, w, steps[..i]), steps[i])
  {
    assert steps[..i + 1][..i] == steps[..i];
  }

  // ---- The verifier process ----

  datatype GateError = ContinuityQuarantine | StoreUnavailable | InvalidEpoch

  /** validateEpoch: what the verifier takes for an epoch. */
  predicate EpochOk(epoch: string) {
    1 <= |epoch| <= 128 && forall i :: 0 <= i < |epoch| ==> EpochChar(epoch[i])
  }

  predicate EpochChar(c: char) {
    'A' <= c <= 'Z' || 'a' <= c <= 'z' || '0' <= c <= '9' || c == '.' || c == '_' || c == '-'
  }

  /** SharedContinuityGate: `until` is None while the gate is closed without a limit. */
  class SharedContinuityGate {
    var epoch: Option<string>
    var until: Option<int>
    var stopped: bool

    constructor ()
      ensures epoch == None && until == None && !stopped
    {
      epoch, until, stopped := None, None, false;
    }

    predicate Acceptable(now: int)
      reads this
    {
      !stopped && epoch.Some? && until.Some? && now >= until.value
    }

    /** apply: false where it throws. */
    method Apply(e: string, ttl: int, now: int) returns (valid: bool)
      modifies this
      ensures valid == EpochOk(e) && stopped == old(stopped)
      ensures old(stopped) || !valid ==> epoch == old(epoch) && until == old(until)
      ensures !old(stopped) && valid ==> epoch == Some(e) && until == Some(if ttl > 0 then now + ttl else 0)
    {
      valid := EpochOk(e);
      if !valid || stopped { return; }
      epoch := Some(e);
      until := Some(if ttl > 0 then now + ttl else 0);
    }

    method FailClosed()
      modifies this
      ensures epoch == old(epoch) && until == None && stopped == old(stopped)
    {
      until := None;
    }
  }

  /** What reaches the verifier: nothing in time, the script's own reply, or something else. */
  datatype Answer = Lost | Faithful | Other(reply: Reply)

  /** The statuses on which the gate takes the reply's epoch and quarantine. */
  predicate Quarantines(status: Status) {
    || status == Missing || status == EpochChanged || status == Malformed || status == Quarantined
    || status == ConfigMissing || status == ConfigMismatch || status == ConfigInvalid
  }

  lemma QuarantinesExactly(status: Status)
    ensures !Quarantines(status) <==>
              || status == Crashed || status == Invalid || status == CheckedOk || status == ConfigEstablished
              || status == Fresh || status == Replay
  {
  }

  /** The server a verifier talks to. */
  class RedisServer {
    var world: World

    constructor ()
      ensures world == Empty
    {
      world := Empty;
    }
  }

  /**
   * checkAndConsume: Ok(false) accepts the nonce. A faithful FRESH or REPLAY always passes the checks on its
   * epoch and TTL; every other outcome closes or quarantines the gate, but a bad replacement epoch, which throws
   * before the script is sent.
   */
  method CheckAndConsume(server: RedisServer, gate: SharedContinuityGate, c: Config, nonce: string, newEpoch: string,
                         localNow: int, budget: nat, answer: Answer)
    returns (result: Result<bool, GateError>)
    modifies server, gate
    ensures !old(gate.Acceptable(localNow)) ==> result == Err(ContinuityQuarantine)
    ensures old(gate.stopped) || old(gate.epoch) == None || old(gate.until) == None || localNow < old(gate.until).value <==>
              !old(gate.Acceptable(localNow))
    ensures result == Err(InvalidEpoch) <==> old(gate.Acceptable(localNow)) && !EpochOk(newEpoch)
    ensures !old(gate.Acceptable(localNow)) || !EpochOk(newEpoch) ==>
              server.world == old(server.world) && gate.until == old(gate.until) && gate.epoch == old(gate.epoch)
    ensures old(gate.Acceptable(localNow)) && EpochOk(newEpoch) ==>
              server.world == Next(c, old(server.world), RunConsume(nonce, old(gate.epoch).value, newEpoch, budget))
    ensures old(gate.Acceptable(localNow)) && EpochOk(newEpoch) && answer == Faithful ==>
              var status := Consume(Exec(old(server.world).redis, budget), old(server.world).now, nonce,
                                    old(gate.epoch).value, newEpoch, c).1.status;
              && (result == Ok(false) <==> status == Fresh)
              && (result == Ok(true) <==> status == Replay)
    ensures old(gate.Acceptable(localNow)) && EpochOk(newEpoch) && answer == Lost ==> result == Err(StoreUnavailable)
    ensures answer == Faithful && result == Ok(false) ==>
              server.world.accepted == old(server.world).accepted + [Acceptance(nonce, old(server.world).now)]
    ensures gate.stopped == old(gate.stopped)
    ensures result.Ok? ==> gate.until == old(gate.until) && gate.epoch == old(gate.epoch)
    ensures result == Err(StoreUnavailable) ==> gate.until == None && gate.epoch == old(gate.epoch)
    ensures old(gate.Acceptable(localNow)) && EpochOk(newEpoch) && result == Err(ContinuityQuarantine) ==>
              gate.epoch.Some? && EpochOk(gate.epoch.value)
    ensures old(gate.Acceptable(localNow)) && EpochOk(newEpoch) && answer.Other? ==>
              var r := answer.reply;
              && (result.Ok? <==> (r.status == Fresh || r.status == Replay) && r.epoch == old(gate.epoch).value && r.ttl == -2)
              && (result == Err(ContinuityQuarantine) <==> Quarantines(r.status) && EpochOk(r.epoch) && r.ttl > 0)
              && (result == Err(ContinuityQuarantine) ==> gate.epoch == Some(r.epoch) && gate.until == Some(localNow + r.ttl))
    ensures result.Err? && result != Err(InvalidEpoch) && old(gate.Acceptable(localNow)) ==> !gate.Acceptable(localNow)
  {
    if gate.stopped || gate.epoch.None? || gate.until.None? || localNow < gate.until.value { return Err(ContinuityQuarantine); }
    var expected := gate.epoch.value;
    if !EpochOk(newEpoch) { return Err(InvalidEpoch); }
    var (x, reply) := Consume(Exec(server.world.redis, budget), server.world.now, nonce, expected, newEpoch, c);
    server.world := Next(c, server.world, RunConsume(nonce, expected, newEpoch, budget));
    if answer.Other? { reply := answer.reply; }
    if answer.Lost? || reply.status == Crashed {
      gate.FailClosed();
      return Err(StoreUnavailable);
    }
    if reply.status == Fresh || reply.status == Replay {
      if reply.epoch != expected || reply.ttl != -2 { gate.FailClosed(); return Err(StoreUnavailable); }
      return Ok(reply.status == Replay);
    }
    if !Quarantines(reply.status) || !EpochOk(reply.epoch) || reply.ttl <= 0 {
      gate.FailClosed();
      return Err(StoreUnavailable);
    }
    var valid := gate.Apply(reply.epoch, reply.ttl, localNow);
    return Err(ContinuityQuarantine);
  }
}
