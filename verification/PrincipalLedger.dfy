/**
 * The principal session ledger of packages/server/src/principal-session.ts: event streams and checkpoints,
 * each a hash chain. Hashes are terms, so they are collision-free; `Foreign` stands for any text nothing
 * hashes to. Signature checks, clocks and the authorization resolver are parameters.
 */
module PrincipalLedger {
  import opened Wrappers

  type PrincipalId = string

  /** makeStreamId: the hash of the principal's id and the provider and agent labels. */
  datatype StreamId = StreamId(principal: PrincipalId, agentName: string)

  datatype EventKind = SessionBound | SessionEvent | SessionClosed | KeyRotated | AuthorizationUpdated

  /** What is hashed of an event besides its place in the chain. */
  datatype EventBody = EventBody(
    stream: StreamId,
    provider: string,
    session: Option<string>,
    agent: string,
    timestamp: int,
    kind: EventKind,
    policyDigest: Option<string>,
    proofDigest: Option<string>,
    payload: string)

  datatype StreamHead = StreamHead(seqNo: nat, chain: Hash)

  datatype Hash =
    | Genesis
    | EventHash(seqNo: int, prev: Hash, body: EventBody)
    | CheckpointHash(seqNo: int, prev: Hash, principal: PrincipalId, timestamp: int, heads: map<StreamId, StreamHead>)
    | Foreign(text: string)

  datatype Event = Event(seqNo: int, prev: Hash, body: EventBody, chain: Hash)

  datatype Checkpoint = Checkpoint(
    seqNo: int,
    prev: Hash,
    principal: PrincipalId,
    timestamp: int,
    heads: map<StreamId, StreamHead>,
    hash: Hash)

  datatype Stream = Stream(principal: PrincipalId, provider: string, agent: string, sessions: seq<string>, head: StreamHead)

  datatype Principal = Principal(
    fingerprint: string,
    keyVersion: int,
    sessions: seq<string>,
    active: seq<string>,
    streamIds: seq<StreamId>,
    checkpointHead: Hash,
    checkpointSeq: nat)

  datatype Ledger = Ledger(
    principals: map<PrincipalId, Principal>,
    streams: map<StreamId, Stream>,
    events: map<StreamId, seq<Event>>,
    checkpoints: map<PrincipalId, seq<Checkpoint>>,
    nonces: set<string>)

  const Empty := Ledger(map[], map[], map[], map[], {})

  datatype LedgerError = InvalidInput | BadProof | Replayed | ResolverFailed | UnknownPrincipal | UnknownStream

  function PrincipalIdOf(fingerprint: string): PrincipalId {
    "principal_" + fingerprint
  }

  function HashOfEvent(e: Event): Hash {
    EventHash(e.seqNo, e.prev, e.body)
  }

  function HashOfCheckpoint(c: Checkpoint): Hash {
    CheckpointHash(c.seqNo, c.prev, c.principal, c.timestamp, c.heads)
  }

  // ---- Chains ----

  predicate EventsLinked(es: seq<Event>) {
    forall i :: 0 <= i < |es| ==> EventLinkedAt(es, i)
  }

  predicate EventLinkedAt(es: seq<Event>, i: nat)
    requires i < |es|
  {
    && es[i].seqNo == i + 1
    && es[i].prev == (if i == 0 then Genesis else es[i - 1].chain)
    && es[i].chain == HashOfEvent(es[i])
  }

  function EventHead(es: seq<Event>): StreamHead {
    StreamHead(|es|, if |es| == 0 then Genesis else es[|es| - 1].chain)
  }

  predicate CheckpointsLinked(cs: seq<Checkpoint>) {
    forall i :: 0 <= i < |cs| ==> CheckpointLinkedAt(cs, i)
  }

  predicate CheckpointLinkedAt(cs: seq<Checkpoint>, i: nat)
    requires i < |cs|
  {
    && cs[i].seqNo == i + 1
    && cs[i].prev == (if i == 0 then Genesis else cs[i - 1].hash)
    && cs[i].hash == HashOfCheckpoint(cs[i])
  }

  /** The stream heads a checkpoint of these streams records. */
  function Heads(streams: map<StreamId, Stream>, ids: seq<StreamId>): map<StreamId, StreamHead> {
    map s | s in ids && s in streams :: streams[s].head
  }

  /** The events of a stream, none when nothing is kept for it. */
  function EventsOf(l: Ledger, s: StreamId): seq<Event> {
    if s in l.events then l.events[s] else []
  }

  predicate StreamOk(l: Ledger, s: StreamId) {
    && s in l.streams
    && EventsLinked(EventsOf(l, s))
    && l.streams[s].head == EventHead(EventsOf(l, s))
  }

  /** What verifyPrincipalContinuity checks of one principal. */
  ghost predicate Continuous(l: Ledger, p: PrincipalId) {
    && p in l.principals && p in l.checkpoints
    && var r, cs := l.principals[p], l.checkpoints[p];
       && (forall i :: 0 <= i < |r.streamIds| ==> StreamOk(l, r.streamIds[i]))
       && CheckpointsLinked(cs)
       && |cs| > 0
       && cs[|cs| - 1].hash == r.checkpointHead && cs[|cs| - 1].seqNo == r.checkpointSeq
       && cs[|cs| - 1].heads == Heads(l.streams, r.streamIds)
  }

  // ---- The operations ----

  function NextEvent(st: Stream, body: EventBody): Event {
    Event(st.head.seqNo + 1, st.head.chain, body, EventHash(st.head.seqNo + 1, st.head.chain, body))
  }

  /** appendEventToStream. */
  function WithEvent(l: Ledger, s: StreamId, body: EventBody): Ledger
    requires s in l.streams
  {
    var e := NextEvent(l.streams[s], body);
    var before := EventsOf(l, s);
    l.(events := l.events[s := before + [e]],
       streams := l.streams[s := l.streams[s].(head := StreamHead(l.streams[s].head.seqNo + 1, e.chain))])
  }

  function NextCheckpoint(l: Ledger, p: PrincipalId, now: int): Checkpoint
    requires p in l.principals
  {
    var r := l.principals[p];
    var heads := Heads(l.streams, r.streamIds);
    Checkpoint(r.checkpointSeq + 1, r.checkpointHead, p, now, heads,
               CheckpointHash(r.checkpointSeq + 1, r.checkpointHead, p, now, heads))
  }

  /** appendCheckpoint. */
  function WithCheckpoint(l: Ledger, p: PrincipalId, now: int): Ledger
    requires p in l.principals
  {
    var c := NextCheckpoint(l, p, now);
    var before := if p in l.checkpoints then l.checkpoints[p] else [];
    l.(checkpoints := l.checkpoints[p := before + [c]],
       principals := l.principals[p := l.principals[p].(checkpointSeq := l.principals[p].checkpointSeq + 1, checkpointHead := c.hash)])
  }

  datatype BindInput = BindInput(
    fingerprint: string,
    nonce: string,
    provider: string,
    session: string,
    agent: string,
    policyDigest: string,
    wellFormed: bool,
    proofOk: bool,
    resolved: bool,
    proofDigest: string,
    payload: string)

  /** upsertPrincipal. */
  function WithPrincipal(l: Ledger, p: PrincipalId, fingerprint: string): Ledger {
    if p in l.principals then l
    else l.(principals := l.principals[p := Principal(fingerprint, 1, [], [], [], Genesis, 0)], checkpoints := l.checkpoints[p := []])
  }

  function Included(xs: seq<string>, x: string): seq<string> {
    if x in xs then xs else xs + [x]
  }

  /** upsertStream. */
  function WithStream(l: Ledger, p: PrincipalId, s: StreamId, i: BindInput): Ledger
    requires p in l.principals
  {
    if s in l.streams then l.(streams := l.streams[s := l.streams[s].(sessions := Included(l.streams[s].sessions, i.session))])
    else l.(streams := l.streams[s := Stream(p, i.provider, i.agent, [i.session], StreamHead(0, Genesis))],
            events := l.events[s := []],
            principals := l.principals[p := l.principals[p].(streamIds := l.principals[p].streamIds + [s])])
  }

  function StreamIdFor(i: BindInput): StreamId {
    StreamId(PrincipalIdOf(i.fingerprint), i.provider + ":" + i.agent)
  }

  function WithProfile(l: Ledger, p: PrincipalId, r: Principal): Ledger {
    l.(principals := l.principals[p := r])
  }

  /** bindSession. The nonce is consumed before the resolver runs. */
  function Bind(l: Ledger, i: BindInput, now: int): (Ledger, Result<StreamId, LedgerError>) {
    if !i.wellFormed then (l, Err(InvalidInput))
    else if !i.proofOk then (l, Err(BadProof))
    else if i.nonce in l.nonces then (l, Err(Replayed))
    else
      var consumed := l.(nonces := l.nonces + {i.nonce});
      if !i.resolved then (consumed, Err(ResolverFailed))
      else
        var p, s := PrincipalIdOf(i.fingerprint), StreamIdFor(i);
        var streamed := WithStream(WithPrincipal(consumed, p, i.fingerprint), p, s, i);
        var r := streamed.principals[p];
        var joined := WithProfile(streamed, p, r.(sessions := Included(r.sessions, i.session),
                                                  active := Included(r.active, i.session)));
        var st := joined.streams[s];
        var body := EventBody(s, st.provider, Some(i.session), st.agent, now, SessionBound, Some(i.policyDigest),
                              Some(i.proofDigest), i.payload);
        (WithCheckpoint(WithEvent(joined, s, body), p, now), Ok(s))
  }

  /** appendStreamEvent. */
  function Append(l: Ledger, p: PrincipalId, s: StreamId, kind: EventKind, payload: string, now: int)
    : (Ledger, Result<(), LedgerError>)
  {
    if p !in l.principals then (l, Err(UnknownPrincipal))
    else if s !in l.streams || l.streams[s].principal != p then (l, Err(UnknownStream))
    else
      var st := l.streams[s];
      var body := EventBody(s, st.provider, None, st.agent, now, kind, None, None, payload);
      (WithCheckpoint(WithEvent(l, s, body), p, now), Ok(()))
  }

  function Without(xs: seq<string>, x: string): seq<string> {
    if |xs| == 0 then [] else (if xs[0] == x then [] else [xs[0]]) + Without(xs[1..], x)
  }

  /** closeSession: the session leaves the active list even when its stream is unknown. */
  function Close(l: Ledger, p: PrincipalId, s: StreamId, session: string, now: int): (Ledger, Result<(), LedgerError>) {
    if p !in l.principals then (l, Err(UnknownPrincipal))
    else
      var r := l.principals[p];
      Append(WithProfile(l, p, r.(active := Without(r.active, session))), p, s, SessionClosed, session, now)
  }

  /** rotatePrincipalKey: the principal keeps its id under the new key. */
  function Rotate(l: Ledger, p: PrincipalId, fingerprint: string, keyVersion: Option<int>, now: int)
    : (Ledger, Result<(), LedgerError>)
  {
    if p !in l.principals then (l, Err(UnknownPrincipal))
    else
      var r := l.principals[p];
      var version := if keyVersion.Some? then keyVersion.value else r.keyVersion + 1;
      (WithCheckpoint(WithProfile(l, p, r.(fingerprint := fingerprint, keyVersion := version)), p, now), Ok(()))
  }

  // ---- The invariant ----

  ghost predicate SameKeys(l: Ledger) {
    && (forall s :: s in l.streams <==> s in l.events)
    && (forall p :: p in l.principals <==> p in l.checkpoints)
  }

  predicate StreamsListed(l: Ledger) {
    forall s :: s in l.streams ==>
      l.streams[s].principal == s.principal && s.principal in l.principals && s in l.principals[s.principal].streamIds
  }

  predicate ListsOwned(l: Ledger) {
    forall p :: p in l.principals ==> forall s :: s in l.principals[p].streamIds ==> s.principal == p && s in l.streams
  }

  /** Every stream is in the list of the principal its id names, and in no other. */
  ghost predicate Owned(l: Ledger) {
    SameKeys(l) && StreamsListed(l) && ListsOwned(l)
  }

  /** Between its last checkpoint and now nothing of this principal has changed. */
  ghost predicate LedgerOk(l: Ledger) {
    Owned(l) && forall p :: p in l.principals ==> Continuous(l, p)
  }

  /** A principal in the middle of an operation: its chains hold, its latest checkpoint may be behind. */
  ghost predicate Chained(l: Ledger, p: PrincipalId) {
    && p in l.principals && p in l.checkpoints
    && (forall s :: s in l.principals[p].streamIds ==> StreamOk(l, s))
    && CheckpointsLinked(l.checkpoints[p])
    && l.principals[p].checkpointSeq == |l.checkpoints[p]|
    && l.principals[p].checkpointHead ==
       (if |l.checkpoints[p]| == 0 then Genesis else l.checkpoints[p][|l.checkpoints[p]| - 1].hash)
  }

  /** The ledger while an operation on p is under way. */
  ghost predicate Midway(l: Ledger, p: PrincipalId) {
    Owned(l) && Chained(l, p) && forall q :: q in l.principals && q != p ==> Continuous(l, q)
  }

  lemma ContinuousIsChained(l: Ledger, p: PrincipalId)
    requires Continuous(l, p)
    ensures Chained(l, p)
  {
    hide StreamOk, Heads;
    var cs := l.checkpoints[p];
    assert CheckpointLinkedAt(cs, |cs| - 1);
  }

  /** Another principal's continuity depends only on its own records. */
  lemma OthersKeep(l: Ledger, m: Ledger, q: PrincipalId)
    requires Continuous(l, q) && q in m.principals && m.principals[q] == l.principals[q]
    requires q in m.checkpoints && m.checkpoints[q] == l.checkpoints[q]
    requires forall s :: s in l.principals[q].streamIds ==>
               (s in m.streams <==> s in l.streams) && (s in l.streams ==> m.streams[s].head == l.streams[s].head)
               && (s in m.events <==> s in l.events) && (s in l.events ==> m.events[s] == l.events[s])
    ensures Continuous(m, q)
  {
    var ids := l.principals[q].streamIds;
    forall i | 0 <= i < |ids| ensures StreamOk(m, ids[i]) { assert StreamOk(l, ids[i]); assert ids[i] in ids; }
    assert Heads(m.streams, ids) == Heads(l.streams, ids);
  }

  lemma EventSnoc(es: seq<Event>, e: Event)
    requires EventsLinked(es) && e.seqNo == |es| + 1 && e.prev == EventHead(es).chain && e.chain == HashOfEvent(e)
    ensures EventsLinked(es + [e])
  {
    forall i | 0 <= i < |es + [e]| ensures EventLinkedAt(es + [e], i) {
      if i < |es| { assert EventLinkedAt(es, i); }
    }
  }

  lemma CheckpointSnoc(cs: seq<Checkpoint>, c: Checkpoint)
    requires CheckpointsLinked(cs) && c.seqNo == |cs| + 1 && c.hash == HashOfCheckpoint(c)
    requires c.prev == (if |cs| == 0 then Genesis else cs[|cs| - 1].hash)
    ensures CheckpointsLinked(cs + [c])
  {
    forall i | 0 <= i < |cs + [c]| ensures CheckpointLinkedAt(cs + [c], i) {
      if i < |cs| { assert CheckpointLinkedAt(cs, i); }
    }
  }

  /** Only principal p's records and streams differ between the two ledgers. */
  ghost predicate OnlyTouches(l: Ledger, m: Ledger, p: PrincipalId) {
    && m.principals.Keys == l.principals.Keys + {p} && m.checkpoints.Keys == l.checkpoints.Keys + {p}
    && (forall q :: q in l.principals && q != p ==> m.principals[q] == l.principals[q])
    && (forall q :: q in l.checkpoints && q != p ==> m.checkpoints[q] == l.checkpoints[q])
    && (forall s: StreamId :: s.principal != p ==> (s in m.streams <==> s in l.streams) && (s in m.events <==> s in l.events))
    && (forall s: StreamId :: s.principal != p && s in l.streams ==> m.streams[s] == l.streams[s])
    && (forall s: StreamId :: s.principal != p && s in l.events ==> m.events[s] == l.events[s])
  }

  lemma OtherPrincipalsKeep(l: Ledger, m: Ledger, p: PrincipalId)
    requires Owned(l) && OnlyTouches(l, m, p)
    requires forall q :: q in l.principals && q != p ==> Continuous(l, q)
    ensures forall q :: q in m.principals && q != p ==> Continuous(m, q)
  {
    hide Continuous;
    forall q | q in m.principals && q != p ensures Continuous(m, q) {
      assert q in l.principals.Keys;
      assert q in l.checkpoints;
      OthersKeep(l, m, q);
    }
  }

  lemma EventTouches(l: Ledger, p: PrincipalId, s: StreamId, body: EventBody)
    requires s in l.streams && s.principal == p && p in l.principals && p in l.checkpoints
    ensures OnlyTouches(l, WithEvent(l, s, body), p)
  {
  }

  lemma EventOwned(l: Ledger, s: StreamId, body: EventBody)
    requires Owned(l) && s in l.streams
    ensures Owned(WithEvent(l, s, body))
  {
  }

  lemma EventChained(l: Ledger, p: PrincipalId, s: StreamId, body: EventBody)
    requires Chained(l, p) && s in l.principals[p].streamIds
    ensures s in l.streams && Chained(WithEvent(l, s, body), p)
  {
    hide CheckpointsLinked, EventsLinked;
    var m := WithEvent(l, s, body);
    assert StreamOk(l, s);
    EventSnoc(EventsOf(l, s), NextEvent(l.streams[s], body));
    forall t | t in m.principals[p].streamIds ensures StreamOk(m, t) { assert StreamOk(l, t); }
  }

  lemma EventKeepsMidway(l: Ledger, p: PrincipalId, s: StreamId, body: EventBody)
    requires Midway(l, p) && s in l.principals[p].streamIds
    ensures s in l.streams && Midway(WithEvent(l, s, body), p)
  {
    assert s in l.streams && s.principal == p;
    EventChained(l, p, s, body);
    EventOwned(l, s, body);
    EventTouches(l, p, s, body);
    hide Continuous, Owned, WithEvent, OnlyTouches, StreamOk, CheckpointsLinked;
    OtherPrincipalsKeep(l, WithEvent(l, s, body), p);
  }

  lemma CheckpointTouches(l: Ledger, p: PrincipalId, now: int)
    requires p in l.principals && p in l.checkpoints
    ensures OnlyTouches(l, WithCheckpoint(l, p, now), p)
  {
  }

  lemma CheckpointOwned(l: Ledger, p: PrincipalId, now: int)
    requires Owned(l) && p in l.principals
    ensures Owned(WithCheckpoint(l, p, now))
  {
  }

  lemma CheckpointContinuous(l: Ledger, p: PrincipalId, now: int)
    requires Chained(l, p)
    ensures Continuous(WithCheckpoint(l, p, now), p)
  {
    hide EventsLinked;
    var m, cs := WithCheckpoint(l, p, now), l.checkpoints[p];
    CheckpointSnoc(cs, NextCheckpoint(l, p, now));
    hide CheckpointsLinked;
    var ids := m.principals[p].streamIds;
    forall i | 0 <= i < |ids| ensures StreamOk(m, ids[i]) { assert ids[i] in ids; assert StreamOk(l, ids[i]); }
  }

  lemma CheckpointCompletes(l: Ledger, p: PrincipalId, now: int)
    requires Midway(l, p)
    ensures LedgerOk(WithCheckpoint(l, p, now))
  {
    CheckpointContinuous(l, p, now);
    CheckpointOwned(l, p, now);
    CheckpointTouches(l, p, now);
    hide Continuous, Owned, WithCheckpoint, OnlyTouches, StreamOk, CheckpointsLinked;
    OtherPrincipalsKeep(l, WithCheckpoint(l, p, now), p);
  }

  lemma EventThenCheckpoint(l: Ledger, p: PrincipalId, s: StreamId, body: EventBody, now: int)
    requires Midway(l, p) && s in l.principals[p].streamIds
    ensures LedgerOk(WithCheckpoint(WithEvent(l, s, body), p, now))
  {
    hide Continuous, Owned, StreamOk, CheckpointsLinked;
    EventKeepsMidway(l, p, s, body);
    CheckpointCompletes(WithEvent(l, s, body), p, now);
  }

  lemma StartsMidway(l: Ledger, p: PrincipalId)
    requires LedgerOk(l) && p in l.principals
    ensures Midway(l, p)
  {
    hide Continuous;
    ContinuousIsChained(l, p);
  }

  lemma ProfileOwned(l: Ledger, p: PrincipalId, r: Principal)
    requires Owned(l) && p in l.principals && r.streamIds == l.principals[p].streamIds
    ensures Owned(WithProfile(l, p, r))
  {
  }

  lemma ProfileTouches(l: Ledger, p: PrincipalId, r: Principal)
    requires p in l.principals && p in l.checkpoints
    ensures OnlyTouches(l, WithProfile(l, p, r), p)
  {
  }

  lemma ProfileChained(l: Ledger, p: PrincipalId, r: Principal)
    requires Chained(l, p) && r.streamIds == l.principals[p].streamIds
    requires r.checkpointHead == l.principals[p].checkpointHead && r.checkpointSeq == l.principals[p].checkpointSeq
    ensures Chained(WithProfile(l, p, r), p)
  {
    hide CheckpointsLinked, EventsLinked;
    forall t | t in r.streamIds ensures StreamOk(WithProfile(l, p, r), t) { assert StreamOk(l, t); }
  }

  /** Changing a principal's sessions or key leaves its chains alone. */
  lemma ProfileIsImmaterial(l: Ledger, p: PrincipalId, r: Principal)
    requires Midway(l, p)
    requires r.streamIds == l.principals[p].streamIds && r.checkpointHead == l.principals[p].checkpointHead
    requires r.checkpointSeq == l.principals[p].checkpointSeq
    ensures Midway(WithProfile(l, p, r), p)
  {
    ProfileChained(l, p, r);
    ProfileOwned(l, p, r);
    ProfileTouches(l, p, r);
    hide Continuous, Owned, OnlyTouches, StreamOk, CheckpointsLinked;
    OtherPrincipalsKeep(l, WithProfile(l, p, r), p);
  }

  lemma AppendKeeps(l: Ledger, p: PrincipalId, s: StreamId, kind: EventKind, payload: string, now: int)
    requires LedgerOk(l)
    ensures LedgerOk(Append(l, p, s, kind, payload, now).0)
  {
    hide Continuous, WithEvent, WithCheckpoint;
    if p in l.principals && s in l.streams && l.streams[s].principal == p {
      StartsMidway(l, p);
      var st := l.streams[s];
      EventThenCheckpoint(l, p, s, EventBody(s, st.provider, None, st.agent, now, kind, None, None, payload), now);
    }
  }

  lemma RotateKeeps(l: Ledger, p: PrincipalId, fingerprint: string, keyVersion: Option<int>, now: int)
    requires LedgerOk(l)
    ensures LedgerOk(Rotate(l, p, fingerprint, keyVersion, now).0)
  {
    hide Continuous, WithCheckpoint, Midway, LedgerOk;
    if p in l.principals {
      StartsMidway(l, p);
      var r := l.principals[p];
      var version := if keyVersion.Some? then keyVersion.value else r.keyVersion + 1;
      var changed := r.(fingerprint := fingerprint, keyVersion := version);
      ProfileIsImmaterial(l, p, changed);
      CheckpointCompletes(WithProfile(l, p, changed), p, now);
    }
  }

  lemma NoncesAreImmaterial(l: Ledger, nonces: set<string>)
    requires LedgerOk(l)
    ensures LedgerOk(l.(nonces := nonces))
  {
    hide Continuous;
    var m := l.(nonces := nonces);
    forall q | q in m.principals ensures Continuous(m, q) { OthersKeep(l, m, q); }
  }

  lemma ProfileKeepsLedgerOk(l: Ledger, p: PrincipalId, r: Principal)
    requires LedgerOk(l) && p in l.principals && r.streamIds == l.principals[p].streamIds
    requires r.checkpointHead == l.principals[p].checkpointHead && r.checkpointSeq == l.principals[p].checkpointSeq
    ensures LedgerOk(WithProfile(l, p, r))
  {
    var m := WithProfile(l, p, r);
    ProfileOwned(l, p, r);
    ProfileTouches(l, p, r);
    ProfileContinuous(l, p, r);
    hide Continuous, Owned, OnlyTouches;
    OtherPrincipalsKeep(l, m, p);
  }

  lemma ProfileContinuous(l: Ledger, p: PrincipalId, r: Principal)
    requires Continuous(l, p) && r.streamIds == l.principals[p].streamIds
    requires r.checkpointHead == l.principals[p].checkpointHead && r.checkpointSeq == l.principals[p].checkpointSeq
    ensures Continuous(WithProfile(l, p, r), p)
  {
    hide CheckpointsLinked, EventsLinked;
    forall i | 0 <= i < |r.streamIds| ensures StreamOk(WithProfile(l, p, r), r.streamIds[i]) {
      assert StreamOk(l, r.streamIds[i]);
    }
  }

  lemma CloseKeeps(l: Ledger, p: PrincipalId, s: StreamId, session: string, now: int)
    requires LedgerOk(l)
    ensures LedgerOk(Close(l, p, s, session, now).0)
  {
    hide LedgerOk, Append, Without;
    if p in l.principals {
      var r := l.principals[p];
      ProfileKeepsLedgerOk(l, p, r.(active := Without(r.active, session)));
      AppendKeeps(WithProfile(l, p, r.(active := Without(r.active, session))), p, s, SessionClosed, session, now);
    }
  }

  lemma NewPrincipalMidway(l: Ledger, p: PrincipalId, fingerprint: string)
    requires LedgerOk(l)
    ensures Midway(WithPrincipal(l, p, fingerprint), p)
  {
    if p in l.principals {
      StartsMidway(l, p);
    } else {
      var m := WithPrincipal(l, p, fingerprint);
      NewPrincipalOwned(l, p, fingerprint);
      NewPrincipalTouches(l, p, fingerprint);
      NewPrincipalChained(l, p, fingerprint);
      hide Continuous, Owned, OnlyTouches, StreamOk, CheckpointsLinked, Chained;
      OtherPrincipalsKeep(l, m, p);
    }
  }

  lemma NewPrincipalTouches(l: Ledger, p: PrincipalId, fingerprint: string)
    requires p !in l.principals
    ensures OnlyTouches(l, WithPrincipal(l, p, fingerprint), p)
  {
  }

  lemma NewPrincipalChained(l: Ledger, p: PrincipalId, fingerprint: string)
    requires p !in l.principals
    ensures Chained(WithPrincipal(l, p, fingerprint), p)
  {
  }

  lemma NewPrincipalOwned(l: Ledger, p: PrincipalId, fingerprint: string)
    requires Owned(l)
    ensures Owned(WithPrincipal(l, p, fingerprint))
  {
  }

  lemma StreamOwned(l: Ledger, p: PrincipalId, s: StreamId, i: BindInput)
    requires Owned(l) && p in l.principals && s.principal == p
    ensures Owned(WithStream(l, p, s, i))
    ensures s in WithStream(l, p, s, i).principals[p].streamIds
  {
    if s in l.streams { KnownStreamOwned(l, p, s, i); } else { NewStreamOwned(l, p, s, i); }
  }

  lemma KnownStreamOwned(l: Ledger, p: PrincipalId, s: StreamId, i: BindInput)
    requires Owned(l) && p in l.principals && s.principal == p && s in l.streams
    ensures Owned(WithStream(l, p, s, i))
    ensures s in WithStream(l, p, s, i).principals[p].streamIds
  {
  }

  lemma NewStreamOwned(l: Ledger, p: PrincipalId, s: StreamId, i: BindInput)
    requires Owned(l) && p in l.principals && s.principal == p && s !in l.streams
    ensures Owned(WithStream(l, p, s, i))
    ensures s in WithStream(l, p, s, i).principals[p].streamIds
  {
    NewStreamListed(l, p, s, i);
    NewStreamInList(l, p, s, i);
    hide StreamsListed, ListsOwned;
  }

  lemma NewStreamListed(l: Ledger, p: PrincipalId, s: StreamId, i: BindInput)
    requires StreamsListed(l) && p in l.principals && s.principal == p && s !in l.streams
    ensures StreamsListed(WithStream(l, p, s, i))
  {
    var ids := l.principals[p].streamIds;
    assert forall t :: t in ids + [s] <==> t in ids || t == s;
  }

  lemma NewStreamInList(l: Ledger, p: PrincipalId, s: StreamId, i: BindInput)
    requires ListsOwned(l) && p in l.principals && s.principal == p && s !in l.streams
    ensures ListsOwned(WithStream(l, p, s, i))
  {
    var ids := l.principals[p].streamIds;
    assert forall t :: t in ids + [s] <==> t in ids || t == s;
  }

  lemma StreamTouches(l: Ledger, p: PrincipalId, s: StreamId, i: BindInput)
    requires p in l.principals && p in l.checkpoints && s.principal == p
    ensures OnlyTouches(l, WithStream(l, p, s, i), p)
  {
  }

  lemma StreamChained(l: Ledger, p: PrincipalId, s: StreamId, i: BindInput)
    requires Chained(l, p) && Owned(l) && s.principal == p
    ensures Chained(WithStream(l, p, s, i), p)
  {
    hide CheckpointsLinked, EventsLinked, Owned;
    var m := WithStream(l, p, s, i);
    assert EventsLinked([]) by { NoEvents(); }
    forall t | t in m.principals[p].streamIds ensures StreamOk(m, t) {
      if t in l.principals[p].streamIds { assert StreamOk(l, t); }
    }
  }

  lemma NoEvents()
    ensures EventsLinked([])
  {
  }

  lemma StreamKeepsMidway(l: Ledger, p: PrincipalId, s: StreamId, i: BindInput)
    requires Midway(l, p) && s.principal == p
    ensures Midway(WithStream(l, p, s, i), p)
    ensures s in WithStream(l, p, s, i).principals[p].streamIds
  {
    StreamOwned(l, p, s, i);
    StreamTouches(l, p, s, i);
    StreamChained(l, p, s, i);
    hide Continuous, Owned, OnlyTouches, StreamOk, CheckpointsLinked, WithStream;
    OtherPrincipalsKeep(l, WithStream(l, p, s, i), p);
  }

  lemma BindKeeps(l: Ledger, i: BindInput, now: int)
    requires LedgerOk(l)
    ensures LedgerOk(Bind(l, i, now).0)
  {
    hide Continuous, Owned, StreamOk, CheckpointsLinked, WithPrincipal, WithStream, WithEvent, WithCheckpoint;
    var consumed := l.(nonces := l.nonces + {i.nonce});
    NoncesAreImmaterial(l, l.nonces + {i.nonce});
    if i.wellFormed && i.proofOk && i.nonce !in l.nonces && i.resolved {
      var p, s := PrincipalIdOf(i.fingerprint), StreamIdFor(i);
      var known := WithPrincipal(consumed, p, i.fingerprint);
      NewPrincipalMidway(consumed, p, i.fingerprint);
      StreamKeepsMidway(known, p, s, i);
      var streamed := WithStream(known, p, s, i);
      var r := streamed.principals[p];
      var r' := r.(sessions := Included(r.sessions, i.session), active := Included(r.active, i.session));
      ProfileIsImmaterial(streamed, p, r');
      var joined := WithProfile(streamed, p, r');
      StreamKnown(joined, p, s);
      var st := joined.streams[s];
      EventThenCheckpoint(joined, p, s, EventBody(s, st.provider, Some(i.session), st.agent, now, SessionBound,
                                                  Some(i.policyDigest), Some(i.proofDigest), i.payload), now);
    }
  }

  lemma StreamKnown(l: Ledger, p: PrincipalId, s: StreamId)
    requires Midway(l, p) && s in l.principals[p].streamIds
    ensures s in l.streams
  {
  }

  // ---- Runs ----

  datatype Step =
    | BindSession(input: BindInput, now: int)
    | AppendEvent(principal: PrincipalId, stream: StreamId, kind: EventKind, payload: string, now: int)
    | CloseSession(principal: PrincipalId, stream: StreamId, session: string, now: int)
    | RotateKey(principal: PrincipalId, fingerprint: string, keyVersion: Option<int>, now: int)

  function Next(l: Ledger, step: Step): Ledger {
    match step
    case BindSession(i, now) => Bind(l, i, now).0
    case AppendEvent(p, s, kind, payload, now) => Append(l, p, s, kind, payload, now).0
    case CloseSession(p, s, session, now) => Close(l, p, s, session, now).0
    case RotateKey(p, fingerprint, keyVersion, now) => Rotate(l, p, fingerprint, keyVersion, now).0
  }

  function Run(l: Ledger, steps: seq<Step>): Ledger {
    if |steps| == 0 then l else Next(Run(l, steps[..|steps| - 1]), steps[|steps| - 1])
  }

  /** After every completed operation, continuity verification accepts every bound principal. */
  lemma {:induction false} EveryRunIsContinuous(steps: seq<Step>)
    ensures LedgerOk(Run(Empty, steps))
  {
    hide LedgerOk, Bind, Append, Close, Rotate;
    if |steps| > 0 {
      var before := Run(Empty, steps[..|steps| - 1]);
      EveryRunIsContinuous(steps[..|steps| - 1]);
      match steps[|steps| - 1]
      case BindSession(i, now) => BindKeeps(before, i, now);
      case AppendEvent(p, s, kind, payload, now) => AppendKeeps(before, p, s, kind, payload, now);
      case CloseSession(p, s, session, now) => CloseKeeps(before, p, s, session, now);
      case RotateKey(p, fingerprint, keyVersion, now) => RotateKeeps(before, p, fingerprint, keyVersion, now);
    } else {
      EmptyIsOk();
    }
  }

  lemma EmptyIsOk()
    ensures LedgerOk(Empty)
  {
  }

  // ---- A checkpoint head commits to the whole history ----

  lemma {:induction false} EventsCommit(a: seq<Event>, b: seq<Event>)
    requires EventsLinked(a) && EventsLinked(b) && EventHead(a) == EventHead(b)
    ensures a == b
  {
    if |a| > 0 {
      var x, y := a[..|a| - 1], b[..|b| - 1];
      assert EventLinkedAt(a, |a| - 1) && EventLinkedAt(b, |b| - 1);
      forall i | 0 <= i < |x| ensures EventLinkedAt(x, i) { assert EventLinkedAt(a, i); }
      forall i | 0 <= i < |y| ensures EventLinkedAt(y, i) { assert EventLinkedAt(b, i); }
      EventsCommit(x, y);
      assert a == x + [a[|a| - 1]] && b == y + [b[|b| - 1]];
    }
  }

  lemma {:induction false} CheckpointsCommit(a: seq<Checkpoint>, b: seq<Checkpoint>)
    requires CheckpointsLinked(a) && CheckpointsLinked(b) && |a| > 0 && |b| > 0
    requires a[|a| - 1].hash == b[|b| - 1].hash
    ensures a == b
  {
    assert CheckpointLinkedAt(a, |a| - 1) && CheckpointLinkedAt(b, |b| - 1);
    var x, y := a[..|a| - 1], b[..|b| - 1];
    forall i | 0 <= i < |x| ensures CheckpointLinkedAt(x, i) { assert CheckpointLinkedAt(a, i); }
    forall i | 0 <= i < |y| ensures CheckpointLinkedAt(y, i) { assert CheckpointLinkedAt(b, i); }
    if |a| > 1 { CheckpointsCommit(x, y); }
    assert a == x + [a[|a| - 1]] && b == y + [b[|b| - 1]];
  }

  /**
   * Two ledgers that verify for a principal with the same checkpoint head hold the same checkpoints, the same
   * streams and, in each stream, the same events from genesis.
   */
  lemma HeadCommitsToHistory(l: Ledger, m: Ledger, p: PrincipalId)
    requires Continuous(l, p) && Continuous(m, p)
    requires l.principals[p].checkpointHead == m.principals[p].checkpointHead
    ensures l.checkpoints[p] == m.checkpoints[p]
    ensures forall s :: s in l.principals[p].streamIds <==> s in m.principals[p].streamIds
    ensures forall s :: s in l.principals[p].streamIds ==> EventsOf(l, s) == EventsOf(m, s)
  {
    hide EventsLinked, CheckpointsLinked;
    CheckpointsCommit(l.checkpoints[p], m.checkpoints[p]);
    forall s ensures s in Heads(l.streams, l.principals[p].streamIds) <==> s in l.principals[p].streamIds { HeadKnown(l, p, s); }
    forall s ensures s in Heads(m.streams, m.principals[p].streamIds) <==> s in m.principals[p].streamIds { HeadKnown(m, p, s); }
    forall s | s in l.principals[p].streamIds ensures EventsOf(l, s) == EventsOf(m, s) {
      HeadKnown(l, p, s);
      HeadKnown(m, p, s);
      EventsCommit(EventsOf(l, s), EventsOf(m, s));
    }
  }

  /** A recorded stream's head is the head of its events. */
  lemma HeadKnown(l: Ledger, p: PrincipalId, s: StreamId)
    requires Continuous(l, p)
    ensures s in Heads(l.streams, l.principals[p].streamIds) <==> s in l.principals[p].streamIds
    ensures s in l.principals[p].streamIds ==>
              StreamOk(l, s) && Heads(l.streams, l.principals[p].streamIds)[s] == EventHead(EventsOf(l, s))
  {
    hide EventsLinked, CheckpointsLinked;
    var ids := l.principals[p].streamIds;
    if s in ids {
      var i :| 0 <= i < |ids| && ids[i] == s;
      assert StreamOk(l, ids[i]);
    }
  }

  // ---- The ledger object ----

  class MemoryPrincipalSessionLedger {
    var principals: map<PrincipalId, Principal>
    var streams: map<StreamId, Stream>
    var events: map<StreamId, seq<Event>>
    var checkpoints: map<PrincipalId, seq<Checkpoint>>
    var nonces: set<string>

    ghost function View(): Ledger
      reads this
    {
      Ledger(principals, streams, events, checkpoints, nonces)
    }

    constructor ()
      ensures View() == Empty
    {
      principals, streams, events, checkpoints, nonces := map[], map[], map[], map[], {};
    }

    method AppendEventToStream(s: StreamId, body: EventBody)
      requires s in streams
      modifies this
      ensures View() == WithEvent(old(View()), s, body)
    {
      var st := streams[s];
      var seqNo := st.head.seqNo + 1;
      var chain := EventHash(seqNo, st.head.chain, body);
      var entries := if s in events then events[s] else [];
      events := events[s := entries + [Event(seqNo, st.head.chain, body, chain)]];
      streams := streams[s := st.(head := StreamHead(seqNo, chain))];
    }

    method AppendCheckpoint(p: PrincipalId, now: int)
      requires p in principals
      modifies this
      ensures View() == WithCheckpoint(old(View()), p, now)
    {
      var r := principals[p];
      var existing := if p in checkpoints then checkpoints[p] else [];
      var heads: map<StreamId, StreamHead> := map[];
      for i := 0 to |r.streamIds|
        invariant heads == Heads(streams, r.streamIds[..i])
        invariant View() == old(View())
      {
        assert r.streamIds[..i + 1] == r.streamIds[..i] + [r.streamIds[i]];
        if r.streamIds[i] in streams { heads := heads[r.streamIds[i] := streams[r.streamIds[i]].head]; }
      }
      assert r.streamIds[..|r.streamIds|] == r.streamIds;
      var seqNo := r.checkpointSeq + 1;
      var hash := CheckpointHash(seqNo, r.checkpointHead, p, now, heads);
      checkpoints := checkpoints[p := existing + [Checkpoint(seqNo, r.checkpointHead, p, now, heads, hash)]];
      principals := principals[p := r.(checkpointSeq := seqNo, checkpointHead := hash)];
    }

    method AppendStreamEvent(p: PrincipalId, s: StreamId, kind: EventKind, payload: string, now: int)
      returns (r: Result<(), LedgerError>)
      modifies this
      ensures (View(), r) == Append(old(View()), p, s, kind, payload, now)
    {
      hide WithEvent, WithCheckpoint;
      if p !in principals { return Err(UnknownPrincipal); }
      if s !in streams || streams[s].principal != p { return Err(UnknownStream); }
      EventKeepsPrincipals(View(), s, EventBody(s, streams[s].provider, None, streams[s].agent, now, kind, None, None, payload));
      AppendEventToStream(s, EventBody(s, streams[s].provider, None, streams[s].agent, now, kind, None, None, payload));
      AppendCheckpoint(p, now);
      return Ok(());
    }

    method CloseSession(p: PrincipalId, s: StreamId, session: string, now: int) returns (r: Result<(), LedgerError>)
      modifies this
      ensures (View(), r) == Close(old(View()), p, s, session, now)
    {
      hide Append;
      if p !in principals { return Err(UnknownPrincipal); }
      principals := principals[p := principals[p].(active := Without(principals[p].active, session))];
      r := AppendStreamEvent(p, s, SessionClosed, session, now);
    }

    method RotatePrincipalKey(p: PrincipalId, fingerprint: string, keyVersion: Option<int>, now: int)
      returns (r: Result<(), LedgerError>)
      modifies this
      ensures (View(), r) == Rotate(old(View()), p, fingerprint, keyVersion, now)
    {
      if p !in principals { return Err(UnknownPrincipal); }
      var version := if keyVersion.Some? then keyVersion.value else principals[p].keyVersion + 1;
      principals := principals[p := principals[p].(fingerprint := fingerprint, keyVersion := version)];
      AppendCheckpoint(p, now);
      return Ok(());
    }

    method BindSession(i: BindInput, now: int) returns (r: Result<StreamId, LedgerError>)
      modifies this
      ensures (View(), r) == Bind(old(View()), i, now)
    {
      hide WithEvent, WithCheckpoint;
      if !i.wellFormed { return Err(InvalidInput); }
      if !i.proofOk { return Err(BadProof); }
      if i.nonce in nonces { return Err(Replayed); }
      nonces := nonces + {i.nonce};
      if !i.resolved { return Err(ResolverFailed); }
      var p, s := PrincipalIdOf(i.fingerprint), StreamIdFor(i);
      if p !in principals {
        principals := principals[p := Principal(i.fingerprint, 1, [], [], [], Genesis, 0)];
        checkpoints := checkpoints[p := []];
      }
      if s in streams {
        streams := streams[s := streams[s].(sessions := Included(streams[s].sessions, i.session))];
      } else {
        streams := streams[s := Stream(p, i.provider, i.agent, [i.session], StreamHead(0, Genesis))];
        events := events[s := []];
        principals := principals[p := principals[p].(streamIds := principals[p].streamIds + [s])];
      }
      principals := principals[p := principals[p].(sessions := Included(principals[p].sessions, i.session),
                                                   active := Included(principals[p].active, i.session))];
      var body := EventBody(s, streams[s].provider, Some(i.session), streams[s].agent, now, SessionBound, Some(i.policyDigest),
                            Some(i.proofDigest), i.payload);
      EventKeepsPrincipals(View(), s, body);
      AppendEventToStream(s, body);
      AppendCheckpoint(p, now);
      return Ok(s);
    }

    /** The event loop of verifyPrincipalContinuity over one stream. */
    method StreamHolds(s: StreamId) returns (ok: bool)
      ensures ok <==> s in streams && EventsLinked(EntriesOf(s)) && streams[s].head == EventHead(EntriesOf(s))
    {
      if s !in streams { return false; }
      var entries := EntriesOf(s);
      var prev := Genesis;
      for i := 0 to |entries|
        invariant forall j :: 0 <= j < i ==> EventLinkedAt(entries, j)
        invariant prev == if i == 0 then Genesis else entries[i - 1].chain
      {
        if entries[i].seqNo != i + 1 || entries[i].prev != prev || HashOfEvent(entries[i]) != entries[i].chain {
          assert !EventLinkedAt(entries, i);
          return false;
        }
        prev := entries[i].chain;
      }
      return streams[s].head == StreamHead(|entries|, prev);
    }

    function EntriesOf(s: StreamId): seq<Event>
      reads this
    {
      if s in events then events[s] else []
    }

    /** verifyPrincipalContinuity. */
    method VerifyPrincipalContinuity(p: PrincipalId) returns (valid: bool)
      ensures valid <==> Continuous(View(), p)
    {
      hide EventsLinked;
      if p !in principals { return false; }
      var r := principals[p];
      for i := 0 to |r.streamIds|
        invariant forall j :: 0 <= j < i ==> StreamOk(View(), r.streamIds[j])
      {
        var ok := StreamHolds(r.streamIds[i]);
        if !ok { assert !StreamOk(View(), r.streamIds[i]); return false; }
      }
      var cs := if p in checkpoints then checkpoints[p] else [];
      var prev := Genesis;
      for i := 0 to |cs|
        invariant forall j :: 0 <= j < i ==> CheckpointLinkedAt(cs, j)
        invariant prev == if i == 0 then Genesis else cs[i - 1].hash
      {
        if cs[i].seqNo != i + 1 || cs[i].prev != prev || HashOfCheckpoint(cs[i]) != cs[i].hash {
          assert !CheckpointLinkedAt(cs, i);
          return false;
        }
        prev := cs[i].hash;
      }
      if |cs| == 0 { return false; }
      var latest := cs[|cs| - 1];
      if latest.hash != r.checkpointHead || latest.seqNo != r.checkpointSeq { return false; }
      return latest.heads == Heads(streams, r.streamIds);
    }
  }

  lemma EventKeepsPrincipals(l: Ledger, s: StreamId, body: EventBody)
    requires s in l.streams
    ensures WithEvent(l, s, body).principals == l.principals
  {
  }
}
