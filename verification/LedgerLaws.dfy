/**
 * What each operation of the principal session ledger answers, and what it writes besides the links of its chains:
 * profiles, sessions, the body of the event it appends, the nonces it spends, and nothing of anyone else's.
 */
module LedgerLaws {
  import opened Wrappers
  import opened PrincipalLedger

  /** One checkpoint more for p, over the heads its listed streams have now; the profile keeps all but its place in the chain. */
  ghost predicate Checkpointed(before: Ledger, after: Ledger, p: PrincipalId, profile: Principal, now: int) {
    && p in after.principals && p in after.checkpoints
    && after.principals == before.principals[p := after.principals[p]]
    && after.principals[p] == profile.(checkpointSeq := profile.checkpointSeq + 1, checkpointHead := after.principals[p].checkpointHead)
    && var old' := if p in before.checkpoints then before.checkpoints[p] else [];
       && |after.checkpoints[p]| == |old'| + 1
       && after.checkpoints == before.checkpoints[p := old' + [after.checkpoints[p][|old'|]]]
       && var c := after.checkpoints[p][|old'|];
          && c.seqNo == profile.checkpointSeq + 1 && c.prev == profile.checkpointHead && c.principal == p && c.timestamp == now
          && c.hash == after.principals[p].checkpointHead == CheckpointHash(c.seqNo, c.prev, p, now, c.heads)
          && (forall s :: s in c.heads <==> s in profile.streamIds && s in after.streams)
          && (forall s :: s in c.heads ==> c.heads[s] == after.streams[s].head)
  }

  /** One event more in a stream, and nothing else of the stream but its head. */
  ghost predicate EventAdded(streams: map<StreamId, Stream>, events: map<StreamId, seq<Event>>, after: Ledger, s: StreamId, body: EventBody) {
    && s in streams
    && var (head, kept) := (streams[s].head, if s in events then events[s] else []);
       var hash := EventHash(head.seqNo + 1, head.chain, body);
       && after.events == events[s := kept + [Event(head.seqNo + 1, head.chain, body, hash)]]
       && after.streams == streams[s := streams[s].(head := StreamHead(head.seqNo + 1, hash))]
  }

  lemma CheckpointIs(l: Ledger, p: PrincipalId, now: int)
    requires p in l.principals
    ensures var m := WithCheckpoint(l, p, now);
            Checkpointed(l, m, p, l.principals[p], now) && m.streams == l.streams && m.events == l.events && m.nonces == l.nonces
  {
  }

  lemma EventIs(l: Ledger, s: StreamId, body: EventBody)
    requires s in l.streams
    ensures var m := WithEvent(l, s, body);
            EventAdded(l.streams, l.events, m, s, body)
            && m.principals == l.principals && m.checkpoints == l.checkpoints && m.nonces == l.nonces
  {
  }

  /** A rotation gives exactly a known principal the new fingerprint and version, under the id it has, and a checkpoint. */
  lemma RotatesExactly(l: Ledger, p: PrincipalId, fingerprint: string, keyVersion: Option<int>, now: int)
    ensures var (m, r) := Rotate(l, p, fingerprint, keyVersion, now);
            && (r.Ok? <==> p in l.principals) && (r.Err? ==> r.error == UnknownPrincipal && m == l)
            && (r.Ok? ==>
                  && Checkpointed(l, m, p, l.principals[p].(fingerprint := fingerprint, keyVersion := m.principals[p].keyVersion), now)
                  && m.principals[p].fingerprint == fingerprint
                  && m.principals[p].keyVersion == (match keyVersion case Some(v) => v case None => l.principals[p].keyVersion + 1)
                  && m.streams == l.streams && m.events == l.events && m.nonces == l.nonces)
  {
    if p in l.principals {
      var profile := l.principals[p].(fingerprint := fingerprint,
                                      keyVersion := if keyVersion.Some? then keyVersion.value else l.principals[p].keyVersion + 1);
      CheckpointIs(WithProfile(l, p, profile), p, now);
    }
    hide WithCheckpoint;
  }

  /** The body of an event that is no binding: the labels of its stream, and no session or proof. */
  function PlainBody(st: Stream, s: StreamId, kind: EventKind, payload: string, now: int): EventBody {
    EventBody(s, st.provider, None, st.agent, now, kind, None, None, payload)
  }

  /** An event is appended exactly to a stream of the principal that names it, and changes no profile. */
  lemma AppendsExactly(l: Ledger, p: PrincipalId, s: StreamId, kind: EventKind, payload: string, now: int)
    ensures var (m, r) := Append(l, p, s, kind, payload, now);
            && (r == Err(UnknownPrincipal) <==> p !in l.principals)
            && (r == Err(UnknownStream) <==> p in l.principals && !(s in l.streams && l.streams[s].principal == p))
            && (r.Err? ==> m == l && (r.error == UnknownPrincipal || r.error == UnknownStream))
            && (r.Ok? ==>
                  && Checkpointed(l, m, p, l.principals[p], now) && m.nonces == l.nonces
                  && EventAdded(l.streams, l.events, m, s, PlainBody(l.streams[s], s, kind, payload, now)))
  {
    if p in l.principals && s in l.streams {
      var body := PlainBody(l.streams[s], s, kind, payload, now);
      EventIs(l, s, body);
      CheckpointIs(WithEvent(l, s, body), p, now);
    }
    hide WithCheckpoint, WithEvent;
  }

  /** The list without a session, the others in their order. */
  lemma {:induction false} WithoutIs(xs: seq<string>, x: string)
    ensures x !in Without(xs, x)
    ensures forall y :: y != x ==> (y in Without(xs, x) <==> y in xs)
    ensures x !in xs ==> Without(xs, x) == xs
  {
    if |xs| > 0 { WithoutIs(xs[1..], x); assert xs == [xs[0]] + xs[1..]; }
  }

  /** Closing takes the session, and no other, off the active list, whether or not its stream is known; the event is added where it is. */
  lemma ClosesExactly(l: Ledger, p: PrincipalId, s: StreamId, session: string, now: int)
    ensures var (m, r) := Close(l, p, s, session, now);
            && (r == Err(UnknownPrincipal) <==> p !in l.principals)
            && (r == Err(UnknownStream) <==> p in l.principals && !(s in l.streams && l.streams[s].principal == p))
            && (p !in l.principals ==> m == l)
            && (p in l.principals ==>
                  && session !in m.principals[p].active
                  && (forall y :: y != session ==> (y in m.principals[p].active <==> y in l.principals[p].active))
                  && m.principals[p].sessions == l.principals[p].sessions && m.nonces == l.nonces
                  && (r.Err? ==> m == WithProfile(l, p, l.principals[p].(active := m.principals[p].active)))
                  && (r.Ok? ==>
                        && Checkpointed(l, m, p, l.principals[p].(active := m.principals[p].active), now)
                        && EventAdded(l.streams, l.events, m, s, PlainBody(l.streams[s], s, SessionClosed, session, now))))
  {
    if p in l.principals {
      var profile := l.principals[p].(active := Without(l.principals[p].active, session));
      WithoutIs(l.principals[p].active, session);
      AppendsExactly(WithProfile(l, p, profile), p, s, SessionClosed, session, now);
    }
    hide Append, Without;
  }

  /** The list with a session in it, at its end if it was not there. */
  predicate Includes(after: seq<string>, before: seq<string>, x: string) {
    if x in before then after == before else after == before + [x]
  }

  predicate BindOk(l: Ledger, i: BindInput) {
    i.wellFormed && i.proofOk && i.nonce !in l.nonces && i.resolved
  }

  /** A binding is refused exactly for a malformed input, a bad proof, a spent nonce or a failed resolver, and spends the nonce even on the last. */
  lemma BindRefusals(l: Ledger, i: BindInput, now: int)
    ensures var (m, r) := Bind(l, i, now);
            && (r.Ok? <==> BindOk(l, i))
            && (r == Err(InvalidInput) <==> !i.wellFormed)
            && (r == Err(BadProof) <==> i.wellFormed && !i.proofOk)
            && (r == Err(Replayed) <==> i.wellFormed && i.proofOk && i.nonce in l.nonces)
            && (r == Err(ResolverFailed) <==> i.wellFormed && i.proofOk && i.nonce !in l.nonces && !i.resolved)
            && (r.Err? ==> m == if r.error == ResolverFailed then l.(nonces := l.nonces + {i.nonce}) else l)
  {
    hide WithPrincipal, WithStream, WithProfile, WithEvent, WithCheckpoint;
  }

  /** Whom a binding finds or makes: a known principal as it is, a new one under the first version of its key. */
  function Bound(l: Ledger, i: BindInput): Principal {
    var p := "principal_" + i.fingerprint;
    if p in l.principals then l.principals[p] else Principal(i.fingerprint, 1, [], [], [], Genesis, 0)
  }

  function BoundStream(l: Ledger, i: BindInput): Stream {
    var p := "principal_" + i.fingerprint;
    var s := StreamId(p, i.provider + ":" + i.agent);
    if s in l.streams then l.streams[s].(sessions := Included(l.streams[s].sessions, i.session))
    else Stream(p, i.provider, i.agent, [i.session], StreamHead(0, Genesis))
  }

  /**
   * A binding that goes through answers the stream of principal, provider and agent, spends the nonce, puts the session
   * on both lists of the principal and on that of the stream, lists a stream that is new, and appends the binding's event.
   */
  lemma BindsExactly(l: Ledger, i: BindInput, now: int)
    requires BindOk(l, i)
    ensures var (m, r) := Bind(l, i, now);
            var p := "principal_" + i.fingerprint;
            var s := StreamId(p, i.provider + ":" + i.agent);
            var (who, st) := (Bound(l, i), BoundStream(l, i));
            && r == Ok(s) && m.nonces == l.nonces + {i.nonce}
            && p in m.principals && s in m.streams
            && m.principals[p].fingerprint == who.fingerprint && m.principals[p].keyVersion == who.keyVersion
            && Includes(m.principals[p].sessions, who.sessions, i.session)
            && Includes(m.principals[p].active, who.active, i.session)
            && m.principals[p].streamIds == (if s in l.streams then who.streamIds else who.streamIds + [s])
            && EventAdded(l.streams[s := st], if s in l.streams then l.events else l.events[s := []], m, s,
                          EventBody(s, st.provider, Some(i.session), st.agent, now, SessionBound, Some(i.policyDigest),
                                    Some(i.proofDigest), i.payload))
            && (forall q :: q in l.principals && q != p ==> q in m.principals && m.principals[q] == l.principals[q])
  {
    JoinedIs(l, i);
    BindIs(l, i, now);
    var s := StreamIdFor(i);
    var joined := Joined(l, i);
    EventIs(joined, s, BindBody(joined, i, now));
    CheckpointIs(WithEvent(joined, s, BindBody(joined, i, now)), PrincipalIdOf(i.fingerprint), now);
    hide WithCheckpoint, WithEvent, Bind, Joined, BoundStream, Bound;
  }

  /** The ledger once principal, stream and session lists are in place. */
  function Joined(l: Ledger, i: BindInput): Ledger {
    var p, s := PrincipalIdOf(i.fingerprint), StreamIdFor(i);
    var streamed := WithStream(WithPrincipal(l.(nonces := l.nonces + {i.nonce}), p, i.fingerprint), p, s, i);
    var r := streamed.principals[p];
    WithProfile(streamed, p, r.(sessions := Included(r.sessions, i.session), active := Included(r.active, i.session)))
  }

  function BindBody(l: Ledger, i: BindInput, now: int): EventBody
    requires StreamIdFor(i) in l.streams
  {
    var s := StreamIdFor(i);
    EventBody(s, l.streams[s].provider, Some(i.session), l.streams[s].agent, now, SessionBound, Some(i.policyDigest),
              Some(i.proofDigest), i.payload)
  }

  lemma JoinedIs(l: Ledger, i: BindInput)
    ensures var (m, p, s) := (Joined(l, i), PrincipalIdOf(i.fingerprint), StreamIdFor(i));
            var (who, st) := (Bound(l, i), BoundStream(l, i));
            && p == "principal_" + i.fingerprint && s == StreamId(p, i.provider + ":" + i.agent)
            && m.nonces == l.nonces + {i.nonce}
            && p in m.principals
            && m.principals[p].fingerprint == who.fingerprint && m.principals[p].keyVersion == who.keyVersion
            && Includes(m.principals[p].sessions, who.sessions, i.session)
            && Includes(m.principals[p].active, who.active, i.session)
            && m.principals[p].streamIds == (if s in l.streams then who.streamIds else who.streamIds + [s])
            && m.streams == l.streams[s := st] && m.events == (if s in l.streams then l.events else l.events[s := []])
            && (forall q :: q in l.principals && q != p ==> q in m.principals && m.principals[q] == l.principals[q])
  {
  }

  lemma BindIs(l: Ledger, i: BindInput, now: int)
    requires BindOk(l, i)
    ensures var (m, p, s) := (Joined(l, i), PrincipalIdOf(i.fingerprint), StreamIdFor(i));
            && s in m.streams && p in m.principals
            && Bind(l, i, now) == (WithCheckpoint(WithEvent(m, s, BindBody(m, i, now)), p, now), Ok(s))
  {
    hide WithCheckpoint, WithEvent;
  }
}
