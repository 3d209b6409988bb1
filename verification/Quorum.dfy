/**
 * The majority epoch fence over independent Redis members, BpcRedisQuorumFenceStore of
 * packages/server/src/bpc-ha-final.ts. Each EVAL or GET at one member is one step. A member that misses
 * its deadline is not counted, though its script may still land later; a read is not atomic over members.
 * A record stands for its one JSON text.
 */
module Quorum {
  import opened Wrappers

  datatype FenceRecord = FenceRecord(
    epoch: int,
    nodeId: string,
    systemId: string,
    credentialKeyId: string,
    commandId: string,
    claimedAt: int)

  type Member = Option<FenceRecord>

  /** The script CLAIM_FENCE at one member: the stored record afterwards, and whether it answers 1. */
  function ClaimFence(stored: Member, r: FenceRecord): (Member, bool) {
    if stored.Some? && stored.value.epoch > r.epoch then (stored, false)
    else if stored.Some? && stored.value.epoch == r.epoch then (stored, stored.value == r)
    else (Some(r), true)
  }

  /**
   * A member grants exactly when it holds nothing, a record of an earlier epoch, or this very record; it then holds
   * this record, and a refusal changes nothing.
   */
  lemma GrantsExactly(stored: Member, r: FenceRecord)
    ensures ClaimFence(stored, r).1 <==> stored == None || stored == Some(r) || stored.value.epoch < r.epoch
    ensures ClaimFence(stored, r).0 == if ClaimFence(stored, r).1 then Some(r) else stored
  {
  }

  function Majority(n: nat): nat {
    n / 2 + 1
  }

  /** A majority is the least number of which two must overlap, and what an odd membership has left when the smaller half fails. */
  lemma MajorityIsLeast(n: nat)
    ensures 2 * Majority(n) > n && 2 * (Majority(n) - 1) <= n
    ensures Odd(n) ==> Majority(n) == n - n / 2
  {
  }

  function Indices(n: nat): (s: set<nat>)
    ensures |s| == n
    ensures forall m :: m in s <==> 0 <= m < n
  {
    if n == 0 then {} else Indices(n - 1) + {n - 1}
  }

  lemma SubsetSize(a: set<nat>, b: set<nat>)
    requires a <= b
    ensures |a| <= |b|
  {
    assert b == a + (b - a);
  }

  /** Two majorities of the same members share a member. */
  lemma MajoritiesMeet(n: nat, a: set<nat>, b: set<nat>) returns (m: nat)
    requires a <= Indices(n) && b <= Indices(n)
    requires |a| >= Majority(n) && |b| >= Majority(n)
    ensures m in a && m in b
  {
    SubsetSize(a + b, Indices(n));
    assert |a + b| == |a| + |b| - |a * b|;
    if a * b == {} { assert false; }
    m :| m in a * b;
  }

  // ---- Counting answers ----

  /** The members that answered a read with `r`. */
  function Voters(answers: seq<Member>, r: FenceRecord): (s: set<nat>)
    ensures s <= Indices(|answers|)
  {
    set m: nat | 0 <= m < |answers| && answers[m] == Some(r)
  }

  predicate Wins(answers: seq<Member>, r: FenceRecord) {
    |Voters(answers, r)| >= Majority(|answers|)
  }

  lemma OneWinner(answers: seq<Member>, r1: FenceRecord, r2: FenceRecord)
    requires Wins(answers, r1) && Wins(answers, r2)
    ensures r1 == r2
  {
    var m := MajoritiesMeet(|answers|, Voters(answers, r1), Voters(answers, r2));
  }

  lemma VotersSnoc(answers: seq<Member>, a: Member, r: FenceRecord)
    ensures |Voters(answers + [a], r)| == |Voters(answers, r)| + (if a == Some(r) then 1 else 0)
  {
    var before, after := Voters(answers, r), Voters(answers + [a], r);
    if a == Some(r) {
      assert after == before + {|answers|};
    } else {
      assert after == before;
    }
  }

  lemma NoVoters(r: FenceRecord)
    ensures |Voters([], r)| == 0
  {
    assert Voters([], r) == {};
  }

  /** The grouping of rawCurrent: the record of a majority, or none. */
  method MajorityRecord(answers: seq<Member>) returns (winner: Member)
    ensures forall r :: winner == Some(r) <==> Wins(answers, r)
  {
    hide Indices, Voters;
    var groups: map<FenceRecord, nat> := map[];
    var i := 0;
    forall r ensures |Voters([], r)| == 0 { NoVoters(r); }
    while i < |answers|
      invariant 0 <= i <= |answers|
      invariant forall r :: |Voters(answers[..i], r)| == if r in groups then groups[r] else 0
    {
      forall r ensures |Voters(answers[..i + 1], r)| == |Voters(answers[..i], r)| + (if answers[i] == Some(r) then 1 else 0) {
        VotersSnoc(answers[..i], answers[i], r);
        assert answers[..i + 1] == answers[..i] + [answers[i]];
      }
      if answers[i].Some? {
        var r := answers[i].value;
        groups := groups[r := (if r in groups then groups[r] else 0) + 1];
      }
      i := i + 1;
    }
    assert answers[..i] == answers;
    winner := None;
    var pending := groups.Keys;
    while pending != {}
      invariant pending <= groups.Keys
      invariant winner.Some? ==> Wins(answers, winner.value)
      invariant forall r :: r in groups && r !in pending && Wins(answers, r) ==> winner == Some(r)
      decreases |pending|
    {
      var r :| r in pending;
      if groups[r] >= |answers| / 2 + 1 {
        winner := Some(r);
        forall q | Wins(answers, q) ensures q == r { OneWinner(answers, q, r); }
      }
      pending := pending - {r};
    }
  }

  // ---- The members under concurrent claims and reads ----

  datatype Claim = Claim(record: FenceRecord, granted: set<nat>)

  datatype System = System(
    members: seq<Member>,
    claims: map<nat, Claim>,
    /** For each read, what every member has answered so far. */
    inquiries: map<nat, seq<Member>>)

  datatype Step =
    | StartClaim(id: nat, record: FenceRecord)
    | Land(id: nat, member: nat, answered: bool)
    | StartRead(id: nat)
    | Answer(id: nat, member: nat)

  function Next(s: System, step: Step): System {
    match step
    case StartClaim(id, r) => if id in s.claims then s else s.(claims := s.claims[id := Claim(r, {})])
    case Land(id, m, answered) =>
      if !(id in s.claims && m < |s.members|) then s else
      var c := s.claims[id];
      var (stored, granted) := ClaimFence(s.members[m], c.record);
      s.(members := s.members[m := stored],
         claims := if granted && answered then s.claims[id := c.(granted := c.granted + {m})] else s.claims)
    case StartRead(id) =>
      if id in s.inquiries then s else s.(inquiries := s.inquiries[id := seq(|s.members|, i => None)])
    case Answer(id, m) =>
      if !(id in s.inquiries && m < |s.members| && m < |s.inquiries[id]|) then s
      else s.(inquiries := s.inquiries[id := s.inquiries[id][m := s.members[m]]])
  }

  function Run(s: System, steps: seq<Step>): System {
    if |steps| == 0 then s else Next(Run(s, steps[..|steps| - 1]), steps[|steps| - 1])
  }

  function Initial(n: nat): System {
    System(seq(n, i => None), map[], map[])
  }

  predicate Odd(n: nat) {
    n >= 3 && n % 2 == 1
  }

  predicate AtLeast(m: Member, epoch: int) {
    m.Some? && m.value.epoch >= epoch
  }

  /** A member that granted `r` holds it, or a record of a later epoch. */
  predicate StillHolds(m: Member, r: FenceRecord) {
    m.Some? && (m.value.epoch > r.epoch || m.value == r)
  }

  ghost predicate ClaimOk(members: seq<Member>, c: Claim) {
    forall m :: m in c.granted ==> m < |members| && StillHolds(members[m], c.record)
  }

  ghost predicate ReadOk(members: seq<Member>, answers: seq<Member>) {
    && |answers| == |members|
    && forall m :: 0 <= m < |answers| && answers[m].Some? ==> AtLeast(members[m], answers[m].value.epoch)
  }

  ghost predicate Inv(s: System) {
    && (forall id :: id in s.claims ==> ClaimOk(s.members, s.claims[id]))
    && (forall id :: id in s.inquiries ==> ReadOk(s.members, s.inquiries[id]))
  }

  /** Two grants by one member at one epoch are the same record: a history fact kept beside Inv. */
  ghost predicate GrantsAgree(claims: map<nat, Claim>) {
    forall i, j, m ::
      (&& i in claims && j in claims && m in claims[i].granted && m in claims[j].granted
       && claims[i].record.epoch == claims[j].record.epoch) ==> claims[i].record == claims[j].record
  }

  /** No step lets a member fall back. */
  ghost predicate Advances(before: seq<Member>, after: seq<Member>) {
    && |before| == |after|
    && (forall m, r :: 0 <= m < |before| && StillHolds(before[m], r) ==> StillHolds(after[m], r))
    && (forall m, e :: 0 <= m < |before| && AtLeast(before[m], e) ==> AtLeast(after[m], e))
  }

  lemma NextAdvances(s: System, step: Step)
    ensures Advances(s.members, Next(s, step).members)
  {
  }

  lemma NextKeeps(s: System, step: Step)
    requires Inv(s)
    ensures Inv(Next(s, step))
  {
    hide Advances;
    var s' := Next(s, step);
    NextAdvances(s, step);
    forall id | id in s'.claims ensures ClaimOk(s'.members, s'.claims[id]) {
      if id in s.claims { ClaimOkAdvances(s.members, s'.members, s.claims[id]); }
    }
    forall id | id in s'.inquiries ensures ReadOk(s'.members, s'.inquiries[id]) {
      if id in s.inquiries { ReadOkAdvances(s.members, s'.members, s.inquiries[id]); }
    }
  }

  lemma ClaimOkAdvances(before: seq<Member>, after: seq<Member>, c: Claim)
    requires Advances(before, after) && ClaimOk(before, c)
    ensures ClaimOk(after, c)
  {
  }

  lemma ReadOkAdvances(before: seq<Member>, after: seq<Member>, answers: seq<Member>)
    requires Advances(before, after) && ReadOk(before, answers)
    ensures ReadOk(after, answers)
  {
  }

  lemma NextGrantsAgree(s: System, step: Step)
    requires Inv(s) && GrantsAgree(s.claims)
    ensures GrantsAgree(Next(s, step).claims)
  {
  }

  lemma {:induction false} RunKeeps(s: System, steps: seq<Step>)
    requires Inv(s) && GrantsAgree(s.claims)
    ensures Inv(Run(s, steps)) && GrantsAgree(Run(s, steps).claims) && |Run(s, steps).members| == |s.members|
  {
    if |steps| > 0 {
      RunKeeps(s, steps[..|steps| - 1]);
      NextKeeps(Run(s, steps[..|steps| - 1]), steps[|steps| - 1]);
      NextGrantsAgree(Run(s, steps[..|steps| - 1]), steps[|steps| - 1]);
    }
  }

  predicate Won(s: System, id: nat) {
    id in s.claims && |s.claims[id].granted| >= Majority(|s.members|)
  }

  lemma GrantedAreMembers(s: System, id: nat)
    requires Inv(s) && id in s.claims
    ensures s.claims[id].granted <= Indices(|s.members|)
  {
    assert ClaimOk(s.members, s.claims[id]);
  }

  /** Two records that each gained a majority at the same epoch are identical. */
  lemma EqualEpochWinnersAreIdentical(n: nat, steps: seq<Step>, i: nat, j: nat)
    requires var s := Run(Initial(n), steps); Won(s, i) && Won(s, j) && s.claims[i].record.epoch == s.claims[j].record.epoch
    ensures var s := Run(Initial(n), steps); s.claims[i].record == s.claims[j].record
  {
    var s := Run(Initial(n), steps);
    RunKeeps(Initial(n), steps);
    GrantedAreMembers(s, i);
    GrantedAreMembers(s, j);
    var m := MajoritiesMeet(n, s.claims[i].granted, s.claims[j].granted);
  }

  /** A majority of members is known to be at epoch `e` or later. */
  ghost predicate Reached(members: seq<Member>, held: set<nat>, e: int) {
    && held <= Indices(|members|)
    && |held| >= Majority(|members|)
    && forall m :: m in held ==> AtLeast(members[m], e)
  }

  /** What a read that started then can have heard from those members. */
  ghost predicate HeardAtLeast(s: System, id: nat, held: set<nat>, e: int) {
    id in s.inquiries && forall m :: m in held && m < |s.inquiries[id]| && s.inquiries[id][m].Some? ==> s.inquiries[id][m].value.epoch >= e
  }

  lemma {:induction false} ReachedLasts(s: System, steps: seq<Step>, held: set<nat>, e: int, id: nat)
    requires Reached(s.members, held, e) && HeardAtLeast(s, id, held, e)
    ensures Reached(Run(s, steps).members, held, e) && HeardAtLeast(Run(s, steps), id, held, e)
  {
    hide Indices, ClaimFence;
    if |steps| > 0 {
      var mid := Run(s, steps[..|steps| - 1]);
      ReachedLasts(s, steps[..|steps| - 1], held, e, id);
      NextAdvances(mid, steps[|steps| - 1]);
    }
  }

  /** Epoch `e` has been claimed by a majority, or returned by a quorum read. */
  ghost predicate Established(s: System, e: int) {
    || (exists id :: Won(s, id) && s.claims[id].record.epoch == e)
    || (exists id, r :: id in s.inquiries && Wins(s.inquiries[id], r) && r.epoch == e)
  }

  lemma EstablishedIsReached(s: System, e: int) returns (held: set<nat>)
    requires Inv(s) && Established(s, e)
    ensures Reached(s.members, held, e)
  {
    if id :| Won(s, id) && s.claims[id].record.epoch == e {
      GrantedAreMembers(s, id);
      held := s.claims[id].granted;
    } else {
      var id, r :| id in s.inquiries && Wins(s.inquiries[id], r) && r.epoch == e;
      assert ReadOk(s.members, s.inquiries[id]);
      held := Voters(s.inquiries[id], r);
    }
  }

  /**
   * Once a majority claimed epoch e, or a quorum read returned it, no read that starts later returns a
   * smaller epoch, however claims, late scripts and other reads interleave with it.
   */
  lemma LaterReadsAreNotSmaller(n: nat, before: seq<Step>, after: seq<Step>, id: nat, e: int, r: FenceRecord)
    requires Established(Run(Initial(n), before), e) && id !in Run(Initial(n), before).inquiries
    requires var s := Run(Next(Run(Initial(n), before), StartRead(id)), after);
             id in s.inquiries && Wins(s.inquiries[id], r)
    ensures r.epoch >= e
  {
    var s1 := Run(Initial(n), before);
    RunKeeps(Initial(n), before);
    var held := EstablishedIsReached(s1, e);
    var s2 := Next(s1, StartRead(id));
    NextAdvances(s1, StartRead(id));
    NextKeeps(s1, StartRead(id));
    ReachedLasts(s2, after, held, e, id);
    RunKeeps(s2, after);
    var s := Run(s2, after);
    assert ReadOk(s.members, s.inquiries[id]);
    var m := MajoritiesMeet(|s.members|, held, Voters(s.inquiries[id], r));
  }

  // ---- A claim that nothing stands against ----

  /** How one member answers within the deadline: not at all, too late, or in time. */
  datatype Delivery = Lost | Late | InTime

  /** Members whose record does not stand against a claim. */
  predicate Yields(stored: Member, r: FenceRecord) {
    stored == None || stored == Some(r) || stored.value.epoch < r.epoch
  }

  /** The members that a claim reached in time and that do not stand against it. */
  function Willing(members: seq<Member>, r: FenceRecord, deliveries: seq<Delivery>): (s: set<nat>)
    requires |deliveries| == |members|
    ensures s <= Indices(|members|)
  {
    set m: nat | 0 <= m < |members| && deliveries[m] == InTime && Yields(members[m], r)
  }

  /** What the members hold after a claim has been to all of them. */
  function Claimed(members: seq<Member>, r: FenceRecord, deliveries: seq<Delivery>): (after: seq<Member>)
    requires |deliveries| == |members|
    ensures |after| == |members|
  {
    seq(|members|, m requires 0 <= m < |members| =>
      if deliveries[m] != Lost && Yields(members[m], r) then Some(r) else members[m])
  }

  /** A claim is won exactly by a majority of willing members, and it leaves its record at every one of them. */
  lemma WonExactlyByTheWilling(members: seq<Member>, r: FenceRecord, deliveries: seq<Delivery>)
    requires |deliveries| == |members|
    ensures Grants(members, r, deliveries) == Willing(members, r, deliveries)
    ensures forall m :: 0 <= m < |members| ==>
              Claimed(members, r, deliveries)[m] == if deliveries[m] == Lost then members[m] else ClaimFence(members[m], r).0
  {
    forall m | 0 <= m < |members| ensures GrantsInTime(members[m], r, deliveries[m]) <==> m in Willing(members, r, deliveries) {
      GrantsExactly(members[m], r);
    }
    forall m | 0 <= m < |members|
      ensures Claimed(members, r, deliveries)[m] == if deliveries[m] == Lost then members[m] else ClaimFence(members[m], r).0
    {
      GrantsExactly(members[m], r);
    }
  }

  /** The members a claim reached in time. */
  function Reaches(n: nat, deliveries: seq<Delivery>): (s: set<nat>)
    requires |deliveries| == n
    ensures s <= Indices(n)
  {
    set m: nat | 0 <= m < n && deliveries[m] == InTime
  }

  /**
   * A claim beyond every stored epoch that reaches a majority in time is won; a read that hears the members it
   * reached then returns its record; and the same claim, sent again in the same way, is won again.
   */
  lemma HigherEpochWins(members: seq<Member>, r: FenceRecord, deliveries: seq<Delivery>, inTime: seq<bool>)
    requires |deliveries| == |inTime| == |members| && |Reaches(|members|, deliveries)| >= Majority(|members|)
    requires forall m :: 0 <= m < |members| && members[m].Some? ==> members[m].value.epoch < r.epoch
    requires forall m :: 0 <= m < |members| && deliveries[m] == InTime ==> inTime[m]
    ensures |Grants(members, r, deliveries)| >= Majority(|members|)
    ensures Wins(Heard(Claimed(members, r, deliveries), inTime), r)
    ensures |Grants(Claimed(members, r, deliveries), r, deliveries)| >= Majority(|members|)
    ensures Claimed(Claimed(members, r, deliveries), r, deliveries) == Claimed(members, r, deliveries)
  {
    hide Indices;
    var after, reached := Claimed(members, r, deliveries), Reaches(|members|, deliveries);
    WonExactlyByTheWilling(members, r, deliveries);
    WonExactlyByTheWilling(after, r, deliveries);
    assert Willing(members, r, deliveries) == reached;
    assert Willing(after, r, deliveries) == reached;
    var heard := Voters(Heard(after, inTime), r);
    assert reached <= heard;
    SubsetSize(reached, heard);
  }

  // ---- The same as a run of the machine ----

  function LandAll(id: nat, n: nat): seq<Step> {
    seq(n, (m: nat) => Land(id, m, true))
  }

  function AnswerAll(id: nat, n: nat): seq<Step> {
    seq(n, (m: nat) => Answer(id, m))
  }

  lemma RunConcat(s: System, a: seq<Step>, b: seq<Step>)
    ensures Run(s, a + b) == Run(Run(s, a), b)
    decreases |b|
  {
    hide Next;
    if |b| == 0 {
      assert a + b == a;
    } else {
      assert (a + b)[..|a + b| - 1] == a + b[..|b| - 1];
      RunConcat(s, a, b[..|b| - 1]);
    }
  }

  lemma {:induction false} AllLand(s: System, id: nat, n: nat)
    requires n <= |s.members| && id in s.claims && s.claims[id].granted == {}
    requires forall m :: 0 <= m < |s.members| ==> Yields(s.members[m], s.claims[id].record)
    ensures var t := Run(s, LandAll(id, n));
            && |t.members| == |s.members| && t.inquiries == s.inquiries
            && (forall m :: 0 <= m < |s.members| ==> t.members[m] == if m < n then Some(s.claims[id].record) else s.members[m])
            && id in t.claims && t.claims[id].record == s.claims[id].record && t.claims[id].granted == Indices(n)
  {
    if n > 0 {
      AllLand(s, id, n - 1);
      assert LandAll(id, n)[..n - 1] == LandAll(id, n - 1);
      LandOne(Run(s, LandAll(id, n - 1)), id, n - 1);
    }
    hide Next;
  }

  lemma LandOne(s: System, id: nat, m: nat)
    requires m < |s.members| && id in s.claims && Yields(s.members[m], s.claims[id].record)
    ensures var c := s.claims[id];
            Next(s, Land(id, m, true)) ==
              s.(members := s.members[m := Some(c.record)], claims := s.claims[id := c.(granted := c.granted + {m})])
  {
    GrantsExactly(s.members[m], s.claims[id].record);
  }

  lemma {:induction false} AllAnswer(s: System, id: nat, n: nat)
    requires n <= |s.members| && id in s.inquiries && |s.inquiries[id]| == |s.members|
    ensures var t := Run(s, AnswerAll(id, n));
            && t.members == s.members && t.claims == s.claims
            && id in t.inquiries && |t.inquiries[id]| == |s.members|
            && forall m :: 0 <= m < |s.members| ==> t.inquiries[id][m] == if m < n then s.members[m] else s.inquiries[id][m]
  {
    if n > 0 {
      AllAnswer(s, id, n - 1);
      assert AnswerAll(id, n)[..n - 1] == AnswerAll(id, n - 1);
    }
  }

  lemma EveryoneVotes(answers: seq<Member>, r: FenceRecord)
    requires |answers| > 0 && forall m :: 0 <= m < |answers| ==> answers[m] == Some(r)
    ensures Wins(answers, r)
  {
    assert Voters(answers, r) == Indices(|answers|);
  }

  /**
   * In any state, a new claim beyond every stored epoch that lands everywhere in time is won, and a read that is
   * started then and answered everywhere returns its record.
   */
  lemma ClaimsCanBeWon(s: System, id: nat, r: FenceRecord, reader: nat)
    requires id !in s.claims && reader !in s.inquiries && |s.members| > 0
    requires forall m :: 0 <= m < |s.members| ==> Yields(s.members[m], r)
    ensures var t := Run(s, [StartClaim(id, r)] + LandAll(id, |s.members|) + [StartRead(reader)] + AnswerAll(reader, |s.members|));
            && Won(t, id) && t.claims[id].record == r && reader in t.inquiries && Wins(t.inquiries[reader], r)
  {
    var n := |s.members|;
    var s1 := Next(s, StartClaim(id, r));
    AllLand(s1, id, n);
    var s2 := Run(s1, LandAll(id, n));
    var s3 := Next(s2, StartRead(reader));
    AllAnswer(s3, reader, n);
    var s4 := Run(s3, AnswerAll(reader, n));
    EveryoneVotes(s4.inquiries[reader], r);
    hide Next, Indices;
    var first, second := [StartClaim(id, r)], [StartClaim(id, r)] + LandAll(id, n);
    assert first[..0] == [] && Run(s, first) == s1;
    RunConcat(s, first, LandAll(id, n));
    assert (second + [StartRead(reader)])[..|second|] == second;
    assert Run(s, second + [StartRead(reader)]) == s3;
    RunConcat(s, second + [StartRead(reader)], AnswerAll(reader, n));
  }

  // ---- The store object ----

  class BpcRedisQuorumFenceStore {
    var members: seq<Member>

    constructor (n: nat)
      requires Odd(n)
      ensures members == Initial(n).members
    {
      members := seq(n, i => None);
    }

    /**
     * One claim, every member in turn; the run it performs is one of the machine's. `witnessed` is the verdict
     * of the epoch witness on the record; without it the claim throws before any member is asked.
     */
    method Claim(record: FenceRecord, witnessed: bool, deliveries: seq<Delivery>) returns (won: Option<bool>)
      requires |deliveries| == |members|
      modifies this
      ensures |members| == |old(members)|
      ensures !witnessed ==> won == None && members == old(members)
      ensures witnessed ==> forall m :: 0 <= m < |members| ==>
                members[m] == if deliveries[m] == Lost then old(members)[m] else ClaimFence(old(members)[m], record).0
      ensures witnessed ==> members == Claimed(old(members), record, deliveries)
      ensures witnessed ==> won == Some(|Willing(old(members), record, deliveries)| >= Majority(|members|))
      ensures won == Some(true) ==> Reached(members, Willing(old(members), record, deliveries), record.epoch)
    {
      if !witnessed { return None; }
      WonExactlyByTheWilling(members, record, deliveries);
      var count := AskMembers(record, deliveries);
      won := Some(count >= Majority(|members|));
    }

    /** Every member's claim script, and how many granted it in time. */
    method AskMembers(record: FenceRecord, deliveries: seq<Delivery>) returns (count: nat)
      requires |deliveries| == |members|
      modifies this
      ensures |members| == |old(members)|
      ensures forall m :: 0 <= m < |members| ==>
                members[m] == if deliveries[m] == Lost then old(members)[m] else ClaimFence(old(members)[m], record).0
      ensures count == |Grants(old(members), record, deliveries)|
    {
      hide ClaimFence;
      count := 0;
      var i := 0;
      ghost var granted: set<nat> := {};
      while i < |members|
        invariant 0 <= i <= |members| == |old(members)|
        invariant forall m :: i <= m < |members| ==> members[m] == old(members)[m]
        invariant forall m :: 0 <= m < i ==>
                    members[m] == if deliveries[m] == Lost then old(members)[m] else ClaimFence(old(members)[m], record).0
        invariant granted == set m: nat | 0 <= m < i && GrantsInTime(old(members)[m], record, deliveries[m])
        invariant count == |granted|
      {
        if deliveries[i] != Lost {
          var (stored, answer) := ClaimFence(members[i], record);
          members := members[i := stored];
          if answer && deliveries[i] == InTime {
            count := count + 1;
            granted := granted + {i};
          }
        }
        i := i + 1;
      }
      assert granted == Grants(old(members), record, deliveries);
    }

    /** rawCurrent: the record a majority of the members that answered in time agree on. */
    method RawCurrent(inTime: seq<bool>) returns (winner: Member)
      requires |inTime| == |members|
      ensures forall r :: winner == Some(r) <==> Wins(Heard(members, inTime), r)
    {
      winner := MajorityRecord(Heard(members, inTime));
    }
  }

  function Heard(members: seq<Member>, inTime: seq<bool>): seq<Member>
    requires |inTime| == |members|
  {
    seq(|members|, m requires 0 <= m < |members| => if inTime[m] then members[m] else None)
  }

  predicate GrantsInTime(stored: Member, record: FenceRecord, d: Delivery) {
    d == InTime && ClaimFence(stored, record).1
  }

  function Grants(members: seq<Member>, record: FenceRecord, deliveries: seq<Delivery>): (s: set<nat>)
    requires |deliveries| == |members|
    ensures s <= Indices(|members|)
  {
    set m: nat | 0 <= m < |members| && GrantsInTime(members[m], record, deliveries[m])
  }
}
