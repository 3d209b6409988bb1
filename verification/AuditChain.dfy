/**
 * The hash-chained audit logs of packages/server/src/audit.ts. A chain hash is a term over what
 * chainPreimage encodes, so it is collision-free; `Foreign` stands for any text no entry hashes to. A body is
 * what is hashed of an entry: absent fields as null, an absent severity as `info`.
 */
module AuditChain {
  import opened Wrappers

  datatype Body = Body(id: string, timestamp: int, action: string, severity: string, fields: seq<Option<string>>)

  datatype Hash = Genesis | Chain(seqNo: int, prev: Hash, body: Body) | Foreign(text: string)

  datatype Entry = Entry(seqNo: int, prev: Hash, chain: Hash, body: Body)

  datatype Head = Head(seqNo: int, chain: Hash, count: nat)

  datatype Reason = HashMismatch | NonContiguous | BrokenLink | TruncatedBelowAnchor | AnchorMismatch

  datatype Verdict = Valid | Invalid(brokenAt: int, reason: Reason)

  function HashOf(e: Entry): Hash {
    Chain(e.seqNo, e.prev, e.body)
  }

  // ---- verifyEntries ----

  function InsertBySeq(sorted: seq<Entry>, e: Entry): (s: seq<Entry>)
    ensures |s| == |sorted| + 1
  {
    if |sorted| == 0 || sorted[|sorted| - 1].seqNo <= e.seqNo then sorted + [e]
    else InsertBySeq(sorted[..|sorted| - 1], e) + [sorted[|sorted| - 1]]
  }

  /** The stable sort by sequence number. */
  function SortedBySeq(entries: seq<Entry>): (s: seq<Entry>)
    ensures |s| == |entries|
  {
    if |entries| == 0 then [] else InsertBySeq(SortedBySeq(entries[..|entries| - 1]), entries[|entries| - 1])
  }

  function CheckEntry(sorted: seq<Entry>, i: nat): Verdict
    requires i < |sorted|
  {
    var e := sorted[i];
    if HashOf(e) != e.chain then Invalid(e.seqNo, HashMismatch)
    else if i > 0 && e.seqNo != sorted[i - 1].seqNo + 1 then Invalid(e.seqNo, NonContiguous)
    else if i > 0 && e.prev != sorted[i - 1].chain then Invalid(e.seqNo, BrokenLink)
    else Valid
  }

  /** The first thing wrong with the entries before position n. */
  function CheckUpTo(sorted: seq<Entry>, n: nat): Verdict
    requires n <= |sorted|
  {
    if n == 0 then Valid else
    var before := CheckUpTo(sorted, n - 1);
    if before != Valid then before else CheckEntry(sorted, n - 1)
  }

  /** The anchor's place in the list: the first entry with its sequence number carries its hash. */
  function CheckAnchor(sorted: seq<Entry>, anchor: Head): Verdict {
    if |sorted| == 0 || sorted[|sorted| - 1].seqNo < anchor.seqNo then Invalid(anchor.seqNo, TruncatedBelowAnchor)
    else
      var at := FirstAt(sorted, anchor.seqNo);
      if at.None? || at.value.chain != anchor.chain then Invalid(anchor.seqNo, AnchorMismatch) else Valid
  }

  function FirstAt(sorted: seq<Entry>, seqNo: int): Option<Entry> {
    if |sorted| == 0 then None
    else if sorted[0].seqNo == seqNo then Some(sorted[0])
    else FirstAt(sorted[1..], seqNo)
  }

  function VerifyEntries(entries: seq<Entry>, anchor: Option<Head>): Verdict {
    var sorted := SortedBySeq(entries);
    var chain := CheckUpTo(sorted, |sorted|);
    if chain != Valid || anchor.None? then chain else CheckAnchor(sorted, anchor.value)
  }

  /** The loop of verifyEntries. */
  method VerifyEntriesLoop(entries: seq<Entry>, anchor: Option<Head>) returns (v: Verdict)
    ensures v == VerifyEntries(entries, anchor)
  {
    var sorted := SortedBySeq(entries);
    for i := 0 to |sorted|
      invariant CheckUpTo(sorted, i) == Valid
    {
      var e := sorted[i];
      assert CheckUpTo(sorted, i + 1) == CheckEntry(sorted, i);
      if HashOf(e) != e.chain { StaysInvalid(sorted, i + 1, |sorted|); return Invalid(e.seqNo, HashMismatch); }
      if i > 0 {
        var prev := sorted[i - 1];
        if e.seqNo != prev.seqNo + 1 { StaysInvalid(sorted, i + 1, |sorted|); return Invalid(e.seqNo, NonContiguous); }
        if e.prev != prev.chain { StaysInvalid(sorted, i + 1, |sorted|); return Invalid(e.seqNo, BrokenLink); }
      }
    }
    if anchor.Some? { return CheckAnchor(sorted, anchor.value); }
    return Valid;
  }

  lemma {:induction false} StaysInvalid(sorted: seq<Entry>, n: nat, m: nat)
    requires n <= m <= |sorted| && CheckUpTo(sorted, n) != Valid
    ensures CheckUpTo(sorted, m) == CheckUpTo(sorted, n)
  {
    if n < m { StaysInvalid(sorted, n, m - 1); }
  }

  // ---- What a valid list is ----

  predicate LinkedAt(s: seq<Entry>, i: nat)
    requires i < |s|
  {
    && s[i].chain == HashOf(s[i])
    && s[i].seqNo == s[0].seqNo + i
    && (i > 0 ==> s[i].prev == s[i - 1].chain)
  }

  ghost predicate Linked(s: seq<Entry>) {
    forall i :: 0 <= i < |s| ==> LinkedAt(s, i)
  }

  lemma {:induction false} ValidIsLinked(s: seq<Entry>, n: nat)
    requires n <= |s| && CheckUpTo(s, n) == Valid
    ensures forall i :: 0 <= i < n ==> LinkedAt(s, i)
  {
    if n > 0 {
      ValidIsLinked(s, n - 1);
      if n > 1 { assert LinkedAt(s, n - 2); }
    }
  }

  lemma {:induction false} LinkedIsValid(s: seq<Entry>, n: nat)
    requires Linked(s) && n <= |s|
    ensures CheckUpTo(s, n) == Valid
  {
    if n > 0 {
      LinkedIsValid(s, n - 1);
      assert LinkedAt(s, n - 1);
      if n > 1 { assert LinkedAt(s, n - 2); }
    }
  }

  lemma {:induction false} LinkedIsSorted(s: seq<Entry>)
    requires Linked(s)
    ensures SortedBySeq(s) == s
  {
    if |s| > 0 {
      var front := s[..|s| - 1];
      forall i | 0 <= i < |front| ensures LinkedAt(front, i) { assert LinkedAt(s, i); }
      LinkedIsSorted(front);
      assert LinkedAt(s, |s| - 1);
      if |s| > 1 { assert LinkedAt(s, |s| - 2); }
    }
  }

  lemma {:induction false} FirstAtLinked(s: seq<Entry>, i: nat)
    requires Linked(s) && i < |s|
    ensures FirstAt(s, s[i].seqNo) == Some(s[i])
  {
    assert LinkedAt(s, i);
    FirstAtFrom(s, 0, i);
    assert s[0..] == s;
  }

  lemma {:induction false} FirstAtFrom(s: seq<Entry>, from: nat, i: nat)
    requires Linked(s) && from <= i < |s|
    ensures FirstAt(s[from..], s[i].seqNo) == Some(s[i])
    decreases i - from
  {
    assert LinkedAt(s, from) && LinkedAt(s, i);
    if from < i {
      FirstAtFrom(s, from + 1, i);
      assert s[from..][1..] == s[from + 1..];
    }
  }

  lemma {:induction false} FirstAtMeans(s: seq<Entry>, seqNo: int) returns (i: nat)
    requires FirstAt(s, seqNo).Some?
    ensures i < |s| && s[i] == FirstAt(s, seqNo).value && s[i].seqNo == seqNo
  {
    if s[0].seqNo == seqNo {
      i := 0;
    } else {
      i := FirstAtMeans(s[1..], seqNo);
      i := i + 1;
    }
  }

  lemma {:induction false} FirstAtNone(s: seq<Entry>, seqNo: int)
    requires forall i :: 0 <= i < |s| ==> s[i].seqNo != seqNo
    ensures FirstAt(s, seqNo).None?
  {
    if |s| > 0 { FirstAtNone(s[1..], seqNo); }
  }

  // ---- Anchored agreement ----

  /** A linked list from an entry downwards is determined by that entry. */
  lemma {:induction false} AgreeBelow(a: seq<Entry>, i: nat, b: seq<Entry>, j: nat, d: nat)
    requires Linked(a) && Linked(b) && i < |a| && j < |b| && a[i] == b[j]
    requires d <= i && d <= j
    ensures a[i - d] == b[j - d]
    decreases d
  {
    if d > 0 {
      AgreeBelow(a, i, b, j, d - 1);
      var x, y := i - d + 1, j - d + 1;
      assert LinkedAt(a, x) && LinkedAt(b, y) && LinkedAt(a, x - 1) && LinkedAt(b, y - 1);
    }
  }

  /**
   * Two entry lists that verify against one anchor agree on every sequence number up to it that both hold:
   * nothing at or below an anchor can be altered, dropped from the middle or reordered unnoticed.
   */
  lemma AnchoredListsAgree(a: seq<Entry>, b: seq<Entry>, anchor: Head, x: nat, y: nat)
    requires VerifyEntries(a, Some(anchor)) == Valid && VerifyEntries(b, Some(anchor)) == Valid
    requires x < |a| && y < |b|
    requires SortedBySeq(a)[x].seqNo == SortedBySeq(b)[y].seqNo <= anchor.seqNo
    ensures SortedBySeq(a)[x] == SortedBySeq(b)[y]
  {
    hide SortedBySeq, FirstAt;
    var s, t := SortedBySeq(a), SortedBySeq(b);
    ValidIsLinked(s, |s|);
    ValidIsLinked(t, |t|);
    hide CheckUpTo;
    var i := FirstAtMeans(s, anchor.seqNo);
    var j := FirstAtMeans(t, anchor.seqNo);
    assert LinkedAt(s, i) && LinkedAt(t, j) && LinkedAt(s, x) && LinkedAt(t, y);
    assert s[i] == t[j];
    AgreeBelow(s, i, t, j, i - x);
  }

  // ---- The in-memory log ----

  datatype Log = Log(entries: seq<Entry>, seqCounter: nat, headHash: Hash)

  const EmptyLog := Log([], 0, Genesis)

  function NextEntry(log: Log, body: Body): Entry {
    Entry(log.seqCounter + 1, log.headHash, Chain(log.seqCounter + 1, log.headHash, body), body)
  }

  function Write(log: Log, body: Body, maxSize: Option<nat>): Log {
    var e := NextEntry(log, body);
    var all := log.entries + [e];
    Log(if maxSize.Some? && |all| > maxSize.value then all[1..] else all, log.seqCounter + 1, e.chain)
  }

  function WriteAll(bodies: seq<Body>, maxSize: Option<nat>): Log {
    if |bodies| == 0 then EmptyLog else Write(WriteAll(bodies[..|bodies| - 1], maxSize), bodies[|bodies| - 1], maxSize)
  }

  function HeadOf(log: Log): Head {
    Head(log.seqCounter, log.headHash, log.seqCounter)
  }

  /** The retained entries are the linked tail of everything written. */
  ghost predicate LogOk(log: Log) {
    && Linked(log.entries)
    && |log.entries| <= log.seqCounter
    && (|log.entries| > 0 ==>
          var last := log.entries[|log.entries| - 1]; last.seqNo == log.seqCounter && last.chain == log.headHash)
  }

  lemma LinkedSnoc(s: seq<Entry>, e: Entry)
    requires Linked(s) && e.chain == HashOf(e)
    requires |s| > 0 ==> e.seqNo == s[|s| - 1].seqNo + 1 && e.prev == s[|s| - 1].chain
    ensures Linked(s + [e])
  {
    var t := s + [e];
    forall i | 0 <= i < |t| ensures LinkedAt(t, i) {
      if i < |s| { assert LinkedAt(s, i); }
      else if |s| > 0 { assert LinkedAt(s, |s| - 1); }
    }
  }

  lemma LinkedTail(s: seq<Entry>)
    requires Linked(s) && |s| > 0
    ensures Linked(s[1..])
  {
    var t := s[1..];
    forall i | 0 <= i < |t| ensures LinkedAt(t, i) {
      assert LinkedAt(s, i + 1) && LinkedAt(s, 1) && LinkedAt(s, i);
    }
  }

  lemma WriteKeeps(log: Log, body: Body, maxSize: Option<nat>)
    requires LogOk(log)
    ensures LogOk(Write(log, body, maxSize))
  {
    LinkedSnoc(log.entries, NextEntry(log, body));
    LinkedTail(log.entries + [NextEntry(log, body)]);
  }

  lemma {:induction false} EveryLogIsLinked(bodies: seq<Body>, maxSize: Option<nat>)
    ensures LogOk(WriteAll(bodies, maxSize)) && WriteAll(bodies, maxSize).seqCounter == |bodies|
  {
    if |bodies| > 0 {
      EveryLogIsLinked(bodies[..|bodies| - 1], maxSize);
      WriteKeeps(WriteAll(bodies[..|bodies| - 1], maxSize), bodies[|bodies| - 1], maxSize);
    }
  }

  /** Of n entries written, the k-th is retained only as the entry with this sequence number and hash. */
  predicate RetainedAs(log: Log, n: nat, k: nat, chain: Hash)
    requires |log.entries| <= n && 1 <= k <= n
  {
    k > n - |log.entries| ==>
      var e := log.entries[k - 1 - (n - |log.entries|)];
      e.seqNo == k && e.chain == chain
  }

  lemma LastIsRetained(log: Log)
    requires LogOk(log) && log.seqCounter >= 1
    ensures |log.entries| <= log.seqCounter && RetainedAs(log, log.seqCounter, log.seqCounter, log.headHash)
  {
    hide Linked;
  }

  lemma WriteKeepsRetained(log: Log, body: Body, maxSize: Option<nat>, n: nat, k: nat, chain: Hash)
    requires |log.entries| <= n && 1 <= k <= n && RetainedAs(log, n, k, chain)
    ensures |Write(log, body, maxSize).entries| <= n + 1 && RetainedAs(Write(log, body, maxSize), n + 1, k, chain)
  {
  }

  lemma {:induction false} RetainedEntry(bodies: seq<Body>, maxSize: Option<nat>, k: nat)
    requires 1 <= k <= |bodies|
    ensures |WriteAll(bodies, maxSize).entries| <= |bodies|
    ensures RetainedAs(WriteAll(bodies, maxSize), |bodies|, k, WriteAll(bodies[..k], maxSize).headHash)
  {
    hide LogOk, Write, RetainedAs;
    var n := |bodies|;
    if k == n {
      EveryLogIsLinked(bodies, maxSize);
      assert bodies[..k] == bodies;
      LastIsRetained(WriteAll(bodies, maxSize));
    } else {
      RetainedEntry(bodies[..n - 1], maxSize, k);
      assert bodies[..n - 1][..k] == bodies[..k];
      WriteKeepsRetained(WriteAll(bodies[..n - 1], maxSize), bodies[n - 1], maxSize, n - 1, k,
                         WriteAll(bodies[..k], maxSize).headHash);
    }
  }

  /**
   * After every write the log verifies, and it verifies against an earlier head exactly when that head has a
   * sequence number of at least 1 and the entry it names is still retained. The head of an empty log is
   * therefore never accepted as an anchor.
   */
  lemma EarlierHeadsVerify(bodies: seq<Body>, maxSize: Option<nat>, k: nat)
    requires k <= |bodies|
    ensures var log := WriteAll(bodies, maxSize);
            && VerifyEntries(log.entries, None) == Valid
            && (VerifyEntries(log.entries, Some(HeadOf(WriteAll(bodies[..k], maxSize)))) == Valid <==>
                  k >= 1 && k > |bodies| - |log.entries|)
  {
    hide WriteAll, SortedBySeq, CheckUpTo, FirstAt;
    var log, s := WriteAll(bodies, maxSize), WriteAll(bodies, maxSize).entries;
    EveryLogIsLinked(bodies, maxSize);
    EveryLogIsLinked(bodies[..k], maxSize);
    LinkedIsSorted(s);
    LinkedIsValid(s, |s|);
    var gone := |bodies| - |s|;
    if |s| > 0 { assert LinkedAt(s, |s| - 1); }
    if k >= 1 && k > gone {
      RetainedEntry(bodies, maxSize, k);
      FirstAtLinked(s, k - 1 - gone);
    } else {
      forall i | 0 <= i < |s| ensures s[i].seqNo != k { assert LinkedAt(s, i); }
      FirstAtNone(s, k);
    }
  }

  class MemoryAuditLog {
    const maxSize: Option<nat>
    var entries: seq<Entry>
    var seqCounter: nat
    var headHash: Hash
    var totalWritten: nat

    ghost function View(): Log
      reads this
    {
      Log(entries, seqCounter, headHash)
    }

    constructor (maxSize: Option<nat>)
      ensures View() == EmptyLog && totalWritten == 0 && this.maxSize == maxSize
    {
      this.maxSize := maxSize;
      entries, seqCounter, headHash, totalWritten := [], 0, Genesis, 0;
    }

    method WriteEntry(body: Body)
      modifies this
      ensures View() == Write(old(View()), body, maxSize)
      ensures totalWritten == old(totalWritten) + 1
    {
      seqCounter := seqCounter + 1;
      var full := Entry(seqCounter, headHash, Chain(seqCounter, headHash, body), body);
      entries := entries + [full];
      headHash := full.chain;
      totalWritten := totalWritten + 1;
      if maxSize.Some? && |entries| > maxSize.value { entries := entries[1..]; }
    }
  }

  // ---- The PostgreSQL log: optimistic appenders under UNIQUE(seq) ----

  /** An appender that has read the head and not yet inserted. */
  datatype Pending = Pending(seqNo: int, prev: Hash)

  datatype Table = Table(rows: seq<Entry>, pending: map<nat, Pending>)

  datatype Step = ReadHead(writer: nat) | Insert(writer: nat, body: Body) | GiveUp(writer: nat)

  function HeadRow(rows: seq<Entry>): Pending {
    if |rows| == 0 then Pending(1, Genesis) else Pending(rows[|rows| - 1].seqNo + 1, rows[|rows| - 1].chain)
  }

  predicate Taken(rows: seq<Entry>, seqNo: int) {
    exists i :: 0 <= i < |rows| && rows[i].seqNo == seqNo
  }

  /** id is the primary key of bpc_audit. */
  predicate StoredId(rows: seq<Entry>, id: string) {
    exists i :: 0 <= i < |rows| && rows[i].body.id == id
  }

  function EntryAfter(p: Pending, body: Body): Entry {
    Entry(p.seqNo, p.prev, Chain(p.seqNo, p.prev, body), body)
  }

  /** A unique violation inserts nothing; the appender reads the head again. */
  function Next(t: Table, step: Step): Table {
    match step
    case ReadHead(w) => t.(pending := t.pending[w := HeadRow(t.rows)])
    case Insert(w, body) =>
      if w !in t.pending then t
      else if Taken(t.rows, t.pending[w].seqNo) || StoredId(t.rows, body.id) then t.(pending := t.pending - {w})
      else t.(rows := t.rows + [EntryAfter(t.pending[w], body)], pending := t.pending - {w})
    case GiveUp(w) => t.(pending := t.pending - {w})
  }

  function Run(t: Table, steps: seq<Step>): Table {
    if |steps| == 0 then t else Next(Run(t, steps[..|steps| - 1]), steps[|steps| - 1])
  }

  ghost predicate RowsOk(rows: seq<Entry>) {
    Linked(rows) && (|rows| > 0 ==> rows[0].seqNo == 1 && rows[0].prev == Genesis)
  }

  /** What a pending appender read was the head when the chain was no longer than it is now. */
  ghost predicate PendingOk(rows: seq<Entry>, p: Pending) {
    && 1 <= p.seqNo <= |rows| + 1
    && p.prev == (if p.seqNo == 1 then Genesis else rows[p.seqNo - 2].chain)
  }

  ghost predicate TableOk(t: Table) {
    RowsOk(t.rows) && forall w :: w in t.pending ==> PendingOk(t.rows, t.pending[w])
  }

  lemma TakenBelow(rows: seq<Entry>, seqNo: int)
    requires RowsOk(rows) && 1 <= seqNo <= |rows|
    ensures Taken(rows, seqNo)
  {
    assert LinkedAt(rows, seqNo - 1);
  }

  lemma NextKeeps(t: Table, step: Step)
    requires TableOk(t)
    ensures TableOk(Next(t, step))
    ensures t.rows <= Next(t, step).rows
  {
    var n := |t.rows|;
    if n > 0 { assert LinkedAt(t.rows, n - 1); }
    if step.Insert? && step.writer in t.pending && !Taken(t.rows, t.pending[step.writer].seqNo) {
      var p := t.pending[step.writer];
      if p.seqNo <= n { TakenBelow(t.rows, p.seqNo); }
      LinkedSnoc(t.rows, EntryAfter(p, step.body));
    }
  }

  /**
   * Any interleaving of optimistic appenders keeps one contiguous chain linked from genesis, which verifies;
   * rows that were there stay as they were.
   */
  lemma {:induction false} AppendersKeepOneChain(steps: seq<Step>)
    ensures TableOk(Run(Table([], map[]), steps))
    ensures VerifyEntries(Run(Table([], map[]), steps).rows, None) == Valid
  {
    if |steps| > 0 {
      AppendersKeepOneChain(steps[..|steps| - 1]);
      NextKeeps(Run(Table([], map[]), steps[..|steps| - 1]), steps[|steps| - 1]);
    }
    var rows := Run(Table([], map[]), steps).rows;
    LinkedIsSorted(rows);
    LinkedIsValid(rows, |rows|);
  }

  function Bodies(rows: seq<Entry>): (bodies: seq<Body>)
    ensures |bodies| == |rows| && forall i :: 0 <= i < |rows| ==> bodies[i] == rows[i].body
  {
    if |rows| == 0 then [] else Bodies(rows[..|rows| - 1]) + [rows[|rows| - 1].body]
  }

  predicate HasId(bodies: seq<Body>, id: string) {
    exists i :: 0 <= i < |bodies| && bodies[i].id == id
  }

  /** Of complete appends made one after the other, those whose id is not stored yet. */
  function Landing(have: seq<Body>, bodies: seq<Body>): seq<Body> {
    if |bodies| == 0 then []
    else
      var front, last := Landing(have, bodies[..|bodies| - 1]), bodies[|bodies| - 1];
      if HasId(have + front, last.id) then front else front + [last]
  }

  function Rivals(rivals: seq<seq<Body>>, attempt: nat): seq<Body> {
    if attempt < |rivals| then rivals[attempt] else []
  }

  /** What others have appended by the end of the first `n` attempts. */
  function Landed(have: seq<Body>, rivals: seq<seq<Body>>, n: nat): seq<Body> {
    if n == 0 then []
    else
      var before := Landed(have, rivals, n - 1);
      before + Landing(have + before, Rivals(rivals, n - 1))
  }

  /** An attempt inserts when nobody else appends during it and its id is not stored. */
  predicate Inserts(have: seq<Body>, id: string, rivals: seq<seq<Body>>, attempt: nat) {
    var now := have + Landed(have, rivals, attempt);
    Landing(now, Rivals(rivals, attempt)) == [] && !HasId(now, id)
  }

  lemma BodiesSnoc(rows: seq<Entry>, e: Entry)
    ensures Bodies(rows + [e]) == Bodies(rows) + [e.body]
  {
    assert (rows + [e])[..|rows|] == rows;
  }

  lemma IdStored(rows: seq<Entry>, id: string)
    ensures HasId(Bodies(rows), id) <==> StoredId(rows, id)
  {
    if i :| 0 <= i < |rows| && rows[i].body.id == id { assert Bodies(rows)[i].id == id; }
  }

  lemma OneMoreAttempt(have: seq<Body>, rivals: seq<seq<Body>>, n: nat)
    ensures have + Landed(have, rivals, n + 1) ==
            (have + Landed(have, rivals, n)) + Landing(have + Landed(have, rivals, n), Rivals(rivals, n))
  {
    hide Landing;
  }

  lemma LandingStep(have: seq<Body>, bodies: seq<Body>, i: nat)
    requires i < |bodies|
    ensures Landing(have, bodies[..i + 1]) ==
            if HasId(have + Landing(have, bodies[..i]), bodies[i].id) then Landing(have, bodies[..i])
            else Landing(have, bodies[..i]) + [bodies[i]]
  {
    assert bodies[..i + 1][..i] == bodies[..i];
  }

  /** One append at the head of the chain. */
  lemma AppendAtHead(rows: seq<Entry>, body: Body)
    requires RowsOk(rows)
    ensures RowsOk(rows + [EntryAfter(HeadRow(rows), body)]) && !Taken(rows, HeadRow(rows).seqNo)
    ensures Bodies(rows + [EntryAfter(HeadRow(rows), body)]) == Bodies(rows) + [body]
  {
    LinkedSnoc(rows, EntryAfter(HeadRow(rows), body));
    BodiesSnoc(rows, EntryAfter(HeadRow(rows), body));
    if |rows| > 0 { assert LinkedAt(rows, |rows| - 1); }
    forall i | 0 <= i < |rows| ensures rows[i].seqNo != HeadRow(rows).seqNo { assert LinkedAt(rows, i); }
  }

  lemma HeadInRange(rows: seq<Entry>)
    requires RowsOk(rows)
    ensures HeadRow(rows).seqNo == |rows| + 1
  {
    if |rows| > 0 { assert LinkedAt(rows, |rows| - 1); }
  }

  class PgAuditLog {
    var rows: seq<Entry>
    const maxRetries: nat

    constructor (maxRetries: nat)
      ensures rows == [] && this.maxRetries == maxRetries
    {
      rows := [];
      this.maxRetries := maxRetries;
    }

    /**
     * write, with the bodies other appenders insert between its SELECT and INSERT of each attempt. It makes
     * attempts up to the first that inserts: undisturbed, and with an id that is not stored.
     */
    method WriteEntry(body: Body, rivals: seq<seq<Body>>) returns (ok: bool, ghost attempts: nat)
      requires RowsOk(rows)
      modifies this
      ensures RowsOk(rows) && old(rows) <= rows && attempts <= maxRetries
      ensures var have := Bodies(old(rows));
              && Bodies(rows) == have + Landed(have, rivals, attempts) + (if ok then [body] else [])
              && (forall k :: 0 <= k < attempts ==> !Inserts(have, body.id, rivals, k))
              && (if ok then attempts < maxRetries && Inserts(have, body.id, rivals, attempts) else attempts == maxRetries)
    {
      hide Bodies, RowsOk, Taken, Landed, Landing, HasId, StoredId;
      ghost var have := Bodies(rows);
      attempts := 0;
      NothingLanded(have, rivals);
      for attempt := 0 to maxRetries
        invariant RowsOk(rows) && old(rows) <= rows && attempts == attempt
        invariant forall k :: 0 <= k < attempt ==> !Inserts(have, body.id, rivals, k)
        invariant Bodies(rows) == have + Landed(have, rivals, attempt)
      {
        ghost var before := rows;
        var read := HeadRow(rows);
        HeadInRange(rows);
        Others(if attempt < |rivals| then rivals[attempt] else []);
        OneMoreAttempt(have, rivals, attempt);
        IdStored(rows, body.id);
        if |rows| > |before| { TakenBelow(rows, read.seqNo); } else { AppendAtHead(rows, body); }
        if !Taken(rows, read.seqNo) && !StoredId(rows, body.id) {
          assert rows == before && Inserts(have, body.id, rivals, attempt);
          rows := rows + [EntryAfter(read, body)];
          return true, attempt;
        }
        ghost var landed := Landing(have + Landed(have, rivals, attempt), Rivals(rivals, attempt));
        assert !Inserts(have, body.id, rivals, attempt) by {
          if landed == [] { assert rows == before && Bodies(rows) == have + Landed(have, rivals, attempt) && HasId(Bodies(rows), body.id); }
        }
        attempts := attempts + 1;
      }
      return false, maxRetries;
    }

    /** Complete appends by other processes; one whose id is stored fails. */
    method Others(bodies: seq<Body>)
      requires RowsOk(rows)
      modifies this
      ensures RowsOk(rows) && old(rows) <= rows
      ensures |rows| == |old(rows)| + |Landing(Bodies(old(rows)), bodies)|
      ensures Bodies(rows) == Bodies(old(rows)) + Landing(Bodies(old(rows)), bodies)
    {
      hide Bodies, RowsOk, HasId, Landing, StoredId;
      ghost var have := Bodies(rows);
      NoLanding(have);
      for i := 0 to |bodies|
        invariant RowsOk(rows) && old(rows) <= rows && |rows| == |old(rows)| + |Landing(have, bodies[..i])|
        invariant Bodies(rows) == have + Landing(have, bodies[..i])
      {
        LandingStep(have, bodies, i);
        IdStored(rows, bodies[i].id);
        if !StoredId(rows, bodies[i].id) {
          AppendAtHead(rows, bodies[i]);
          rows := rows + [EntryAfter(HeadRow(rows), bodies[i])];
        }
      }
      assert bodies[..|bodies|] == bodies;
    }
  }

  lemma NoLanding(have: seq<Body>)
    ensures Landing(have, []) == []
  {
  }

  lemma NothingLanded(have: seq<Body>, rivals: seq<seq<Body>>)
    ensures Landed(have, rivals, 0) == []
  {
  }
}
