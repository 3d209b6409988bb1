/**
 * What the audit logs keep and answer beyond the links of their chains: how many entries are retained, which fault a
 * verification names, when an append goes in, and that no id is stored twice.
 */
module AuditLaws {
  import opened Wrappers
  import opened AuditChain

  function Min(a: nat, b: nat): nat {
    if a <= b then a else b
  }

  /** A bounded log retains as many of the last entries as its bound, an unbounded one all of them. */
  lemma {:induction false} RetainsExactly(bodies: seq<Body>, maxSize: Option<nat>)
    ensures var log := WriteAll(bodies, maxSize);
            && |log.entries| == (match maxSize case None => |bodies| case Some(n) => Min(|bodies|, n))
            && (forall i :: 0 <= i < |log.entries| ==> log.entries[i].body == bodies[|bodies| - |log.entries| + i])
  {
    if |bodies| > 0 {
      var front := bodies[..|bodies| - 1];
      RetainsExactly(front, maxSize);
      var before, after := WriteAll(front, maxSize), WriteAll(bodies, maxSize);
      forall i | 0 <= i < |after.entries| ensures after.entries[i].body == bodies[|bodies| - |after.entries| + i] {
        RetainedBody(before, bodies[|bodies| - 1], maxSize, i);
      }
    }
  }

  lemma RetainedBody(log: Log, body: Body, maxSize: Option<nat>, i: nat)
    requires i < |Write(log, body, maxSize).entries|
    ensures var after := Write(log, body, maxSize).entries;
            var j := i + |log.entries| + 1 - |after|;
            0 <= j <= |log.entries| && after[i].body == if j < |log.entries| then log.entries[j].body else body
  {
  }

  // ---- Verdicts ----

  /** What is wrong at a place: the first of hash, number and link that does not hold there. */
  function FaultAt(s: seq<Entry>, i: nat): Option<Reason>
    requires i < |s|
  {
    if s[i].chain != Chain(s[i].seqNo, s[i].prev, s[i].body) then Some(HashMismatch)
    else if i > 0 && s[i].seqNo != s[i - 1].seqNo + 1 then Some(NonContiguous)
    else if i > 0 && s[i].prev != s[i - 1].chain then Some(BrokenLink)
    else None
  }

  /** The first place where something is wrong decides, and only then. */
  lemma {:induction false} ChainVerdict(s: seq<Entry>, n: nat)
    requires n <= |s|
    ensures CheckUpTo(s, n) == Valid <==> forall i :: 0 <= i < n ==> FaultAt(s, i) == None
    ensures forall i :: 0 <= i < n && FaultAt(s, i).Some? && (forall j :: 0 <= j < i ==> FaultAt(s, j) == None) ==>
              CheckUpTo(s, n) == Invalid(s[i].seqNo, FaultAt(s, i).value)
  {
    if n > 0 {
      ChainVerdict(s, n - 1);
      assert (forall i :: 0 <= i < n ==> FaultAt(s, i) == None) <==>
             (forall i :: 0 <= i < n - 1 ==> FaultAt(s, i) == None) && FaultAt(s, n - 1) == None;
    }
  }

  /**
   * Against an anchor a sound list is refused as truncated exactly when it ends below the anchor, and as mismatched
   * exactly when it reaches that far without holding the anchor's entry.
   */
  lemma AnchorVerdict(entries: seq<Entry>, anchor: Head)
    requires Linked(SortedBySeq(entries))
    ensures var s, v := SortedBySeq(entries), VerifyEntries(entries, Some(anchor));
            && (v == Invalid(anchor.seqNo, TruncatedBelowAnchor) <==> |s| == 0 || s[|s| - 1].seqNo < anchor.seqNo)
            && (v == Valid <==> exists i :: 0 <= i < |s| && s[i].seqNo == anchor.seqNo && s[i].chain == anchor.chain)
            && (v == Valid || v == Invalid(anchor.seqNo, TruncatedBelowAnchor) || v == Invalid(anchor.seqNo, AnchorMismatch))
  {
    var s := SortedBySeq(entries);
    hide SortedBySeq;
    LinkedIsValid(s, |s|);
    forall i | 0 <= i < |s| ensures s[i].seqNo == s[0].seqNo + i && FirstAt(s, s[i].seqNo) == Some(s[i]) {
      assert LinkedAt(s, i);
      FirstAtLinked(s, i);
    }
    if FirstAt(s, anchor.seqNo).Some? { var i := FirstAtMeans(s, anchor.seqNo); }
    hide FirstAt, CheckUpTo, Linked;
  }

  // ---- The table ----

  ghost predicate DistinctIds(rows: seq<Entry>) {
    forall i, j :: 0 <= i < j < |rows| ==> rows[i].body.id != rows[j].body.id
  }

  /** No interleaving of appenders stores an id twice. */
  lemma {:induction false} IdsStayDistinct(steps: seq<Step>)
    ensures DistinctIds(Run(Table([], map[]), steps).rows)
  {
    hide Taken, HeadRow;
    if |steps| > 0 {
      IdsStayDistinct(steps[..|steps| - 1]);
      var t, step := Run(Table([], map[]), steps[..|steps| - 1]), steps[|steps| - 1];
      if step.Insert? && !StoredId(t.rows, step.body.id) {
        forall i | 0 <= i < |t.rows| ensures t.rows[i].body.id != step.body.id {}
      }
    }
  }

  /** An appender that inserts right after it read the head, under an id that is not stored, adds its entry at the end. */
  lemma UndisturbedAppends(t: Table, w: nat, body: Body)
    requires RowsOk(t.rows)
    ensures var after := Next(Next(t, ReadHead(w)), Insert(w, body)).rows;
            && (|after| > |t.rows| <==> forall i :: 0 <= i < |t.rows| ==> t.rows[i].body.id != body.id)
            && (|after| > |t.rows| ==> Bodies(after) == Bodies(t.rows) + [body])
  {
    AppendAtHead(t.rows, body);
    hide RowsOk, Bodies, Taken;
  }

  /** During an attempt nothing of the rivals lands exactly when all their ids are stored already. */
  lemma {:induction false} NothingLandsExactly(have: seq<Body>, bodies: seq<Body>)
    ensures Landing(have, bodies) == [] <==> forall k :: 0 <= k < |bodies| ==> HasId(have, bodies[k].id)
  {
    if |bodies| > 0 {
      NothingLandsExactly(have, bodies[..|bodies| - 1]);
      assert have + [] == have;
    }
    hide HasId;
  }

  /** The first attempt of a write inserts exactly when every id rivals bring is stored already, and its own is not. */
  lemma FirstAttemptInserts(have: seq<Body>, id: string, rivals: seq<seq<Body>>)
    ensures Inserts(have, id, rivals, 0) <==>
              && (|rivals| > 0 ==> forall k :: 0 <= k < |rivals[0]| ==> HasId(have, rivals[0][k].id))
              && !HasId(have, id)
  {
    assert have + [] == have;
    NothingLandsExactly(have, Rivals(rivals, 0));
    hide HasId, Landing;
  }

  // ---- The sort ----

  predicate InSeqOrder(s: seq<Entry>) {
    forall i, j :: 0 <= i < j < |s| ==> s[i].seqNo <= s[j].seqNo
  }

  /** The entries with one sequence number, in the order they stand. */
  function Numbered(s: seq<Entry>, n: int): seq<Entry> {
    if |s| == 0 then [] else Numbered(s[..|s| - 1], n) + (if s[|s| - 1].seqNo == n then [s[|s| - 1]] else [])
  }

  lemma {:induction false} InsertsInOrder(s: seq<Entry>, e: Entry)
    requires InSeqOrder(s)
    ensures InSeqOrder(InsertBySeq(s, e))
    ensures forall k :: 0 <= k < |s| + 1 ==> InsertBySeq(s, e)[k] == e || InsertBySeq(s, e)[k] in s
  {
    if |s| > 0 && s[|s| - 1].seqNo > e.seqNo {
      var front, last := s[..|s| - 1], s[|s| - 1];
      InsertsInOrder(front, e);
      var t := InsertBySeq(front, e);
      forall k | 0 <= k < |t| ensures t[k].seqNo <= last.seqNo {
        if t[k] != e { var j :| 0 <= j < |front| && front[j] == t[k]; assert s[j] == t[k]; }
      }
    }
  }

  lemma NumberedSnoc(s: seq<Entry>, e: Entry, n: int)
    ensures Numbered(s + [e], n) == Numbered(s, n) + IfNumbered(e, n)
  {
    assert (s + [e])[..|s|] == s;
  }

  function IfNumbered(e: Entry, n: int): seq<Entry> {
    if e.seqNo == n then [e] else []
  }

  lemma {:induction false} InsertsStably(s: seq<Entry>, e: Entry, n: int)
    ensures Numbered(InsertBySeq(s, e), n) == Numbered(s, n) + IfNumbered(e, n)
  {
    NumberedSnoc(s, e, n);
    if |s| > 0 && s[|s| - 1].seqNo > e.seqNo {
      var front, last := s[..|s| - 1], s[|s| - 1];
      var t := InsertBySeq(front, e);
      assert InsertBySeq(s, e) == t + [last] && s == front + [last];
      hide Numbered, InsertBySeq;
      InsertsStably(front, e, n);
      NumberedSnoc(t, last, n);
      NumberedSnoc(front, last, n);
      assert Numbered(front, n) + IfNumbered(e, n) + IfNumbered(last, n) == Numbered(front, n) + IfNumbered(last, n) + IfNumbered(e, n);
    } else {
      assert InsertBySeq(s, e) == s + [e];
    }
  }

  /** The sort is by sequence number, keeps every entry, and leaves entries of one number in their order. */
  lemma {:induction false} SortsBySeq(entries: seq<Entry>)
    ensures InSeqOrder(SortedBySeq(entries))
    ensures forall n :: Numbered(SortedBySeq(entries), n) == Numbered(entries, n)
  {
    if |entries| > 0 {
      SortsBySeq(entries[..|entries| - 1]);
      var front := SortedBySeq(entries[..|entries| - 1]);
      InsertsInOrder(front, entries[|entries| - 1]);
      forall n ensures Numbered(InsertBySeq(front, entries[|entries| - 1]), n) == Numbered(entries, n) {
        InsertsStably(front, entries[|entries| - 1], n);
      }
    }
    hide InsertBySeq, InSeqOrder;
  }
}
