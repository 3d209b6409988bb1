/**
 * The canonical text of an outbox history, as buildPairSnapshotBundle and verifyBundle of
 * packages/server/src/bpc-ha-final.ts hash it: one array of record objects under the depth, node, string and
 * byte budgets of canonicalize.
 */
module HistoryText {
  import opened Wrappers
  import opened Utf16
  import opened Framing
  import opened CanonicalJson
  import opened CanonicalWalk
  import P = PairReplica
  import O = Outbox
  import D = OpDigest

  // ---- Text of the model's strings ----

  function CharUnits(c: char): (u: JsString)
    ensures |u| >= 1
  {
    if c as int < 0x10000 then [c as int] else PairOf(c as int)
  }

  /** The code units of a text. */
  function Js(text: string): JsString {
    if |text| == 0 then [] else CharUnits(text[0]) + Js(text[1..])
  }

  lemma CharFacts(c: char)
    ensures WellFormed(CharUnits(c)) && Units(CharUnits(c)) && |Utf8(CharUnits(c))| <= 4
  {
    var p := c as int;
    if p >= 0x10000 {
      var u := PairOf(p);
      assert High(u[0]) && Low(u[1]);
      assert u == [u[0], u[1]] && u[2..] == [];
    } else {
      assert CharUnits(c)[1..] == [];
    }
  }

  lemma {:induction false} JsFacts(text: string)
    ensures WellFormed(Js(text)) && Units(Js(text)) && |Utf8(Js(text))| <= 4 * |text|
  {
    hide CharUnits, WellFormed, Utf8;
    if |text| > 0 {
      JsFacts(text[1..]);
      CharFacts(text[0]);
      Adds(CharUnits(text[0]), Js(text[1..]));
    } else {
      AsciiText([]);
    }
  }

  // ---- The records as JSON ----

  datatype SealedText = SealedText(keyId: string, nonce: string, ciphertext: string, tag: string)

  /** How digests and, at their row, sealed payloads are written. */
  datatype Wire = Wire(digest: O.Digest -> string, sealed: (nat, P.Sealed) -> SealedText)

  function Str(text: string): Json {
    Text(Js(text))
  }

  /** The code units of one of the code's own names, all of them ASCII. */
  function Name(text: string): (s: JsString)
    ensures |s| == |text| && Ascii(s)
  {
    seq(|text|, i requires 0 <= i < |text| => if text[i] < 128 as char then text[i] as int else 0x3F)
  }

  function Own(key: string, value: Json, rest: Fields): Fields {
    Field(Name(key), value, rest)
  }

  function SealedJson(t: SealedText): Json {
    Object(Own("alg", Text(Name("A256GCM")), Own("keyId", Str(t.keyId), Own("nonce", Str(t.nonce),
           Own("ciphertext", Str(t.ciphertext), Own("tag", Str(t.tag), NoFields))))))
  }

  function MutationJson(w: Wire, n: nat, m: P.Mutation): Json {
    match m
    case PairSet(id, sealed) =>
      Object(Own("kind", Text(Name("bpc.pair.set.v1")), Own("pairId", Str(id),
             Own("sealed", SealedJson(w.sealed(n, sealed)), NoFields))))
    case PairDelete(id) =>
      Object(Own("kind", Text(Name("bpc.pair.delete.v1")), Own("pairId", Str(id), NoFields)))
    case PendingSet(token, at, sealed) =>
      Object(Own("kind", Text(Name("bpc.pending.set.v1")), Own("token", Str(token), Own("requestedAt", Number(at),
             Own("sealed", SealedJson(w.sealed(n, sealed)), NoFields)))))
    case PendingDelete(token) =>
      Object(Own("kind", Text(Name("bpc.pending.delete.v1")), Own("token", Str(token), NoFields)))
    case PairApprove(token, at, expected, id, sealed) =>
      Object(Own("kind", Text(Name("bpc.pair.approve.v1")), Own("token", Str(token), Own("requestedAt", Number(at),
             Own("expectedPending", SealedJson(w.sealed(n, expected)), Own("pairId", Str(id),
             Own("sealed", SealedJson(w.sealed(n, sealed)), NoFields)))))))
    case PairRotate(oldId, expected, newId, sealed) =>
      Object(Own("kind", Text(Name("bpc.pair.rotate.v1")), Own("oldPairId", Str(oldId),
             Own("expectedOld", SealedJson(w.sealed(n, expected)), Own("newPairId", Str(newId),
             Own("sealed", SealedJson(w.sealed(n, sealed)), NoFields))))))
  }

  function RecordJson(w: Wire, r: O.Record): Json {
    Object(Own("contractVersion", Text(Name("1")), Own("streamId", Str(r.stream), Own("sourceEpoch", Str(r.epoch),
           Own("sequence", Number(r.sequence), Own("fenceToken", Text(Decimal(r.fence)),
           Own("opDigest", Str(w.digest(r.digest)), Own("mutation", MutationJson(w, r.sequence, r.mutation), NoFields))))))))
  }

  function ItemsOf(w: Wire, records: seq<O.Record>): Items {
    if |records| == 0 then NoItems else Item(RecordJson(w, records[0]), ItemsOf(w, records[1..]))
  }

  function HistoryJson(w: Wire, records: seq<O.Record>): Json {
    Array(ItemsOf(w, records))
  }

  // ---- The budget, row by row ----

  /** The nodes of a row: its own object, six header fields, the mutation object and its members. */
  function RowNodes(m: P.Mutation): (n: nat)
    ensures n >= 10
  {
    match m
    case PairDelete(_) => 10
    case PendingDelete(_) => 10
    case PairSet(_, _) => 16
    case PendingSet(_, _, _) => 17
    case PairRotate(_, _, _, _) => 23
    case PairApprove(_, _, _, _, _) => 24
  }

  function RowBytes(w: Wire, r: O.Record): nat {
    |Utf8(CanonicalText(RecordJson(w, r)))|
  }

  function NodeSum(records: seq<O.Record>): nat {
    if |records| == 0 then 0 else RowNodes(records[0].mutation) + NodeSum(records[1..])
  }

  function ByteSum(w: Wire, records: seq<O.Record>): nat {
    if |records| == 0 then 0 else RowBytes(w, records[0]) + ByteSum(w, records[1..])
  }

  /** Rows, commas between them and the two brackets. */
  function TextBytes(w: Wire, records: seq<O.Record>): nat {
    2 + ByteSum(w, records) + (if |records| == 0 then 0 else |records| - 1)
  }

  predicate WithinSums(w: Wire, records: seq<O.Record>) {
    1 + NodeSum(records) <= MAX_NODES && TextBytes(w, records) <= MAX_TOTAL_BYTES
  }

  predicate RowsAcceptable(w: Wire, records: seq<O.Record>) {
    forall i :: 0 <= i < |records| ==> Acceptable(RecordJson(w, records[i]), 1)
  }

  /** Each row can be written, and the sums over the rows stay within the budget. */
  predicate Fits(w: Wire, records: seq<O.Record>) {
    RowsAcceptable(w, records) && WithinSums(w, records)
  }

  // ---- One row, written member by member ----

  /** The bounds of normalizeSealed; the walk takes no ciphertext past the longest string it writes. */
  predicate SealedTextOk(t: SealedText) {
    |t.keyId| <= 128 && |t.nonce| <= 32 && |t.tag| <= 32
    && |t.ciphertext| <= MAX_STRING_BYTES && forall i :: 0 <= i < |t.ciphertext| ==> P.B64Url(t.ciphertext[i])
  }

  predicate MutationTextOk(w: Wire, n: nat, m: P.Mutation) {
    P.Sanitized(m) &&
    match m
    case PairSet(_, s) => SealedTextOk(w.sealed(n, s))
    case PendingSet(_, _, s) => SealedTextOk(w.sealed(n, s))
    case PairApprove(_, _, e, _, s) => SealedTextOk(w.sealed(n, e)) && SealedTextOk(w.sealed(n, s))
    case PairRotate(_, e, _, s) => SealedTextOk(w.sealed(n, e)) && SealedTextOk(w.sealed(n, s))
    case _ => true
  }

  predicate PayloadConforms(w: Wire, r: O.Record) {
    |w.digest(r.digest)| == 64 && MutationTextOk(w, r.sequence, r.mutation)
  }

  /** The bounds that assertHeaderConformant, the normalisers and the walk put on a row. */
  predicate RowConforms(w: Wire, r: O.Record) {
    O.HeaderOk(r.stream, r.epoch, r.sequence, r.fence) && PayloadConforms(w, r)
  }

  /** A value with `n` nodes, which can be written at this depth when `ok`. */
  ghost predicate Written(v: Json, n: nat, depth: nat, ok: bool) {
    UnitsIn(v) && Nodes(v) == n && (ok ==> Acceptable(v, depth))
  }

  ghost predicate MembersWritten(fields: Fields, n: nat, depth: nat, ok: bool) {
    UnitsInFields(fields) && FieldNodes(fields) == n && (ok ==> AcceptableFields(fields, depth))
  }

  lemma NoMembers(depth: nat, ok: bool)
    ensures MembersWritten(NoFields, 0, depth, ok)
  {
  }

  lemma WrittenText(text: string, depth: nat, ok: bool)
    requires depth <= MAX_DEPTH && (ok ==> |text| <= 16384)
    ensures Written(Str(text), 1, depth, ok)
  {
    hide WellFormed, Utf8, Js;
    JsFacts(text);
  }

  lemma WrittenNumber(n: nat, depth: nat, ok: bool)
    requires depth <= MAX_DEPTH && (ok ==> n <= MAX_SAFE)
    ensures Written(Number(n), 1, depth, ok)
  {
  }

  lemma WrittenDecimal(n: nat, depth: nat, ok: bool)
    requires depth <= MAX_DEPTH && (ok ==> n <= O.MAX_FENCE)
    ensures Written(Text(Decimal(n)), 1, depth, ok)
  {
    hide WellFormed, Utf8, Decimal;
    if ok { D.FenceDigits(n); }
    AsciiText(Decimal(n));
  }

  /** A text of base64url characters has one byte for each. */
  lemma {:induction false} B64Bytes(text: string)
    requires forall i :: 0 <= i < |text| ==> P.B64Url(text[i])
    ensures Ascii(Js(text)) && |Js(text)| == |text|
  {
    if |text| > 0 {
      B64Bytes(text[1..]);
      assert Js(text) == [text[0] as int] + Js(text[1..]);
    }
  }

  lemma CiphertextMember(key: string, text: string, rest: Fields, k: nat, depth: nat, ok: bool) returns (fields: Fields)
    requires 1 <= |key| <= 32 && 'a' <= key[0] <= 'z' && depth <= MAX_DEPTH && MembersWritten(rest, k, depth, ok)
    requires ok ==> |text| <= MAX_STRING_BYTES && forall i :: 0 <= i < |text| ==> P.B64Url(text[i])
    ensures fields == Own(key, Str(text), rest) && MembersWritten(fields, k + 1, depth, ok)
  {
    hide WellFormed, Utf8, Js, MembersWritten, Own, P.B64Url;
    JsFacts(text);
    if ok {
      B64Bytes(text);
      AsciiText(Js(text));
    }
    assert Written(Str(text), 1, depth, ok);
    fields := Member(key, Str(text), 1, rest, k, depth, ok);
  }

  lemma WrittenObject(fields: Fields, n: nat, depth: nat, ok: bool)
    requires depth <= MAX_DEPTH && MembersWritten(fields, n, depth + 1, ok)
    ensures Written(Object(fields), n + 1, depth, ok)
  {
    hide FieldNodes, UnitsInFields, AcceptableFields;
  }

  lemma KeyFits(key: string)
    requires 1 <= |key| <= 32 && 'a' <= key[0] <= 'z'
    ensures Name(key) != PROTO && StringOk(Name(key)) && Units(Name(key))
  {
    hide WellFormed, Utf8;
    AsciiText(Name(key));
    assert Name(key)[0] == key[0] as int;
  }

  lemma Member(key: string, value: Json, n: nat, rest: Fields, k: nat, depth: nat, ok: bool) returns (fields: Fields)
    requires 1 <= |key| <= 32 && 'a' <= key[0] <= 'z'
    requires Written(value, n, depth, ok) && MembersWritten(rest, k, depth, ok)
    ensures fields == Own(key, value, rest) && MembersWritten(fields, n + k, depth, ok)
  {
    hide Name, StringOk, Acceptable, Units, UnitsIn, Nodes;
    KeyFits(key);
    fields := Own(key, value, rest);
  }

  lemma TextMember(key: string, text: string, rest: Fields, k: nat, depth: nat, ok: bool) returns (fields: Fields)
    requires 1 <= |key| <= 32 && 'a' <= key[0] <= 'z' && depth <= MAX_DEPTH
    requires (ok ==> |text| <= 16384) && MembersWritten(rest, k, depth, ok)
    ensures fields == Own(key, Str(text), rest) && MembersWritten(fields, k + 1, depth, ok)
  {
    hide Written, MembersWritten, Own, Str;
    WrittenText(text, depth, ok);
    fields := Member(key, Str(text), 1, rest, k, depth, ok);
  }

  lemma NameMember(key: string, text: string, rest: Fields, k: nat, depth: nat, ok: bool) returns (fields: Fields)
    requires 1 <= |key| <= 32 && 'a' <= key[0] <= 'z' && depth <= MAX_DEPTH
    requires |text| <= 32 && MembersWritten(rest, k, depth, ok)
    ensures fields == Own(key, Text(Name(text)), rest) && MembersWritten(fields, k + 1, depth, ok)
  {
    hide MembersWritten, Own, Name;
    WrittenName(text, depth, ok);
    fields := Member(key, Text(Name(text)), 1, rest, k, depth, ok);
  }

  lemma WrittenName(text: string, depth: nat, ok: bool)
    requires depth <= MAX_DEPTH && |text| <= 32
    ensures Written(Text(Name(text)), 1, depth, ok)
  {
    hide WellFormed, Utf8;
    AsciiText(Name(text));
  }

  lemma SealedMember(key: string, t: SealedText, rest: Fields, k: nat, ok: bool) returns (fields: Fields)
    requires 1 <= |key| <= 32 && 'a' <= key[0] <= 'z'
    requires (ok ==> SealedTextOk(t)) && MembersWritten(rest, k, 3, ok)
    ensures fields == Own(key, SealedJson(t), rest) && MembersWritten(fields, k + 6, 3, ok)
  {
    hide Written, MembersWritten, Own, Str, Name;
    NoMembers(4, ok);
    var tag := TextMember("tag", t.tag, NoFields, 0, 4, ok);
    var ciphertext := CiphertextMember("ciphertext", t.ciphertext, tag, 1, 4, ok);
    var nonce := TextMember("nonce", t.nonce, ciphertext, 2, 4, ok);
    var keyId := TextMember("keyId", t.keyId, nonce, 3, 4, ok);
    var alg := NameMember("alg", "A256GCM", keyId, 4, 4, ok);
    WrittenObject(alg, 5, 3, ok);
    fields := Member(key, Object(alg), 6, rest, k, 3, ok);
  }

  lemma WrittenMutation(w: Wire, n: nat, m: P.Mutation)
    ensures Written(MutationJson(w, n, m), RowNodes(m) - 7, 2, MutationTextOk(w, n, m))
  {
    hide Written, MembersWritten, Own, Str, Name, SealedJson, SealedTextOk;
    var ok := MutationTextOk(w, n, m);
    NoMembers(3, ok);
    match m
    case PairSet(id, sealed) =>
      var last := SealedMember("sealed", w.sealed(n, sealed), NoFields, 0, ok);
      var pairId := TextMember("pairId", id, last, 6, 3, ok);
      var kind := NameMember("kind", "bpc.pair.set.v1", pairId, 7, 3, ok);
      WrittenObject(kind, 8, 2, ok);
    case PairDelete(id) =>
      var pairId := TextMember("pairId", id, NoFields, 0, 3, ok);
      var kind := NameMember("kind", "bpc.pair.delete.v1", pairId, 1, 3, ok);
      WrittenObject(kind, 2, 2, ok);
    case PendingSet(token, at, sealed) =>
      var last := SealedMember("sealed", w.sealed(n, sealed), NoFields, 0, ok);
      WrittenNumber(at, 3, ok);
      var requestedAt := Member("requestedAt", Number(at), 1, last, 6, 3, ok);
      var name := TextMember("token", token, requestedAt, 7, 3, ok);
      var kind := NameMember("kind", "bpc.pending.set.v1", name, 8, 3, ok);
      WrittenObject(kind, 9, 2, ok);
    case PendingDelete(token) =>
      var name := TextMember("token", token, NoFields, 0, 3, ok);
      var kind := NameMember("kind", "bpc.pending.delete.v1", name, 1, 3, ok);
      WrittenObject(kind, 2, 2, ok);
    case PairApprove(token, at, expected, id, sealed) =>
      var last := SealedMember("sealed", w.sealed(n, sealed), NoFields, 0, ok);
      var pairId := TextMember("pairId", id, last, 6, 3, ok);
      var pending := SealedMember("expectedPending", w.sealed(n, expected), pairId, 7, ok);
      WrittenNumber(at, 3, ok);
      var requestedAt := Member("requestedAt", Number(at), 1, pending, 13, 3, ok);
      var name := TextMember("token", token, requestedAt, 14, 3, ok);
      var kind := NameMember("kind", "bpc.pair.approve.v1", name, 15, 3, ok);
      WrittenObject(kind, 16, 2, ok);
    case PairRotate(oldId, expected, newId, sealed) =>
      var last := SealedMember("sealed", w.sealed(n, sealed), NoFields, 0, ok);
      var newPairId := TextMember("newPairId", newId, last, 6, 3, ok);
      var previous := SealedMember("expectedOld", w.sealed(n, expected), newPairId, 7, ok);
      var oldPairId := TextMember("oldPairId", oldId, previous, 13, 3, ok);
      var kind := NameMember("kind", "bpc.pair.rotate.v1", oldPairId, 14, 3, ok);
      WrittenObject(kind, 15, 2, ok);
  }

  /** A row has the nodes its kind says, and a row within the declared bounds can be written. */
  lemma WrittenRecord(w: Wire, r: O.Record)
    ensures Written(RecordJson(w, r), RowNodes(r.mutation), 1, RowConforms(w, r))
  {
    hide Written, MembersWritten, Own, Str, Name, MutationJson, MutationTextOk, RowNodes;
    var ok, n := RowConforms(w, r), RowNodes(r.mutation) - 7;
    WrittenMutation(w, r.sequence, r.mutation);
    Weaker(MutationJson(w, r.sequence, r.mutation), n, 2, MutationTextOk(w, r.sequence, r.mutation), ok);
    NoMembers(2, ok);
    var mutation := Member("mutation", MutationJson(w, r.sequence, r.mutation), n, NoFields, 0, 2, ok);
    var digest := TextMember("opDigest", w.digest(r.digest), mutation, n, 2, ok);
    WrittenDecimal(r.fence, 2, ok);
    var fence := Member("fenceToken", Text(Decimal(r.fence)), 1, digest, n + 1, 2, ok);
    WrittenNumber(r.sequence, 2, ok);
    var sequence := Member("sequence", Number(r.sequence), 1, fence, n + 2, 2, ok);
    var epoch := TextMember("sourceEpoch", r.epoch, sequence, n + 3, 2, ok);
    var stream := TextMember("streamId", r.stream, epoch, n + 4, 2, ok);
    var version := NameMember("contractVersion", "1", stream, n + 5, 2, ok);
    WrittenObject(version, n + 6, 1, ok);
  }

  lemma Weaker(v: Json, n: nat, depth: nat, ok: bool, less: bool)
    requires Written(v, n, depth, ok) && (less ==> ok)
    ensures Written(v, n, depth, less)
  {
  }

  lemma {:induction false} ItemsUnits(w: Wire, records: seq<O.Record>)
    ensures UnitsInItems(ItemsOf(w, records))
  {
    hide RecordJson, UnitsIn;
    if |records| > 0 {
      WrittenRecord(w, records[0]);
      ItemsUnits(w, records[1..]);
    }
  }

  // ---- The whole history ----

  lemma HistoryUnits(w: Wire, records: seq<O.Record>)
    ensures UnitsIn(HistoryJson(w, records))
  {
    hide ItemsOf, UnitsInItems;
    ItemsUnits(w, records);
  }

  lemma {:induction false} ItemsNodes(w: Wire, records: seq<O.Record>)
    ensures ItemNodes(ItemsOf(w, records)) == NodeSum(records)
  {
    hide Nodes, RecordJson, RowNodes;
    if |records| > 0 {
      WrittenRecord(w, records[0]);
      ItemsNodes(w, records[1..]);
    }
  }

  lemma {:induction false} ItemsAcceptable(w: Wire, records: seq<O.Record>)
    ensures AcceptableItems(ItemsOf(w, records), 1) <==> RowsAcceptable(w, records)
  {
    hide Acceptable, RecordJson;
    if |records| > 0 {
      ItemsAcceptable(w, records[1..]);
      assert RowsAcceptable(w, records) <==> Acceptable(RecordJson(w, records[0]), 1) && RowsAcceptable(w, records[1..]) by {
        if Acceptable(RecordJson(w, records[0]), 1) && RowsAcceptable(w, records[1..]) {
          forall i | 0 <= i < |records| ensures Acceptable(RecordJson(w, records[i]), 1) {
            if i > 0 { assert records[i] == records[1..][i - 1]; }
          }
        }
        if RowsAcceptable(w, records) {
          forall i | 0 <= i < |records[1..]| ensures Acceptable(RecordJson(w, records[1..][i]), 1) {
            assert records[1..][i] == records[i + 1];
          }
        }
      }
    }
  }

  lemma {:induction false} ItemsBytes(w: Wire, records: seq<O.Record>)
    requires RowsAcceptable(w, records)
    ensures ItemBytes(CanonItems(ItemsOf(w, records))) == TextBytes(w, records) - 2
  {
    hide Acceptable, RecordJson, Canon, Bytes, Utf8, Raw;
    if |records| > 0 {
      var rest := records[1..];
      assert RowsAcceptable(w, rest) by {
        forall i | 0 <= i < |rest| ensures Acceptable(RecordJson(w, rest[i]), 1) { assert rest[i] == records[i + 1]; }
      }
      ItemsBytes(w, rest);
      CanonIsAcceptable(RecordJson(w, records[0]), 1);
      BytesOfText(Canon(RecordJson(w, records[0])), 1);
    }
  }

  /** canonicalize accepts a history exactly when it fits: a condition on sums over its rows. */
  lemma AcceptedExactlyWhenFitting(w: Wire, records: seq<O.Record>)
    ensures Accepted(HistoryJson(w, records)) <==> Fits(w, records)
  {
    hide AcceptableItems, RecordJson, Canon, Bytes, Utf8, Raw, ItemsOf, NodeSum, ByteSum;
    ItemsNodes(w, records);
    ItemsAcceptable(w, records);
    if RowsAcceptable(w, records) { ItemsBytes(w, records); }
    HistoryUnfolds(w, records);
  }

  /** For rows within the declared bounds only the two sums decide. */
  lemma ConformantHistoryFits(w: Wire, records: seq<O.Record>)
    requires forall i :: 0 <= i < |records| ==> RowConforms(w, records[i])
    ensures Fits(w, records) <==> WithinSums(w, records)
  {
    hide RecordJson, RowNodes, Acceptable, RowConforms;
    forall i | 0 <= i < |records| ensures Acceptable(RecordJson(w, records[i]), 1) { WrittenRecord(w, records[i]); }
  }

  lemma HistoryUnfolds(w: Wire, records: seq<O.Record>)
    ensures Acceptable(HistoryJson(w, records), 0) <==> AcceptableItems(ItemsOf(w, records), 1)
    ensures Nodes(HistoryJson(w, records)) == 1 + ItemNodes(ItemsOf(w, records))
    ensures Bytes(Canon(HistoryJson(w, records))) == 2 + ItemBytes(CanonItems(ItemsOf(w, records)))
  {
    hide ItemsOf, RecordJson;
  }

  // ---- A longer history is never smaller ----

  lemma {:induction false} SumsOfConcat(w: Wire, a: seq<O.Record>, b: seq<O.Record>)
    ensures NodeSum(a + b) == NodeSum(a) + NodeSum(b)
    ensures ByteSum(w, a + b) == ByteSum(w, a) + ByteSum(w, b)
  {
    hide RowBytes, RowNodes;
    if |a| > 0 {
      SumsOfConcat(w, a[1..], b);
      assert (a + b)[1..] == a[1..] + b;
    } else {
      assert a + b == b;
    }
  }

  /** What does not fit any more never fits again. */
  lemma LongerFitsLess(w: Wire, records: seq<O.Record>, longer: seq<O.Record>)
    requires records <= longer && Fits(w, longer)
    ensures Fits(w, records)
  {
    hide RowBytes, RowNodes, NodeSum, ByteSum, RecordJson, Acceptable;
    assert longer == records + longer[|records|..];
    SumsOfConcat(w, records, longer[|records|..]);
    forall i | 0 <= i < |records| ensures Acceptable(RecordJson(w, records[i]), 1) { assert records[i] == longer[i]; }
  }

  lemma {:induction false} TenNodesEach(records: seq<O.Record>)
    ensures NodeSum(records) >= 10 * |records|
  {
    hide RowNodes;
    if |records| > 0 { TenNodesEach(records[1..]); }
  }
}
