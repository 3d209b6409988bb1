/**
 * The walk inside canonicalize of packages/server/src/ha-outbox-contract.ts: depth, node, string and byte
 * budgets, kept while the text is built piece by piece.
 */
module CanonicalWalk {
  import opened Wrappers
  import opened Utf16
  import opened CanonicalJson

  const PROTO: JsString := [0x5F, 0x5F, 0x70, 0x72, 0x6F, 0x74, 0x6F, 0x5F, 0x5F]

  predicate StringOk(s: JsString) {
    WellFormed(s) && |Utf8(s)| <= MAX_STRING_BYTES
  }

  /** What the walk accepts, budgets of the whole text apart. */
  predicate Acceptable(v: Json, depth: nat)
    decreases v
  {
    depth <= MAX_DEPTH &&
    match v
    case Number(n) => n + MAX_SAFE >= 0 && n <= MAX_SAFE
    case Text(s) => StringOk(s)
    case Array(items) => AcceptableItems(items, depth + 1)
    case Object(fields) => AcceptableFields(fields, depth + 1)
    case _ => true
  }

  predicate AcceptableItems(items: Items, depth: nat)
    decreases items
  {
    items.Item? ==> Acceptable(items.head, depth) && AcceptableItems(items.tail, depth)
  }

  predicate AcceptableFields(fields: Fields, depth: nat)
    decreases fields
  {
    fields.Field? ==>
      fields.key != PROTO && StringOk(fields.key) && Acceptable(fields.value, depth) && AcceptableFields(fields.rest, depth)
  }

  function Nodes(v: Json): (n: nat)
    ensures n >= 1
  {
    match v
    case Array(items) => 1 + ItemNodes(items)
    case Object(fields) => 1 + FieldNodes(fields)
    case _ => 1
  }

  function ItemNodes(items: Items): nat {
    if items.NoItems? then 0 else Nodes(items.head) + ItemNodes(items.tail)
  }

  function FieldNodes(fields: Fields): nat {
    if fields.NoFields? then 0 else Nodes(fields.value) + FieldNodes(fields.rest)
  }

  /** Bytes of the text of a value printed as it stands. */
  function Bytes(v: Json): nat {
    match v
    case Array(items) => 2 + ItemBytes(items)
    case Object(fields) => 2 + FieldBytes(fields)
    case _ => |Utf8(Raw(v))|
  }

  function ItemBytes(items: Items): nat {
    match items
    case NoItems => 0
    case Item(head, tail) => Bytes(head) + (if tail.Item? then 1 else 0) + ItemBytes(tail)
  }

  function KeyText(key: JsString): JsString {
    Quoted(key) + [0x3A]
  }

  function FieldBytes(fields: Fields): nat {
    match fields
    case NoFields => 0
    case Field(k, v, rest) => |Utf8(KeyText(k))| + Bytes(v) + (if rest.Field? then 1 else 0) + FieldBytes(rest)
  }

  /** The canonical text fits: what canonicalize accepts. */
  predicate Accepted(v: Json) {
    Acceptable(v, 0) && Nodes(v) <= MAX_NODES && Bytes(Canon(v)) <= MAX_TOTAL_BYTES
  }

  // ---- Sorting the keys changes neither budget nor acceptability ----

  /** names.sort() with each value kept under its key. */
  function SortedFields(fields: Fields): Fields {
    match fields
    case NoFields => NoFields
    case Field(k, v, rest) => Insert(k, v, SortedFields(rest))
  }

  function CanonEach(fields: Fields): Fields {
    match fields
    case NoFields => NoFields
    case Field(k, v, rest) => Field(k, Canon(v), CanonEach(rest))
  }

  lemma {:induction false} CanonEachInsert(key: JsString, value: Json, fields: Fields)
    ensures CanonEach(Insert(key, value, fields)) == Insert(key, Canon(value), CanonEach(fields))
  {
    if fields.Field? { CanonEachInsert(key, value, fields.rest); }
  }

  lemma {:induction false} CanonAfterSorting(fields: Fields)
    ensures CanonEach(SortedFields(fields)) == CanonFields(fields)
  {
    if fields.Field? {
      CanonAfterSorting(fields.rest);
      CanonEachInsert(fields.key, fields.value, SortedFields(fields.rest));
    }
  }

  lemma {:induction false} InsertKeepsBudgets(key: JsString, value: Json, fields: Fields, depth: nat)
    ensures FieldNodes(Insert(key, value, fields)) == Nodes(value) + FieldNodes(fields)
    ensures AcceptableFields(Insert(key, value, fields), depth) <==>
              key != PROTO && StringOk(key) && Acceptable(value, depth) && AcceptableFields(fields, depth)
  {
    hide Acceptable, StringOk, Nodes;
    if fields.Field? { InsertKeepsBudgets(key, value, fields.rest, depth); }
  }

  lemma {:induction false} SortingKeepsBudgets(fields: Fields, depth: nat)
    ensures FieldNodes(SortedFields(fields)) == FieldNodes(fields)
    ensures AcceptableFields(SortedFields(fields), depth) <==> AcceptableFields(fields, depth)
  {
    hide Acceptable, StringOk, Nodes;
    if fields.Field? {
      SortingKeepsBudgets(fields.rest, depth);
      InsertKeepsBudgets(fields.key, fields.value, SortedFields(fields.rest), depth);
    }
  }

  // ---- jcsString ----

  lemma EscapedFrom(s: JsString, i: nat)
    requires i < |s|
    ensures EscapedAll(s[i..]) == Escaped(s[i]) + EscapedAll(s[i + 1..])
  {
    assert s[i..][1..] == s[i + 1..];
  }

  /** jcsString: None where it throws. The loop goes over code points. */
  method JcsString(s: JsString) returns (text: Option<JsString>)
    requires Units(s)
    ensures text == if StringOk(s) then Some(Quoted(s)) else None
  {
    hide EscapedAll, Escaped;
    var lone := NoLoneSurrogate(s);
    if !lone || |Utf8(s)| > MAX_STRING_BYTES { return None; }
    var out: JsString := [0x22];
    var i := 0;
    assert s[0..] == s;
    while i < |s|
      invariant 0 <= i <= |s|
      invariant out + EscapedAll(s[i..]) == [0x22] + EscapedAll(s)
    {
      EscapedFrom(s, i);
      if High(s[i]) && i + 1 < |s| && Low(s[i + 1]) {
        EscapedFrom(s, i + 1);
        PairsAreNotEscaped(s[i], s[i + 1]);
        out := out + [s[i], s[i + 1]];
        i := i + 2;
      } else {
        out := out + Escaped(s[i]);
        i := i + 1;
      }
    }
    NothingEscaped(s[i..]);
    assert out + [] == out;
    return Some(out + [0x22]);
  }

  lemma PairsAreNotEscaped(h: int, l: int)
    requires High(h) && Low(l)
    ensures Escaped(h) == [h] && Escaped(l) == [l]
  {
  }

  lemma NothingEscaped(s: JsString)
    requires |s| == 0
    ensures EscapedAll(s) == []
  {
  }

  // ---- The walk ----

  function Joined(parts: seq<JsString>): JsString {
    if |parts| == 0 then [] else Joined(parts[..|parts| - 1]) + parts[|parts| - 1]
  }

  lemma JoinedSnoc(parts: seq<JsString>, part: JsString)
    ensures Joined(parts + [part]) == Joined(parts) + part
  {
    assert (parts + [part])[..|parts|] == parts;
  }

  /** The text still to come in a list, with the comma before it. */
  function ItemTail(items: Items, first: bool): JsString {
    if items.NoItems? then [] else if first then RawItems(CanonItems(items)) else [0x2C] + RawItems(CanonItems(items))
  }

  function FieldTail(fields: Fields, first: bool): JsString {
    if fields.NoFields? then [] else if first then RawFields(CanonEach(fields)) else [0x2C] + RawFields(CanonEach(fields))
  }

  function ItemTailBytes(items: Items, first: bool): nat {
    if items.NoItems? then 0 else (if first then 0 else 1) + ItemBytes(CanonItems(items))
  }

  function FieldTailBytes(fields: Fields, first: bool): nat {
    if fields.NoFields? then 0 else (if first then 0 else 1) + FieldBytes(CanonEach(fields))
  }

  lemma RawItemsCons(head: Json, tail: Items)
    ensures RawItems(Item(head, tail)) == Raw(head) + (if tail.NoItems? then [] else [0x2C] + RawItems(tail))
    ensures ItemBytes(Item(head, tail)) == Bytes(head) + (if tail.NoItems? then 0 else 1 + ItemBytes(tail))
  {
    hide Raw, Bytes;
    if tail.NoItems? { assert Raw(head) + [] == Raw(head); }
  }

  lemma ItemTailStep(items: Items)
    requires items.Item?
    ensures RawItems(CanonItems(items)) == CanonicalText(items.head) + ItemTail(items.tail, false)
    ensures ItemBytes(CanonItems(items)) == Bytes(Canon(items.head)) + ItemTailBytes(items.tail, false)
  {
    RawItemsCons(Canon(items.head), CanonItems(items.tail));
    hide Raw, Bytes, RawItems, ItemBytes, Canon;
  }

  lemma RawFieldsCons(key: JsString, value: Json, rest: Fields)
    ensures RawFields(Field(key, value, rest)) ==
            KeyText(key) + Raw(value) + (if rest.NoFields? then [] else [0x2C] + RawFields(rest))
    ensures FieldBytes(Field(key, value, rest)) ==
            |Utf8(KeyText(key))| + Bytes(value) + (if rest.NoFields? then 0 else 1 + FieldBytes(rest))
  {
    hide Raw, Bytes, Quoted, Utf8;
    if rest.NoFields? { assert RawField(key, value) + [] == RawField(key, value); }
  }

  lemma FieldTailStep(fields: Fields)
    requires fields.Field?
    ensures RawFields(CanonEach(fields)) == KeyText(fields.key) + CanonicalText(fields.value) + FieldTail(fields.rest, false)
    ensures FieldBytes(CanonEach(fields)) ==
            |Utf8(KeyText(fields.key))| + Bytes(Canon(fields.value)) + FieldTailBytes(fields.rest, false)
  {
    RawFieldsCons(fields.key, Canon(fields.value), CanonEach(fields.rest));
    hide Raw, Bytes, RawFields, FieldBytes, Canon, Utf8, KeyText;
  }

  lemma ArrayText(items: Items)
    ensures CanonicalText(Array(items)) == [0x5B] + RawItems(CanonItems(items)) + [0x5D]
    ensures Bytes(Canon(Array(items))) == 2 + ItemBytes(CanonItems(items))
  {
  }

  lemma ObjectText(fields: Fields)
    ensures CanonicalText(Object(fields)) == [0x7B] + RawFields(CanonFields(fields)) + [0x7D]
    ensures Bytes(Canon(Object(fields))) == 2 + FieldBytes(CanonFields(fields))
  {
  }

  lemma OneByte(u: int)
    requires 0 <= u < 0x80
    ensures |Utf8([u])| == 1
  {
    AsciiText([u]);
  }

  /** Moving one item from the text to come into the text built so far. */
  lemma ItemMoved(built: JsString, items: Items, first: bool)
    requires items.Item?
    ensures built + ItemTail(items, first) ==
            (if first then built else built + [0x2C]) + CanonicalText(items.head) + ItemTail(items.tail, false)
  {
    ItemTailStep(items);
  }

  lemma FieldMoved(built: JsString, fields: Fields, first: bool)
    requires fields.Field?
    ensures built + FieldTail(fields, first) ==
            (if first then built else built + [0x2C]) + KeyText(fields.key) + CanonicalText(fields.value) + FieldTail(fields.rest, false)
  {
    FieldTailIs(fields, first);
    hide FieldTail, KeyText, CanonicalText;
    Regroup(built, if first then [] else [0x2C], KeyText(fields.key), CanonicalText(fields.value), FieldTail(fields.rest, false));
    assert built + [] == built;
  }

  lemma FieldTailIs(fields: Fields, first: bool)
    requires fields.Field?
    ensures FieldTail(fields, first) ==
            (if first then [] else [0x2C]) + (KeyText(fields.key) + CanonicalText(fields.value) + FieldTail(fields.rest, false))
  {
    FieldTailStep(fields);
    hide RawFields, CanonEach, KeyText, CanonicalText;
    var text := RawFields(CanonEach(fields));
    assert [] + text == text;
  }

  lemma Regroup(a: JsString, b: JsString, c: JsString, d: JsString, e: JsString)
    ensures a + (b + (c + d + e)) == a + b + c + d + e
  {
  }

  /** The running totals of one call of canonicalize. */
  datatype Totals = Totals(nodes: nat, bytes: nat, text: JsString)

  /** After the walk of a value that started from these totals. */
  function AfterWalk(t: Totals, v: Json): Totals {
    Totals(t.nodes + Nodes(v), t.bytes + Bytes(Canon(v)), t.text + CanonicalText(v))
  }

  predicate WithinBudget(nodes: nat, bytes: nat) {
    nodes <= MAX_NODES && bytes <= MAX_TOTAL_BYTES
  }

  class Walker {
    var nodes: nat
    var bytes: nat
    var parts: seq<JsString>

    ghost function Now(): Totals
      reads this
    {
      Totals(nodes, bytes, Joined(parts))
    }

    constructor ()
      ensures Now() == Totals(0, 0, [])
    {
      nodes, bytes, parts := 0, 0, [];
    }

    /** push: false where it throws. */
    method Push(s: JsString) returns (ok: bool)
      modifies this
      ensures nodes == old(nodes)
      ensures ok <==> old(bytes) + |Utf8(s)| <= MAX_TOTAL_BYTES
      ensures ok ==> Now() == old(Now()).(bytes := old(bytes) + |Utf8(s)|, text := old(Now().text) + s)
    {
      bytes := bytes + |Utf8(s)|;
      if bytes > MAX_TOTAL_BYTES { return false; }
      JoinedSnoc(parts, s);
      parts := parts + [s];
      return true;
    }

    /** The cases of walk that push one piece. */
    method WalkScalar(v: Json, depth: nat) returns (ok: bool)
      requires !v.Array? && !v.Object? && UnitsIn(v) && depth <= MAX_DEPTH
      requires nodes <= MAX_NODES && bytes <= MAX_TOTAL_BYTES
      modifies this
      ensures ok <==> Acceptable(v, depth) && WithinBudget(nodes, old(bytes) + Bytes(Canon(v)))
      ensures nodes == old(nodes)
      ensures ok ==> Now() == Totals(nodes, old(bytes) + Bytes(Canon(v)), old(Now().text) + CanonicalText(v))
    {
      hide Utf8, WellFormed, EscapedAll;
      match v {
        case Null => ok := Push(NULL_TEXT);
        case Bool(b) => ok := Push(if b then TRUE_TEXT else FALSE_TEXT);
        case Number(n) =>
          if n > MAX_SAFE || n + MAX_SAFE < 0 { return false; }
          ok := Push(NumberText(n));
        case Text(s) =>
          var text := JcsString(s);
          if text.None? { return false; }
          ok := Push(text.value);
      }
    }

    method Walk(v: Json, depth: nat) returns (ok: bool)
      requires UnitsIn(v) && WithinBudget(nodes, bytes)
      modifies this
      ensures ok <==> Acceptable(v, depth) && WithinBudget(old(nodes) + Nodes(v), old(bytes) + Bytes(Canon(v)))
      ensures ok ==> Now() == AfterWalk(old(Now()), v)
      decreases Nodes(v), 1
    {
      hide Utf8, Raw, Bytes, Canon, CanonicalText, Joined;
      if depth > MAX_DEPTH { return false; }
      nodes := nodes + 1;
      if nodes > MAX_NODES { return false; }
      match v {
        case Array(items) =>
          ArrayText(items);
          ok := WalkItems(items, depth);
        case Object(fields) =>
          ObjectText(fields);
          ok := WalkFields(fields, depth);
        case _ =>
          ok := WalkScalar(v, depth);
      }
    }

    /** The array case of walk. */
    method WalkItems(items: Items, depth: nat) returns (ok: bool)
      requires UnitsInItems(items) && WithinBudget(nodes, bytes) && depth <= MAX_DEPTH
      modifies this
      ensures ok <==> AcceptableItems(items, depth + 1)
                      && WithinBudget(old(nodes) + ItemNodes(items), old(bytes) + 2 + ItemBytes(CanonItems(items)))
      ensures ok ==> Now() == Totals(old(nodes) + ItemNodes(items), old(bytes) + 2 + ItemBytes(CanonItems(items)),
                                     old(Now().text) + [0x5B] + RawItems(CanonItems(items)) + [0x5D])
      decreases ItemNodes(items), 2
    {
      hide Utf8, RawItems, ItemBytes, CanonItems, Joined, Raw, Canon, Bytes, Acceptable, Nodes;
      OneByte(0x5B);
      OneByte(0x2C);
      OneByte(0x5D);
      EmptyItems();
      ok := Push([0x5B]);
      if !ok { return; }
      ghost var start := Now();
      var rest, first := items, true;
      while rest.Item?
        invariant UnitsInItems(rest) && ItemNodes(rest) <= ItemNodes(items)
        invariant WithinBudget(nodes, bytes)
        invariant AcceptableItems(items, depth + 1) <==> AcceptableItems(rest, depth + 1)
        invariant nodes + ItemNodes(rest) == old(nodes) + ItemNodes(items)
        invariant bytes + ItemTailBytes(rest, first) == start.bytes + ItemBytes(CanonItems(items))
        invariant Now().text + ItemTail(rest, first) == start.text + RawItems(CanonItems(items))
        decreases ItemNodes(rest)
      {
        ItemTailStep(rest);
        ItemMoved(Now().text, rest, first);
        if !first {
          ok := Push([0x2C]);
          if !ok { return; }
        }
        ok := Walk(rest.head, depth + 1);
        if !ok { return; }
        rest, first := rest.tail, false;
      }
      assert Now().text + [] == Now().text;
      ok := Push([0x5D]);
    }

    /** The object case of walk. */
    method WalkFields(fields: Fields, depth: nat) returns (ok: bool)
      requires UnitsInFields(fields) && WithinBudget(nodes, bytes) && depth <= MAX_DEPTH
      modifies this
      ensures ok <==> AcceptableFields(fields, depth + 1)
                      && WithinBudget(old(nodes) + FieldNodes(fields), old(bytes) + 2 + FieldBytes(CanonFields(fields)))
      ensures ok ==> Now() == Totals(old(nodes) + FieldNodes(fields), old(bytes) + 2 + FieldBytes(CanonFields(fields)),
                                     old(Now().text) + [0x7B] + RawFields(CanonFields(fields)) + [0x7D])
      decreases FieldNodes(fields), 2
    {
      hide Utf8, RawFields, FieldBytes, CanonFields, CanonEach, Joined, Raw, Canon, Bytes, Acceptable, Nodes, StringOk,
           SortedFields, KeyText, Quoted;
      OneByte(0x7B);
      OneByte(0x2C);
      OneByte(0x7D);
      EmptyFields();
      var sorted := SortedFields(fields);
      SortingKeepsBudgets(fields, depth + 1);
      SortingKeepsUnits(fields);
      CanonAfterSorting(fields);
      ok := Push([0x7B]);
      if !ok { return; }
      ghost var start := Now();
      var rest, first := sorted, true;
      while rest.Field?
        invariant UnitsInFields(rest) && FieldNodes(rest) <= FieldNodes(sorted)
        invariant WithinBudget(nodes, bytes)
        invariant AcceptableFields(sorted, depth + 1) <==> AcceptableFields(rest, depth + 1)
        invariant nodes + FieldNodes(rest) == old(nodes) + FieldNodes(sorted)
        invariant bytes + FieldTailBytes(rest, first) == start.bytes + FieldBytes(CanonEach(sorted))
        invariant Now().text + FieldTail(rest, first) == start.text + RawFields(CanonEach(sorted))
        decreases FieldNodes(rest)
      {
        FieldTailStep(rest);
        FieldMoved(Now().text, rest, first);
        if rest.key == PROTO { return false; }
        if !first {
          ok := Push([0x2C]);
          if !ok { return; }
        }
        var key := JcsString(rest.key);
        if key.None? { return false; }
        KeyTextIs(rest.key);
        ok := Push(key.value + [0x3A]);
        if !ok { return; }
        ok := Walk(rest.value, depth + 1);
        if !ok { return; }
        rest, first := rest.rest, false;
      }
      assert Now().text + [] == Now().text;
      ok := Push([0x7D]);
    }
  }

  lemma EmptyItems()
    ensures RawItems(CanonItems(NoItems)) == [] && ItemBytes(CanonItems(NoItems)) == 0
  {
  }

  lemma EmptyFields()
    ensures RawFields(CanonEach(NoFields)) == [] && FieldBytes(CanonEach(NoFields)) == 0
  {
  }

  lemma KeyTextIs(key: JsString)
    ensures KeyText(key) == Quoted(key) + [0x3A]
  {
  }

  lemma {:induction false} SortingKeepsUnits(fields: Fields)
    requires UnitsInFields(fields)
    ensures UnitsInFields(SortedFields(fields))
  {
    if fields.Field? {
      SortingKeepsUnits(fields.rest);
      InsertKeepsUnits(fields.key, fields.value, SortedFields(fields.rest));
    }
  }

  // ---- The byte budget bounds the output ----

  lemma {:induction false} CanonIsAcceptable(v: Json, depth: nat)
    requires Acceptable(v, depth)
    ensures Acceptable(Canon(v), depth)
    decreases v, 0
  {
    match v
    case Array(items) => CanonItemsAreAcceptable(items, depth + 1);
    case Object(fields) => CanonFieldsAreAcceptable(fields, depth + 1);
    case _ =>
  }

  lemma {:induction false} CanonItemsAreAcceptable(items: Items, depth: nat)
    requires AcceptableItems(items, depth)
    ensures AcceptableItems(CanonItems(items), depth)
    decreases items, 0
  {
    if items.Item? {
      CanonIsAcceptable(items.head, depth);
      CanonItemsAreAcceptable(items.tail, depth);
    }
  }

  lemma {:induction false} CanonFieldsAreAcceptable(fields: Fields, depth: nat)
    requires AcceptableFields(fields, depth)
    ensures AcceptableFields(CanonFields(fields), depth)
    decreases fields, 0
  {
    if fields.Field? {
      CanonIsAcceptable(fields.value, depth);
      CanonFieldsAreAcceptable(fields.rest, depth);
      InsertKeepsBudgets(fields.key, Canon(fields.value), CanonFields(fields.rest), depth);
    }
  }

  lemma {:induction false} EscapedIsWellFormed(s: JsString)
    requires WellFormed(s)
    ensures WellFormed(EscapedAll(s))
    decreases |s|
  {
    hide Escaped;
    if |s| > 0 {
      var n := if StartsPair(s) then 2 else 1;
      EscapedIsWellFormed(s[n..]);
      assert s[0..] == s;
      EscapedFrom(s, 0);
      if n == 2 {
        EscapedFrom(s, 1);
        PairsAreNotEscaped(s[0], s[1]);
        assert EscapedAll(s) == [s[0], s[1]] + EscapedAll(s[2..]);
        PairIsWellFormed(s[0], s[1]);
        WellFormedConcat([s[0], s[1]], EscapedAll(s[2..]));
      } else {
        UnitEscapeIsWellFormed(s[0]);
        WellFormedConcat(Escaped(s[0]), EscapedAll(s[1..]));
      }
    }
  }

  lemma PairIsWellFormed(h: int, l: int)
    requires High(h) && Low(l)
    ensures WellFormed([h, l])
  {
    assert [h, l][2..] == [];
  }

  lemma UnitEscapeIsWellFormed(u: int)
    requires Unit(u) && !High(u) && !Low(u)
    ensures WellFormed(Escaped(u))
  {
    if |Escaped(u)| > 1 {
      assert Ascii(Escaped(u));
      AsciiText(Escaped(u));
    }
  }

  lemma QuotedIsWellFormed(s: JsString)
    requires WellFormed(s)
    ensures WellFormed(Quoted(s))
  {
    hide EscapedAll;
    EscapedIsWellFormed(s);
    AsciiText([0x22]);
    WellFormedConcat([0x22], EscapedAll(s));
    WellFormedConcat([0x22] + EscapedAll(s), [0x22]);
  }

  /** Two well-formed texts end to end are well formed, and their byte counts add. */
  lemma Adds(a: JsString, b: JsString)
    requires WellFormed(a) && WellFormed(b)
    ensures WellFormed(a + b) && |Utf8(a + b)| == |Utf8(a)| + |Utf8(b)|
  {
    WellFormedConcat(a, b);
    Utf8Concat(a, b);
  }

  lemma {:induction false} BytesOfText(v: Json, depth: nat)
    requires Acceptable(v, depth)
    ensures WellFormed(Raw(v)) && |Utf8(Raw(v))| == Bytes(v)
    decreases v, 0
  {
    hide Utf8, WellFormed;
    match v
    case Null => AsciiText(NULL_TEXT);
    case Bool(b) => AsciiText(if b then TRUE_TEXT else FALSE_TEXT);
    case Number(n) => AsciiText(NumberText(n));
    case Text(s) => QuotedIsWellFormed(s);
    case Array(items) => {
      BytesOfItems(items, depth + 1);
      Bracketed(0x5B, RawItems(items), 0x5D);
    }
    case Object(fields) => {
      BytesOfFields(fields, depth + 1);
      Bracketed(0x7B, RawFields(fields), 0x7D);
    }
  }

  lemma Bracketed(open: int, text: JsString, close: int)
    requires 0 <= open < 0x80 && 0 <= close < 0x80 && WellFormed(text)
    ensures WellFormed([open] + text + [close]) && |Utf8([open] + text + [close])| == 2 + |Utf8(text)|
  {
    hide Utf8, WellFormed;
    AsciiText([open]);
    AsciiText([close]);
    Adds([open], text);
    Adds([open] + text, [close]);
  }

  lemma {:induction false} BytesOfItems(items: Items, depth: nat)
    requires AcceptableItems(items, depth)
    ensures WellFormed(RawItems(items)) && |Utf8(RawItems(items))| == ItemBytes(items)
    decreases items, 0
  {
    hide Utf8, WellFormed, Raw, Bytes;
    if items.NoItems? {
      AsciiText([]);
    } else {
      BytesOfText(items.head, depth);
      BytesOfItems(items.tail, depth);
      AsciiText([0x2C]);
      Adds(Raw(items.head), [0x2C]);
      Adds(Raw(items.head) + [0x2C], RawItems(items.tail));
      RawItemsCons(items.head, items.tail);
      hide RawItems, ItemBytes;
      assert Raw(items.head) + ([0x2C] + RawItems(items.tail)) == Raw(items.head) + [0x2C] + RawItems(items.tail);
      assert Raw(items.head) + [] == Raw(items.head);
    }
  }

  lemma {:induction false} BytesOfFields(fields: Fields, depth: nat)
    requires AcceptableFields(fields, depth)
    ensures WellFormed(RawFields(fields)) && |Utf8(RawFields(fields))| == FieldBytes(fields)
    decreases fields, 0
  {
    hide Utf8, WellFormed, Raw, Bytes, Quoted;
    if fields.NoFields? {
      AsciiText([]);
    } else {
      BytesOfText(fields.value, depth);
      BytesOfFields(fields.rest, depth);
      QuotedIsWellFormed(fields.key);
      AsciiText([0x3A]);
      AsciiText([0x2C]);
      Adds(Quoted(fields.key), [0x3A]);
      var one := KeyText(fields.key) + Raw(fields.value);
      Adds(KeyText(fields.key), Raw(fields.value));
      Adds(one, [0x2C]);
      Adds(one + [0x2C], RawFields(fields.rest));
      RawFieldsCons(fields.key, fields.value, fields.rest);
      hide RawFields, FieldBytes, KeyText;
      assert one + ([0x2C] + RawFields(fields.rest)) == one + [0x2C] + RawFields(fields.rest);
      assert one + [] == one;
    }
  }

  /** Whatever canonicalize accepts, its output is well formed and within the byte budget. */
  lemma AcceptedOutputIsBounded(v: Json)
    requires Accepted(v)
    ensures WellFormed(CanonicalText(v)) && |Utf8(CanonicalText(v))| <= MAX_TOTAL_BYTES
  {
    hide Utf8, WellFormed, Raw, Bytes, Canon;
    CanonIsAcceptable(v, 0);
    BytesOfText(Canon(v), 0);
  }

  /** canonicalize: the canonical text of exactly the accepted values, and None where it throws. */
  method Canonicalize(v: Json) returns (text: Option<JsString>)
    requires UnitsIn(v)
    ensures text == if Accepted(v) then Some(CanonicalText(v)) else None
  {
    hide Utf8, Raw, Bytes, Canon;
    var walker := new Walker();
    var ok := walker.Walk(v, 0);
    if !ok { return None; }
    assert [] + CanonicalText(v) == CanonicalText(v);
    var out := Joined(walker.parts);
    return Some(out);
  }
}
