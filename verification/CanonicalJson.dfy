/**
 * canonicalize of packages/server/src/ha-outbox-contract.ts: the integer-only subset of the JSON
 * canonicalization scheme (sections 3.2.2 and 3.2.3 of RFC 8785), and a parser that reads it back. A number
 * is an integer, so minus zero is the number 0.
 */
module CanonicalJson {
  import opened Wrappers
  import opened Utf16
  import opened Framing

  const MAX_DEPTH: nat := 64
  const MAX_NODES: nat := 10000
  const MAX_STRING_BYTES: nat := 65536
  const MAX_TOTAL_BYTES: nat := 1048576

  datatype Json =
    | Null
    | Bool(b: bool)
    | Number(n: int)
    | Text(s: JsString)
    | Array(items: Items)
    | Object(fields: Fields)

  datatype Items = NoItems | Item(head: Json, tail: Items)

  /** Own properties in insertion order. */
  datatype Fields = NoFields | Field(key: JsString, value: Json, rest: Fields)

  // ---- UTF-16 code unit order ----

  predicate Less(a: JsString, b: JsString) {
    if |b| == 0 then false
    else if |a| == 0 then true
    else a[0] < b[0] || (a[0] == b[0] && Less(a[1..], b[1..]))
  }

  lemma {:induction false} LessIsTotal(a: JsString, b: JsString)
    ensures a == b || Less(a, b) || Less(b, a)
    ensures !(Less(a, b) && Less(b, a)) && !Less(a, a)
  {
    if |a| > 0 && |b| > 0 {
      LessIsTotal(a[1..], b[1..]);
      if a[0] == b[0] && a[1..] == b[1..] { assert a == [a[0]] + a[1..] == b; }
    }
    if |a| > 0 { LessIsTotal(a[1..], a[1..]); }
  }

  lemma {:induction false} LessIsTransitive(a: JsString, b: JsString, c: JsString)
    requires Less(a, b) && Less(b, c)
    ensures Less(a, c)
  {
    if |a| > 0 && a[0] == b[0] && b[0] == c[0] { LessIsTransitive(a[1..], b[1..], c[1..]); }
  }

  // ---- The canonical value: fields sorted, recursively ----

  function Insert(key: JsString, value: Json, fields: Fields): Fields {
    match fields
    case NoFields => Field(key, value, NoFields)
    case Field(k, v, rest) => if Less(k, key) then Field(k, v, Insert(key, value, rest)) else Field(key, value, fields)
  }

  function Canon(v: Json): Json {
    match v
    case Array(items) => Array(CanonItems(items))
    case Object(fields) => Object(CanonFields(fields))
    case _ => v
  }

  function CanonItems(items: Items): Items {
    match items
    case NoItems => NoItems
    case Item(head, tail) => Item(Canon(head), CanonItems(tail))
  }

  function CanonFields(fields: Fields): Fields {
    match fields
    case NoFields => NoFields
    case Field(k, v, rest) => Insert(k, Canon(v), CanonFields(rest))
  }

  // ---- The text ----

  function Hex(d: int): int {
    if d < 10 then 48 + d else 87 + d
  }

  function Escaped(u: int): JsString {
    if u == 0x22 then [0x5C, 0x22]
    else if u == 0x5C then [0x5C, 0x5C]
    else if u == 0x08 then [0x5C, 0x62]
    else if u == 0x0C then [0x5C, 0x66]
    else if u == 0x0A then [0x5C, 0x6E]
    else if u == 0x0D then [0x5C, 0x72]
    else if u == 0x09 then [0x5C, 0x74]
    else if 0 <= u < 0x20 then [0x5C, 0x75, 48, 48, Hex(u / 16), Hex(u % 16)]
    else [u]
  }

  function EscapedAll(s: JsString): JsString {
    if |s| == 0 then [] else Escaped(s[0]) + EscapedAll(s[1..])
  }

  function Quoted(s: JsString): JsString {
    [0x22] + EscapedAll(s) + [0x22]
  }

  function NumberText(n: int): JsString {
    if n < 0 then [0x2D] + Decimal(-n) else Decimal(n)
  }

  const NULL_TEXT: JsString := [0x6E, 0x75, 0x6C, 0x6C]
  const TRUE_TEXT: JsString := [0x74, 0x72, 0x75, 0x65]
  const FALSE_TEXT: JsString := [0x66, 0x61, 0x6C, 0x73, 0x65]

  /** A value's text with its fields in the order they stand. */
  function Raw(v: Json): JsString
    decreases v, 0
  {
    match v
    case Null => NULL_TEXT
    case Bool(b) => if b then TRUE_TEXT else FALSE_TEXT
    case Number(n) => NumberText(n)
    case Text(s) => Quoted(s)
    case Array(items) => [0x5B] + RawItems(items) + [0x5D]
    case Object(fields) => [0x7B] + RawFields(fields) + [0x7D]
  }

  function RawItems(items: Items): JsString
    decreases items, 0
  {
    match items
    case NoItems => []
    case Item(head, NoItems) => Raw(head)
    case Item(head, tail) => Raw(head) + [0x2C] + RawItems(tail)
  }

  function RawField(key: JsString, value: Json): JsString
    decreases value, 1
  {
    Quoted(key) + [0x3A] + Raw(value)
  }

  function RawFields(fields: Fields): JsString
    decreases fields, 0
  {
    match fields
    case NoFields => []
    case Field(k, v, NoFields) => RawField(k, v)
    case Field(k, v, rest) => RawField(k, v) + [0x2C] + RawFields(rest)
  }

  /** The canonical text. */
  function CanonicalText(v: Json): JsString {
    Raw(Canon(v))
  }

  // ---- A JSON parser ----

  /** A parsed prefix and what follows it. */
  datatype Parsed<+T> = Parsed(value: T, rest: JsString)

  predicate StartsWith(text: JsString, prefix: JsString) {
    |prefix| <= |text| && text[..|prefix|] == prefix
  }

  predicate IsDigit(u: int) {
    48 <= u <= 57
  }

  /** The longest run of digits. */
  function DigitsOf(text: JsString): (d: JsString)
    ensures |d| <= |text| && text[..|d|] == d
  {
    if |text| == 0 || !IsDigit(text[0]) then [] else
    var d := DigitsOf(text[1..]);
    assert text[..1 + |d|] == [text[0]] + text[1..][..|d|];
    [text[0]] + d
  }

  function ParseNatural(text: JsString): Option<Parsed<int>> {
    var d := DigitsOf(text);
    if |d| == 0 || (|d| > 1 && d[0] == 48) then None else Some(Parsed(DecimalValue(d), text[|d|..]))
  }

  function HexValue(u: int): Option<int> {
    if IsDigit(u) then Some(u - 48)
    else if 97 <= u <= 102 then Some(u - 87)
    else if 65 <= u <= 70 then Some(u - 55)
    else None
  }

  /** The unit an escape stands for, and its length after the backslash. */
  function Escape(text: JsString): Option<Parsed<int>> {
    if |text| == 0 then None
    else if text[0] == 0x22 || text[0] == 0x5C || text[0] == 0x2F then Some(Parsed(text[0], text[1..]))
    else if text[0] == 0x62 then Some(Parsed(0x08, text[1..]))
    else if text[0] == 0x66 then Some(Parsed(0x0C, text[1..]))
    else if text[0] == 0x6E then Some(Parsed(0x0A, text[1..]))
    else if text[0] == 0x72 then Some(Parsed(0x0D, text[1..]))
    else if text[0] == 0x74 then Some(Parsed(0x09, text[1..]))
    else if text[0] == 0x75 && |text| >= 5 then
      var a, b, c, d := HexValue(text[1]), HexValue(text[2]), HexValue(text[3]), HexValue(text[4]);
      if a.Some? && b.Some? && c.Some? && d.Some?
      then Some(Parsed(((a.value * 16 + b.value) * 16 + c.value) * 16 + d.value, text[5..]))
      else None
    else None
  }

  /** A string after its opening quote. */
  function ParseString(text: JsString): (p: Option<Parsed<JsString>>)
    ensures p.Some? ==> |p.value.rest| < |text|
    decreases |text|
  {
    if |text| == 0 || text[0] < 0x20 then None
    else if text[0] == 0x22 then Some(Parsed([], text[1..]))
    else
      var unit := if text[0] == 0x5C then Escape(text[1..]) else Some(Parsed(text[0], text[1..]));
      if unit.None? || |unit.value.rest| >= |text| then None
      else
        match ParseString(unit.value.rest)
        case None => None
        case Some(p) => Some(Parsed([unit.value.value] + p.value, p.rest))
  }

  function Parse(text: JsString): (p: Option<Parsed<Json>>)
    ensures p.Some? ==> |p.value.rest| < |text|
    decreases |text|, 0
  {
    if |text| == 0 then None
    else if StartsWith(text, NULL_TEXT) then Some(Parsed(Null, text[4..]))
    else if StartsWith(text, TRUE_TEXT) then Some(Parsed(Bool(true), text[4..]))
    else if StartsWith(text, FALSE_TEXT) then Some(Parsed(Bool(false), text[5..]))
    else if text[0] == 0x22 then
      (match ParseString(text[1..]) case None => None case Some(p) => Some(Parsed(Text(p.value), p.rest)))
    else if text[0] == 0x5B then
      (if |text| >= 2 && text[1] == 0x5D then Some(Parsed(Array(NoItems), text[2..]))
       else match ParseItems(text[1..]) case None => None case Some(p) => Some(Parsed(Array(p.value), p.rest)))
    else if text[0] == 0x7B then
      (if |text| >= 2 && text[1] == 0x7D then Some(Parsed(Object(NoFields), text[2..]))
       else match ParseFields(text[1..]) case None => None case Some(p) => Some(Parsed(Object(p.value), p.rest)))
    else if text[0] == 0x2D then
      (match ParseNatural(text[1..])
       case None => None
       case Some(p) => if |p.rest| >= |text| then None else Some(Parsed(Number(-p.value), p.rest)))
    else
      match ParseNatural(text)
      case None => None
      case Some(p) => if |p.rest| >= |text| then None else Some(Parsed(Number(p.value), p.rest))
  }

  /** One or more items and the closing bracket. */
  function ParseItems(text: JsString): (p: Option<Parsed<Items>>)
    ensures p.Some? ==> |p.value.rest| < |text|
    decreases |text|, 1
  {
    match Parse(text)
    case None => None
    case Some(first) =>
      if |first.rest| == 0 then None
      else if first.rest[0] == 0x5D then Some(Parsed(Item(first.value, NoItems), first.rest[1..]))
      else if first.rest[0] != 0x2C then None
      else
        match ParseItems(first.rest[1..])
        case None => None
        case Some(more) => Some(Parsed(Item(first.value, more.value), more.rest))
  }

  /** A quoted key, a colon and a value. */
  function ParseField(text: JsString): (p: Option<Parsed<(JsString, Json)>>)
    ensures p.Some? ==> |p.value.rest| < |text|
    decreases |text|, 1
  {
    if |text| == 0 || text[0] != 0x22 then None else
    match ParseString(text[1..])
    case None => None
    case Some(key) =>
      if |key.rest| == 0 || key.rest[0] != 0x3A then None else
      match Parse(key.rest[1..])
      case None => None
      case Some(value) => Some(Parsed((key.value, value.value), value.rest))
  }

  function ParseFields(text: JsString): (p: Option<Parsed<Fields>>)
    ensures p.Some? ==> |p.value.rest| < |text|
    decreases |text|, 2
  {
    match ParseField(text)
    case None => None
    case Some(first) =>
      if |first.rest| == 0 then None
      else if first.rest[0] == 0x7D then Some(Parsed(Field(first.value.0, first.value.1, NoFields), first.rest[1..]))
      else if first.rest[0] != 0x2C then None
      else
        match ParseFields(first.rest[1..])
        case None => None
        case Some(more) => Some(Parsed(Field(first.value.0, first.value.1, more.value), more.rest))
  }

  // ---- The parser reads back what was printed ----

  predicate Units(s: JsString) {
    forall i :: 0 <= i < |s| ==> Unit(s[i])
  }

  /** Every string and key is made of code units. */
  predicate UnitsIn(v: Json) {
    match v
    case Text(s) => Units(s)
    case Array(items) => UnitsInItems(items)
    case Object(fields) => UnitsInFields(fields)
    case _ => true
  }

  predicate UnitsInItems(items: Items) {
    items.Item? ==> UnitsIn(items.head) && UnitsInItems(items.tail)
  }

  predicate UnitsInFields(fields: Fields) {
    fields.Field? ==> Units(fields.key) && UnitsIn(fields.value) && UnitsInFields(fields.rest)
  }

  predicate Delimited(rest: JsString) {
    |rest| == 0 || !IsDigit(rest[0])
  }

  lemma {:induction false} DigitsOfDecimal(d: JsString, rest: JsString)
    requires forall i :: 0 <= i < |d| ==> IsDigit(d[i])
    requires Delimited(rest)
    ensures DigitsOf(d + rest) == d
  {
    if |d| == 0 {
      assert d + rest == rest;
    } else {
      DigitsOfDecimal(d[1..], rest);
      assert (d + rest)[1..] == d[1..] + rest;
    }
  }

  lemma ParseDecimal(n: nat, rest: JsString)
    requires Delimited(rest)
    ensures ParseNatural(Decimal(n) + rest) == Some(Parsed(n, rest))
  {
    hide DecimalValue;
    DigitsOfDecimal(Decimal(n), rest);
    DecimalRoundTrip(n);
    assert (Decimal(n) + rest)[|Decimal(n)|..] == rest;
  }

  lemma ParseEscaped(u: int, tail: JsString, p: Parsed<JsString>)
    requires Unit(u) && ParseString(tail) == Some(p)
    ensures ParseString(Escaped(u) + tail) == Some(Parsed([u] + p.value, p.rest))
  {
    var text := Escaped(u) + tail;
    if |Escaped(u)| == 1 {
      assert text[1..] == tail;
    } else if |Escaped(u)| == 2 {
      assert text[1..][1..] == tail;
    } else {
      assert text[1..][5..] == tail;
      assert HexValue(Hex(u / 16)) == Some(u / 16) && HexValue(Hex(u % 16)) == Some(u % 16);
      assert text[1..][0] == 0x75 && text[1..][1] == 48 && text[1..][2] == 48;
    }
  }

  lemma {:induction false} ParseQuoted(s: JsString, rest: JsString)
    requires Units(s)
    ensures ParseString(EscapedAll(s) + [0x22] + rest) == Some(Parsed(s, rest))
  {
    hide Escaped, Escape;
    if |s| == 0 {
      assert EscapedAll(s) + [0x22] + rest == [0x22] + rest;
    } else {
      ParseQuoted(s[1..], rest);
      hide ParseString;
      ParseEscaped(s[0], EscapedAll(s[1..]) + [0x22] + rest, Parsed(s[1..], rest));
      assert EscapedAll(s) + [0x22] + rest == Escaped(s[0]) + (EscapedAll(s[1..]) + [0x22] + rest);
      assert [s[0]] + s[1..] == s;
    }
  }

  lemma ParseText(s: JsString, rest: JsString)
    requires Units(s)
    ensures Parse(Quoted(s) + rest) == Some(Parsed(Text(s), rest))
  {
    hide EscapedAll, ParseString;
    ParseQuoted(s, rest);
    var text := Quoted(s) + rest;
    assert text[0] == 0x22;
    assert text[1..] == EscapedAll(s) + [0x22] + rest;
    NotAWord(text);
  }

  lemma WordsDiffer(text: JsString)
    requires |text| > 0
    ensures StartsWith(text, NULL_TEXT) ==> text[0] == 0x6E
    ensures StartsWith(text, TRUE_TEXT) ==> text[0] == 0x74
    ensures StartsWith(text, FALSE_TEXT) ==> text[0] == 0x66
  {
    assert StartsWith(text, NULL_TEXT) ==> text[..4][0] == 0x6E;
    assert StartsWith(text, TRUE_TEXT) ==> text[..4][0] == 0x74;
    assert StartsWith(text, FALSE_TEXT) ==> text[..5][0] == 0x66;
  }

  /** A text that starts with none of n, t and f is no word. */
  lemma NotAWord(text: JsString)
    requires |text| > 0 && text[0] != 0x6E && text[0] != 0x74 && text[0] != 0x66
    ensures !StartsWith(text, NULL_TEXT) && !StartsWith(text, TRUE_TEXT) && !StartsWith(text, FALSE_TEXT)
  {
    WordsDiffer(text);
  }

  lemma ParseNegative(n: int, rest: JsString)
    requires Delimited(rest) && n >= 0
    ensures Parse([0x2D] + Decimal(n) + rest) == Some(Parsed(Number(-n), rest))
  {
    hide ParseNatural, DigitsOf, DecimalValue, Decimal, StartsWith, ParseString, ParseItems, ParseFields;
    var text := [0x2D] + Decimal(n) + rest;
    NotAWord(text);
    ParseDecimal(n, rest);
    assert text[1..] == Decimal(n) + rest;
  }

  lemma ParsePositive(n: nat, rest: JsString)
    requires Delimited(rest)
    ensures Parse(Decimal(n) + rest) == Some(Parsed(Number(n), rest))
  {
    hide ParseNatural, DigitsOf, DecimalValue, StartsWith, ParseString, ParseItems, ParseFields;
    var text := Decimal(n) + rest;
    assert text[0] == Decimal(n)[0];
    hide Decimal;
    NotAWord(text);
    ParseDecimal(n, rest);
  }

  lemma ParseNumber(n: int, rest: JsString)
    requires Delimited(rest)
    ensures Parse(NumberText(n) + rest) == Some(Parsed(Number(n), rest))
  {
    hide Parse, Decimal;
    if n < 0 { ParseNegative(-n, rest); } else { ParsePositive(n, rest); }
  }

  lemma ParseWord(v: Json, rest: JsString)
    requires v.Null? || v.Bool?
    ensures Parse(Raw(v) + rest) == Some(Parsed(v, rest))
  {
    var text := Raw(v) + rest;
    assert text[|Raw(v)|..] == rest && text[..|Raw(v)|] == Raw(v);
    assert StartsWith(text, Raw(v));
    if v.Bool? { assert text[0] == Raw(v)[0]; WordsDiffer(text); }
  }

  lemma {:induction false} RawIsNotEmpty(v: Json)
    ensures |Raw(v)| > 0 && Raw(v)[0] != 0x5D && Raw(v)[0] != 0x7D
  {
  }

  /** Parsing a printed value returns it, whatever follows it that is not another digit. */
  lemma {:induction false} ParseInvertsRaw(v: Json, rest: JsString)
    requires UnitsIn(v) && (v.Number? ==> Delimited(rest))
    ensures Parse(Raw(v) + rest) == Some(Parsed(v, rest))
    decreases v, 0
  {
    match v
    case Null => ParseWord(v, rest);
    case Bool(_) => ParseWord(v, rest);
    case Number(n) => ParseNumber(n, rest);
    case Text(s) => ParseText(s, rest);
    case Array(items) => ParseArray(items, rest);
    case Object(fields) => ParseObject(fields, rest);
  }

  lemma {:induction false} ParseArray(items: Items, rest: JsString)
    requires UnitsInItems(items)
    ensures Parse(Raw(Array(items)) + rest) == Some(Parsed(Array(items), rest))
    decreases items, 1
  {
    var text := Raw(Array(items)) + rest;
    NotAWord(text);
    match items
    case NoItems => assert text[2..] == rest;
    case Item(head, tail) => {
      RawIsNotEmpty(head);
      assert text[1..] == RawItems(items) + [0x5D] + rest;
      assert text[1] == RawItems(items)[0] == Raw(head)[0];
      ParseInvertsItems(items, rest);
    }
  }

  lemma {:induction false} ParseInvertsItems(items: Items, rest: JsString)
    requires items.Item? && UnitsInItems(items)
    ensures ParseItems(RawItems(items) + [0x5D] + rest) == Some(Parsed(items, rest))
    decreases items, 0
  {
    hide Raw, Parse, UnitsIn;
    var text := RawItems(items) + [0x5D] + rest;
    match items.tail
    case NoItems => {
      ParseInvertsRaw(items.head, [0x5D] + rest);
      assert text == Raw(items.head) + ([0x5D] + rest);
      assert ([0x5D] + rest)[1..] == rest;
    }
    case Item(_, _) => {
      var after := [0x2C] + RawItems(items.tail) + [0x5D] + rest;
      ParseInvertsRaw(items.head, after);
      assert text == Raw(items.head) + after;
      assert after[1..] == RawItems(items.tail) + [0x5D] + rest;
      ParseInvertsItems(items.tail, rest);
    }
  }

  lemma QuotesFirst(fields: Fields)
    requires fields.Field?
    ensures |RawFields(fields)| > 0 && RawFields(fields)[0] == 0x22
  {
  }

  lemma {:induction false} ParseObject(fields: Fields, rest: JsString)
    requires UnitsInFields(fields)
    ensures Parse(Raw(Object(fields)) + rest) == Some(Parsed(Object(fields), rest))
    decreases fields, 1
  {
    hide StartsWith, ParseString, ParseItems, RawField, EscapedAll;
    var text := Raw(Object(fields)) + rest;
    NotAWord(text);
    match fields
    case NoFields => assert text[2..] == rest;
    case Field(key, value, _) => {
      assert text[1..] == RawFields(fields) + [0x7D] + rest;
      assert RawFields(fields)[0] == 0x22 by { QuotesFirst(fields); }
      ParseInvertsFields(fields, rest);
    }
  }

  lemma {:induction false} ParseInvertsField(key: JsString, value: Json, rest: JsString)
    requires Units(key) && UnitsIn(value) && Delimited(rest)
    ensures ParseField(RawField(key, value) + rest) == Some(Parsed((key, value), rest))
    decreases value, 1
  {
    hide Raw, Parse, UnitsIn, EscapedAll, ParseString;
    var text := RawField(key, value) + rest;
    var after := [0x3A] + Raw(value) + rest;
    assert text == Quoted(key) + after;
    assert text[0] == 0x22;
    assert text[1..] == EscapedAll(key) + [0x22] + after;
    ParseQuoted(key, after);
    assert after[1..] == Raw(value) + rest;
    ParseInvertsRaw(value, rest);
  }

  lemma {:induction false} ParseInvertsFields(fields: Fields, rest: JsString)
    requires fields.Field? && UnitsInFields(fields)
    ensures ParseFields(RawFields(fields) + [0x7D] + rest) == Some(Parsed(fields, rest))
    decreases fields, 0
  {
    hide RawField, ParseField, UnitsIn, Units;
    var text := RawFields(fields) + [0x7D] + rest;
    match fields.rest
    case NoFields => {
      ParseInvertsField(fields.key, fields.value, [0x7D] + rest);
      assert text == RawField(fields.key, fields.value) + ([0x7D] + rest);
      assert ([0x7D] + rest)[1..] == rest;
    }
    case Field(_, _, _) => {
      var after := [0x2C] + RawFields(fields.rest) + [0x7D] + rest;
      ParseInvertsField(fields.key, fields.value, after);
      assert text == RawField(fields.key, fields.value) + after;
      assert after[1..] == RawFields(fields.rest) + [0x7D] + rest;
      ParseInvertsFields(fields.rest, rest);
    }
  }

  // ---- Equal values, whatever the order of their keys ----

  function MapOf(fields: Fields): map<JsString, Json> {
    match fields
    case NoFields => map[]
    case Field(k, v, rest) => MapOf(rest)[k := v]
  }

  /** A JavaScript object has each key once. */
  predicate Distinct(fields: Fields) {
    fields.Field? ==> fields.key !in MapOf(fields.rest) && Distinct(fields.rest)
  }

  predicate Proper(v: Json) {
    match v
    case Array(items) => ProperItems(items)
    case Object(fields) => Distinct(fields) && ProperFields(fields)
    case _ => true
  }

  predicate ProperItems(items: Items) {
    items.Item? ==> Proper(items.head) && ProperItems(items.tail)
  }

  predicate ProperFields(fields: Fields) {
    fields.Field? ==> Proper(fields.value) && ProperFields(fields.rest)
  }

  /** Equality of values: arrays by position, objects by key. */
  ghost predicate Same(v: Json, w: Json)
    decreases v
  {
    match v
    case Array(items) => w.Array? && SameItems(items, w.items)
    case Object(fields) => w.Object? && MapOf(fields).Keys == MapOf(w.fields).Keys && Agrees(fields, MapOf(w.fields))
    case _ => v == w
  }

  ghost predicate SameItems(a: Items, b: Items)
    decreases a
  {
    match a
    case NoItems => b.NoItems?
    case Item(head, tail) => b.Item? && Same(head, b.head) && SameItems(tail, b.tail)
  }

  /** Every field has, under its key, the same value in the other object. */
  ghost predicate Agrees(fields: Fields, other: map<JsString, Json>)
    decreases fields
  {
    match fields
    case NoFields => true
    case Field(k, v, rest) => k in other && Same(v, other[k]) && Agrees(rest, other)
  }

  predicate Sorted(fields: Fields) {
    fields.Field? ==> Sorted(fields.rest) && (fields.rest.Field? ==> Less(fields.key, fields.rest.key))
  }

  lemma {:induction false} InsertIsUpdate(key: JsString, value: Json, fields: Fields)
    requires key !in MapOf(fields)
    ensures MapOf(Insert(key, value, fields)) == MapOf(fields)[key := value]
  {
    if fields.Field? && Less(fields.key, key) {
      InsertIsUpdate(key, value, fields.rest);
    }
  }

  lemma {:induction false} InsertKeepsSorted(key: JsString, value: Json, fields: Fields)
    requires Sorted(fields) && key !in MapOf(fields)
    ensures Sorted(Insert(key, value, fields))
  {
    if fields.Field? {
      LessIsTotal(key, fields.key);
      if Less(fields.key, key) {
        assert key !in MapOf(fields.rest);
        InsertKeepsSorted(key, value, fields.rest);
      }
    }
  }

  lemma {:induction false} FirstIsLeast(fields: Fields, k: JsString)
    requires fields.Field? && Sorted(fields) && k in MapOf(fields.rest)
    ensures Less(fields.key, k)
  {
    if k != fields.rest.key {
      FirstIsLeast(fields.rest, k);
      LessIsTransitive(fields.key, fields.rest.key, k);
    }
  }

  lemma {:induction false} SortedIsDetermined(f: Fields, g: Fields)
    requires Sorted(f) && Sorted(g) && MapOf(f) == MapOf(g)
    ensures f == g
  {
    if f.Field? && g.Field? {
      SameFirst(f, g);
      LessIsTotal(f.key, f.key);
      assert f.key !in MapOf(f.rest) by { if f.key in MapOf(f.rest) { FirstIsLeast(f, f.key); } }
      assert g.key !in MapOf(g.rest) by { if g.key in MapOf(g.rest) { FirstIsLeast(g, g.key); } }
      assert MapOf(f.rest) == MapOf(f) - {f.key};
      assert MapOf(g.rest) == MapOf(g) - {g.key};
      assert MapOf(f)[f.key] == f.value && MapOf(g)[g.key] == g.value;
      SortedIsDetermined(f.rest, g.rest);
    } else {
      FieldsHaveKeys(f);
      FieldsHaveKeys(g);
    }
  }

  lemma FieldsHaveKeys(f: Fields)
    ensures MapOf(f) == map[] <==> f.NoFields?
  {
    if f.Field? { assert f.key in MapOf(f); }
  }

  lemma SameFirst(f: Fields, g: Fields)
    requires f.Field? && g.Field? && Sorted(f) && Sorted(g) && MapOf(f) == MapOf(g)
    ensures f.key == g.key
  {
    assert f.key in MapOf(g) && g.key in MapOf(f);
    if f.key != g.key {
      FirstIsLeast(f, g.key);
      FirstIsLeast(g, f.key);
      LessIsTotal(f.key, g.key);
    }
  }

  /** The canonical values under each key. */
  function CanonMap(fields: Fields): map<JsString, Json> {
    match fields
    case NoFields => map[]
    case Field(k, v, rest) => CanonMap(rest)[k := Canon(v)]
  }

  lemma {:induction false} CanonMapKeys(fields: Fields)
    ensures CanonMap(fields).Keys == MapOf(fields).Keys
    ensures forall k :: k in MapOf(fields) ==> CanonMap(fields)[k] == Canon(MapOf(fields)[k])
  {
    if fields.Field? { CanonMapKeys(fields.rest); }
  }

  lemma {:induction false} CanonFieldsSorted(fields: Fields)
    requires Distinct(fields)
    ensures Sorted(CanonFields(fields)) && MapOf(CanonFields(fields)) == CanonMap(fields)
  {
    if fields.Field? {
      CanonFieldsSorted(fields.rest);
      CanonMapKeys(fields.rest);
      assert fields.key !in CanonMap(fields.rest).Keys;
      InsertIsUpdate(fields.key, Canon(fields.value), CanonFields(fields.rest));
      InsertKeepsSorted(fields.key, Canon(fields.value), CanonFields(fields.rest));
    }
  }

  lemma CanonFieldsEqual(f: Fields, g: Fields)
    requires Distinct(f) && Distinct(g)
    ensures CanonFields(f) == CanonFields(g) <==> CanonMap(f) == CanonMap(g)
  {
    CanonFieldsSorted(f);
    CanonFieldsSorted(g);
    if CanonMap(f) == CanonMap(g) { SortedIsDetermined(CanonFields(f), CanonFields(g)); }
  }

  /** Two proper values have one canonical form exactly when they are the same value. */
  lemma {:induction false} CanonIsEquality(v: Json, w: Json)
    requires Proper(v) && Proper(w)
    ensures Canon(v) == Canon(w) <==> Same(v, w)
    decreases v, 0
  {
    match v
    case Array(items) => if w.Array? { CanonItemsIsEquality(items, w.items); }
    case Object(fields) => if w.Object? { CanonObjectsIsEquality(fields, w.fields); }
    case _ =>
  }

  lemma {:induction false} CanonItemsIsEquality(a: Items, b: Items)
    requires ProperItems(a) && ProperItems(b)
    ensures CanonItems(a) == CanonItems(b) <==> SameItems(a, b)
    decreases a, 0
  {
    if a.Item? && b.Item? {
      CanonIsEquality(a.head, b.head);
      CanonItemsIsEquality(a.tail, b.tail);
    }
  }

  lemma {:induction false} CanonObjectsIsEquality(f: Fields, g: Fields)
    requires Distinct(f) && ProperFields(f) && Distinct(g) && ProperFields(g)
    ensures CanonFields(f) == CanonFields(g) <==> MapOf(f).Keys == MapOf(g).Keys && Agrees(f, MapOf(g))
    decreases f, 1
  {
    hide CanonFields, Same;
    CanonFieldsEqual(f, g);
    CanonMapKeys(f);
    CanonMapKeys(g);
    if MapOf(f).Keys == MapOf(g).Keys {
      AgreesIsEquality(f, g);
      assert CanonMap(f) == CanonMap(g) <==> forall k :: k in CanonMap(f) ==> CanonMap(g)[k] == CanonMap(f)[k];
    }
  }

  lemma {:induction false} ProperAt(g: Fields, k: JsString)
    requires ProperFields(g) && k in MapOf(g)
    ensures Proper(MapOf(g)[k])
  {
    if k != g.key { ProperAt(g.rest, k); }
  }

  lemma {:induction false} AgreesIsEquality(f: Fields, g: Fields)
    requires Distinct(f) && ProperFields(f) && ProperFields(g) && MapOf(f).Keys <= MapOf(g).Keys
    ensures Agrees(f, MapOf(g)) <==>
            forall k :: k in CanonMap(f) ==> k in MapOf(g) && Canon(MapOf(g)[k]) == CanonMap(f)[k]
    decreases f, 0
  {
    hide Same, Canon;
    if f.Field? {
      assert f.key in MapOf(f).Keys;
      assert MapOf(f.rest).Keys <= MapOf(f).Keys;
      AgreesIsEquality(f.rest, g);
      CanonMapKeys(f.rest);
      ProperAt(g, f.key);
      CanonIsEquality(f.value, MapOf(g)[f.key]);
    }
  }

  // ---- Main results ----

  lemma {:induction false} CanonKeepsUnits(v: Json)
    requires UnitsIn(v)
    ensures UnitsIn(Canon(v))
    decreases v, 0
  {
    match v
    case Array(items) => CanonItemsKeepUnits(items);
    case Object(fields) => CanonFieldsKeepUnits(fields);
    case _ =>
  }

  lemma {:induction false} CanonItemsKeepUnits(items: Items)
    requires UnitsInItems(items)
    ensures UnitsInItems(CanonItems(items))
    decreases items, 0
  {
    if items.Item? {
      CanonKeepsUnits(items.head);
      CanonItemsKeepUnits(items.tail);
    }
  }

  lemma {:induction false} InsertKeepsUnits(key: JsString, value: Json, fields: Fields)
    requires Units(key) && UnitsIn(value) && UnitsInFields(fields)
    ensures UnitsInFields(Insert(key, value, fields))
  {
    if fields.Field? { InsertKeepsUnits(key, value, fields.rest); }
  }

  lemma {:induction false} CanonFieldsKeepUnits(fields: Fields)
    requires UnitsInFields(fields)
    ensures UnitsInFields(CanonFields(fields))
    decreases fields, 0
  {
    if fields.Field? {
      CanonKeepsUnits(fields.value);
      CanonFieldsKeepUnits(fields.rest);
      InsertKeepsUnits(fields.key, Canon(fields.value), CanonFields(fields.rest));
    }
  }

  /** Parsing the canonical text returns the value, with its keys in canonical order and nothing left over. */
  lemma ParseReturnsTheValue(v: Json)
    requires UnitsIn(v)
    ensures Parse(CanonicalText(v)) == Some(Parsed(Canon(v), []))
  {
    hide Parse, Raw, Canon;
    CanonKeepsUnits(v);
    ParseInvertsRaw(Canon(v), []);
    assert Raw(Canon(v)) + [] == Raw(Canon(v));
  }

  /** Two values print to the same text exactly when they are the same value; key order never shows. */
  lemma SameTextExactlyWhenSame(v: Json, w: Json)
    requires UnitsIn(v) && UnitsIn(w) && Proper(v) && Proper(w)
    ensures CanonicalText(v) == CanonicalText(w) <==> Same(v, w)
  {
    hide Parse, Raw, Canon, Same;
    ParseReturnsTheValue(v);
    ParseReturnsTheValue(w);
    CanonIsEquality(v, w);
  }
}
