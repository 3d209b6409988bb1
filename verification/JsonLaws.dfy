/**
 * What RFC 8785 asks of the text besides that it can be read back: keys in the order of their first differing code
 * unit (section 3.2.3), and the shortest escapes with lower-case digits (section 3.2.2.2).
 */
module JsonLaws {
  import opened Wrappers
  import opened Utf16
  import opened CanonicalJson
  import opened CanonicalWalk

  /** Before b: at the first unit where the two differ a has the smaller one, or a ends there. */
  ghost predicate Precedes(a: JsString, b: JsString) {
    exists k: nat :: FirstDifference(a, b, k)
  }

  predicate FirstDifference(a: JsString, b: JsString, k: nat) {
    && k <= |a| && k < |b| && (forall i :: 0 <= i < k ==> a[i] == b[i])
    && (k < |a| ==> a[k] < b[k])
  }

  lemma {:induction false} LessIsPrecedes(a: JsString, b: JsString)
    ensures Less(a, b) <==> Precedes(a, b)
  {
    if |a| > 0 && |b| > 0 {
      LessIsPrecedes(a[1..], b[1..]);
      if Less(a, b) {
        if a[0] < b[0] {
          assert FirstDifference(a, b, 0);
        } else {
          var k: nat :| FirstDifference(a[1..], b[1..], k);
          forall i | 0 <= i < k + 1 ensures a[i] == b[i] { if i > 0 { assert a[1..][i - 1] == b[1..][i - 1]; } }
          assert FirstDifference(a, b, k + 1);
        }
      }
      if Precedes(a, b) {
        var k: nat :| FirstDifference(a, b, k);
        if k > 0 { assert FirstDifference(a[1..], b[1..], k - 1); }
      }
    } else if |b| > 0 {
      assert FirstDifference(a, b, 0);
    }
  }

  /** The keys of an object, in the order they stand. */
  function Keys(fields: Fields): seq<JsString> {
    match fields
    case NoFields => []
    case Field(k, _, rest) => [k] + Keys(rest)
  }

  lemma {:induction false} SortedKeys(fields: Fields, i: nat, j: nat)
    requires Sorted(fields) && i < j < |Keys(fields)|
    ensures Precedes(Keys(fields)[i], Keys(fields)[j])
  {
    if i > 0 {
      SortedKeys(fields.rest, i - 1, j - 1);
    } else {
      LessThanAll(fields, j - 1);
      LessIsPrecedes(fields.key, Keys(fields)[j]);
    }
  }

  lemma {:induction false} LessThanAll(fields: Fields, j: nat)
    requires Sorted(fields) && fields.Field? && j < |Keys(fields.rest)|
    ensures Less(fields.key, Keys(fields.rest)[j])
  {
    if j > 0 {
      LessThanAll(fields.rest, j - 1);
      LessIsTransitive(fields.key, fields.rest.key, Keys(fields.rest)[j]);
    }
  }

  /** In the canonical form of an object with distinct keys, every key precedes every later one. */
  lemma CanonicalKeysAreInOrder(fields: Fields, i: nat, j: nat)
    requires Distinct(fields) && i < j < |Keys(CanonFields(fields))|
    ensures Precedes(Keys(CanonFields(fields))[i], Keys(CanonFields(fields))[j])
  {
    CanonFieldsSorted(fields);
    SortedKeys(CanonFields(fields), i, j);
  }

  /** The keys of the example in section 3.2.3, in the order it sorts them: a surrogate pair stands before U+FB33. */
  lemma ExampleOrder()
    ensures Less([0x0D], [0x31]) && Less([0x31], [0x80]) && Less([0x80], [0xF6]) && Less([0xF6], [0x20AC])
    ensures Less([0x20AC], [0xD83D, 0xDE00]) && Less([0xD83D, 0xDE00], [0xFB33])
    ensures Less([0x31], [0x31, 0x30]) && !Less([0x31, 0x30], [0x31])
  {
    assert [0x31][1..] == [] && [0x31, 0x30][1..] == [0x30];
  }

  /** The digit of a value below sixteen. */
  predicate LowerHex(digit: int, value: int) {
    (0 <= value < 10 && digit == 0x30 + value) || (10 <= value < 16 && digit == 0x61 + value - 10)
  }

  /** Two-letter escapes: quotation mark, backslash, backspace, form feed, line feed, carriage return, tab. */
  const SHORT: seq<(int, int)> :=
    [(0x22, 0x22), (0x5C, 0x5C), (0x08, 0x62), (0x0C, 0x66), (0x0A, 0x6E), (0x0D, 0x72), (0x09, 0x74)]

  ghost predicate ShortEscape(u: int, letter: int) {
    exists i :: 0 <= i < |SHORT| && SHORT[i] == (u, letter)
  }

  predicate HasShort(u: int) {
    exists i :: 0 <= i < |SHORT| && SHORT[i].0 == u
  }

  lemma ShortIs(u: int)
    ensures HasShort(u) <==> u == 0x22 || u == 0x5C || u == 0x08 || u == 0x0C || u == 0x0A || u == 0x0D || u == 0x09
    ensures SHORT[0] == (0x22, 0x22) && SHORT[1] == (0x5C, 0x5C) && SHORT[2] == (0x08, 0x62) && SHORT[3] == (0x0C, 0x66)
            && SHORT[4] == (0x0A, 0x6E) && SHORT[5] == (0x0D, 0x72) && SHORT[6] == (0x09, 0x74)
  {
    assert SHORT[0].0 == 0x22 && SHORT[1].0 == 0x5C && SHORT[2].0 == 0x08 && SHORT[3].0 == 0x0C;
    assert SHORT[4].0 == 0x0A && SHORT[5].0 == 0x0D && SHORT[6].0 == 0x09;
  }

  /** Exactly the units below a space, the quotation mark and the backslash are escaped, in the shortest form each has. */
  lemma EscapesAreShortest(u: int)
    requires Unit(u)
    ensures Escaped(u) == [u] <==> u >= 0x20 && u != 0x22 && u != 0x5C
    ensures HasShort(u) <==> |Escaped(u)| == 2
    ensures HasShort(u) ==> Escaped(u)[0] == 0x5C && ShortEscape(u, Escaped(u)[1])
    ensures u < 0x20 && !HasShort(u) ==>
              && |Escaped(u)| == 6 && Escaped(u)[..4] == [0x5C, 0x75, 0x30, 0x30]
              && LowerHex(Escaped(u)[4], u / 16) && LowerHex(Escaped(u)[5], u % 16)
  {
    ShortIs(u);
  }

  // ---- What is refused ----

  function Max(a: nat, b: nat): nat {
    if a >= b then a else b
  }

  /** How deep values are nested in one. */
  function Height(v: Json): nat {
    match v
    case Array(items) => ItemsHeight(items)
    case Object(fields) => FieldsHeight(fields)
    case _ => 0
  }

  function ItemsHeight(items: Items): nat {
    match items
    case NoItems => 0
    case Item(head, tail) => Max(1 + Height(head), ItemsHeight(tail))
  }

  function FieldsHeight(fields: Fields): nat {
    match fields
    case NoFields => 0
    case Field(_, value, rest) => Max(1 + Height(value), FieldsHeight(rest))
  }

  /** The strings, keys and numbers anywhere in a value. */
  datatype Leaf = String(text: JsString) | Key(key: JsString) | Int(n: int)

  function Leaves(v: Json): set<Leaf> {
    match v
    case Number(n) => {Int(n)}
    case Text(text) => {String(text)}
    case Array(items) => ItemLeaves(items)
    case Object(fields) => FieldLeaves(fields)
    case _ => {}
  }

  function ItemLeaves(items: Items): set<Leaf> {
    match items
    case NoItems => {}
    case Item(head, tail) => Leaves(head) + ItemLeaves(tail)
  }

  function FieldLeaves(fields: Fields): set<Leaf> {
    match fields
    case NoFields => {}
    case Field(key, value, rest) => {Key(key)} + Leaves(value) + FieldLeaves(rest)
  }

  /** `__proto__` */
  predicate IsProto(key: JsString) {
    |key| == 9 && key[0] == 0x5F && key[1] == 0x5F && key[2] == 0x70 && key[3] == 0x72 && key[4] == 0x6F && key[5] == 0x74
    && key[6] == 0x6F && key[7] == 0x5F && key[8] == 0x5F
  }

  predicate LeafOk(leaf: Leaf) {
    match leaf
    case String(text) => WellFormed(text) && |Utf8(text)| <= 65536
    case Key(key) => WellFormed(key) && |Utf8(key)| <= 65536 && !IsProto(key)
    case Int(n) => -9007199254740991 <= n <= 9007199254740991
  }

  lemma {:induction false} AcceptableByParts(v: Json, depth: nat)
    ensures Acceptable(v, depth) <==> depth + Height(v) <= 64 && forall leaf :: leaf in Leaves(v) ==> LeafOk(leaf)
    decreases v
  {
    match v
    case Array(items) => ItemsByParts(items, depth + 1);
    case Object(fields) => FieldsByParts(fields, depth + 1);
    case Number(n) => {
      assert Leaves(v) == {Int(n)} && MAX_SAFE == 9007199254740991;
      assert LeafOk(Int(n)) <==> -9007199254740991 <= n <= 9007199254740991;
    }
    case Text(text) => {
      assert Leaves(v) == {String(text)};
      assert LeafOk(String(text)) <==> StringOk(text);
    }
    case _ =>
    hide WellFormed, Utf8;
  }

  lemma {:induction false} ItemsByParts(items: Items, depth: nat)
    requires depth >= 1
    ensures depth <= 65 ==>
              (AcceptableItems(items, depth) <==>
                 depth - 1 + ItemsHeight(items) <= 64 && forall leaf :: leaf in ItemLeaves(items) ==> LeafOk(leaf))
    decreases items
  {
    if items.Item? {
      AcceptableByParts(items.head, depth);
      ItemsByParts(items.tail, depth);
    }
    hide LeafOk, Acceptable;
  }

  lemma {:induction false} FieldsByParts(fields: Fields, depth: nat)
    requires depth >= 1
    ensures depth <= 65 ==>
              (AcceptableFields(fields, depth) <==>
                 depth - 1 + FieldsHeight(fields) <= 64 && forall leaf :: leaf in FieldLeaves(fields) ==> LeafOk(leaf))
    decreases fields
  {
    if fields.Field? {
      AcceptableByParts(fields.value, depth);
      FieldsByParts(fields.rest, depth);
      assert LeafOk(Key(fields.key)) <==> fields.key != PROTO && StringOk(fields.key) by { hide WellFormed, Utf8; }
      assert Key(fields.key) in FieldLeaves(fields);
    }
    hide LeafOk, Acceptable;
  }

  /**
   * A value has a canonical text exactly when it is nested at most 64 deep, its strings and keys are well-formed and
   * of at most 65536 bytes, no key is `__proto__`, its numbers are safe integers, it has at most 10000 nodes and its
   * text at most 1048576 bytes.
   */
  lemma AcceptedByParts(v: Json)
    ensures Accepted(v) <==>
              && Height(v) <= 64 && (forall leaf :: leaf in Leaves(v) ==> LeafOk(leaf))
              && Nodes(v) <= 10000 && Bytes(Canon(v)) <= 1048576
    ensures Accepted(v) ==> |Utf8(CanonicalText(v))| <= 1048576
  {
    AcceptableByParts(v, 0);
    if Accepted(v) { AcceptedOutputIsBounded(v); }
    hide Utf8, Acceptable, LeafOk;
  }
}
