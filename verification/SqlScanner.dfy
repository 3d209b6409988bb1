/**
 * assertExecutorStatement of packages/server/src/pg-transactor.ts, against a declarative lexing of the
 * documented forms: quoted strings and identifiers with doubled quotes, dollar quotes, line comments and
 * nested block comments.
 */
module SqlScanner {
  import opened Wrappers
  import opened Utf16

  const MAX_SQL: nat := 10000000

  const NEWLINE := 0x0A
  const DASH := 0x2D
  const SLASH := 0x2F
  const STAR := 0x2A
  const SEMICOLON := 0x3B
  const SINGLE := 0x27
  const DOUBLE := 0x22
  const DOLLAR := 0x24

  predicate IsSpace(u: int) {
    || 9 <= u <= 13 || u == 32 || u == 0xA0 || u == 0x1680 || 0x2000 <= u <= 0x200A
    || u in {0x2028, 0x2029, 0x202F, 0x205F, 0x3000, 0xFEFF}
  }

  predicate WordStart(u: int) {
    65 <= u <= 90 || 97 <= u <= 122 || u == 0x5F
  }

  predicate TagPart(u: int) {
    WordStart(u) || 48 <= u <= 57
  }

  predicate WordPart(u: int) {
    TagPart(u) || u == DOLLAR
  }

  /** The unit at a position, or -1 past the end. */
  function At(sql: JsString, i: int): int {
    if 0 <= i < |sql| then sql[i] else -1
  }

  // ---- The reference lexing ----

  datatype Kind = Space | LineComment | BlockComment | Semicolon | Quoted | DollarQuoted | Word | Other

  /** A token occupies positions start up to end. */
  datatype Token = Token(kind: Kind, start: int, end: int)

  predicate LineCommentAt(sql: JsString, i: int, j: int) {
    && At(sql, i) == DASH && At(sql, i + 1) == DASH && i + 2 <= j <= |sql|
    && (forall k :: i + 2 <= k < j ==> At(sql, k) != NEWLINE)
    && (j == |sql| || At(sql, j) == NEWLINE)
  }

  /** From position p inside `depth` open comments, the outermost one closes at j. */
  predicate Closes(sql: JsString, p: int, depth: nat, j: int)
    decreases |sql| - p
  {
    if depth == 0 then p == j
    else if p < 0 || p >= |sql| then false
    else if sql[p] == SLASH && At(sql, p + 1) == STAR then p + 2 <= |sql| && Closes(sql, p + 2, depth + 1, j)
    else if sql[p] == STAR && At(sql, p + 1) == SLASH then p + 2 <= |sql| && Closes(sql, p + 2, depth - 1, j)
    else Closes(sql, p + 1, depth, j)
  }

  predicate BlockCommentAt(sql: JsString, i: int, j: int) {
    At(sql, i) == SLASH && At(sql, i + 1) == STAR && i + 2 <= j <= |sql| && Closes(sql, i + 2, 1, j)
  }

  /** Each quote in the content written twice. */
  function Doubled(content: JsString, quote: int): JsString {
    if |content| == 0 then []
    else (if content[0] == quote then [quote, quote] else [content[0]]) + Doubled(content[1..], quote)
  }

  predicate IsQuote(u: int) {
    u == SINGLE || u == DOUBLE
  }

  /** A quote, some content with its quotes doubled, and a closing quote that is not itself doubled. */
  ghost predicate QuotedAt(sql: JsString, i: int, j: int) {
    && 0 <= i < j <= |sql| && IsQuote(sql[i])
    && (exists content :: sql[i..j] == [sql[i]] + Doubled(content, sql[i]) + [sql[i]])
    && At(sql, j) != sql[i]
  }

  /** `$tag$` or `$$`. */
  predicate IsTag(tag: JsString) {
    && |tag| >= 2 && tag[0] == DOLLAR && tag[|tag| - 1] == DOLLAR
    && (|tag| > 2 ==> WordStart(tag[1]))
    && forall k :: 1 <= k < |tag| - 1 ==> TagPart(tag[k])
  }

  predicate Occurs(sql: JsString, tag: JsString, k: int) {
    0 <= k && k + |tag| <= |sql| && sql[k..k + |tag|] == tag
  }

  predicate StartsTag(sql: JsString, i: int, tag: JsString) {
    IsTag(tag) && Occurs(sql, tag, i)
  }

  /** From the tag to its first later occurrence. */
  predicate DollarQuotedWith(sql: JsString, i: int, j: int, tag: JsString) {
    && StartsTag(sql, i, tag)
    && i + 2 * |tag| <= j <= |sql| && Occurs(sql, tag, j - |tag|)
    && forall k :: i + |tag| <= k < j - |tag| ==> !Occurs(sql, tag, k)
  }

  ghost predicate DollarQuotedAt(sql: JsString, i: int, j: int) {
    exists tag :: DollarQuotedWith(sql, i, j, tag)
  }

  predicate WordAt(sql: JsString, i: int, j: int) {
    && 0 <= i < j <= |sql| && WordStart(sql[i])
    && (forall k :: i <= k < j ==> WordPart(sql[k]))
    && (j < |sql| ==> !WordPart(sql[j]))
  }

  ghost predicate TagAt(sql: JsString, i: int) {
    exists tag :: StartsTag(sql, i, tag)
  }

  /** A unit that begins none of the other forms. */
  ghost predicate OtherAt(sql: JsString, i: int) {
    var u := At(sql, i);
    && 0 <= i < |sql| && !IsSpace(u) && u != SEMICOLON && !IsQuote(u) && !WordStart(u)
    && !(u == DASH && At(sql, i + 1) == DASH)
    && !(u == SLASH && At(sql, i + 1) == STAR)
    && !TagAt(sql, i)
  }

  ghost predicate TokenOk(sql: JsString, t: Token) {
    match t.kind
    case Space => 0 <= t.start < |sql| && IsSpace(sql[t.start]) && t.end == t.start + 1
    case LineComment => LineCommentAt(sql, t.start, t.end)
    case BlockComment => BlockCommentAt(sql, t.start, t.end)
    case Semicolon => 0 <= t.start < |sql| && sql[t.start] == SEMICOLON && t.end == t.start + 1
    case Quoted => QuotedAt(sql, t.start, t.end)
    case DollarQuoted => DollarQuotedAt(sql, t.start, t.end)
    case Word => WordAt(sql, t.start, t.end)
    case Other => OtherAt(sql, t.start) && t.end == t.start + 1
  }

  /** The tokens lie end to end from position `from` and cover the rest of the text. */
  ghost predicate LexesFrom(sql: JsString, from: int, tokens: seq<Token>)
    decreases |tokens|
  {
    if |tokens| == 0 then from == |sql|
    else tokens[0].start == from && from < tokens[0].end && TokenOk(sql, tokens[0]) && LexesFrom(sql, tokens[0].end, tokens[1..])
  }

  predicate IsContent(t: Token) {
    t.kind == Quoted || t.kind == DollarQuoted || t.kind == Word || t.kind == Other
  }

  // ---- One statement ----

  /** The tokens that are not white space or comments. */
  function Visible(tokens: seq<Token>): seq<Token> {
    if |tokens| == 0 then []
    else (if IsContent(tokens[0]) || tokens[0].kind == Semicolon then [tokens[0]] else []) + Visible(tokens[1..])
  }

  /** Content, then at most one semicolon at the very end. */
  predicate OneStatement(visible: seq<Token>) {
    && |visible| > 0 && IsContent(visible[0])
    && forall i :: 0 <= i < |visible| - 1 ==> IsContent(visible[i])
  }

  function Upper(word: JsString): JsString {
    if |word| == 0 then [] else [if 97 <= word[0] <= 122 then word[0] - 32 else word[0]] + Upper(word[1..])
  }

  /** The first word of a statement, wherever it stands, in upper case. */
  function FirstWord(sql: JsString, visible: seq<Token>): Option<JsString> {
    if |visible| == 0 then None
    else if visible[0].kind == Word && 0 <= visible[0].start <= visible[0].end <= |sql|
    then Some(Upper(sql[visible[0].start..visible[0].end]))
    else FirstWord(sql, visible[1..])
  }

  const FORBIDDEN: seq<string> :=
    ["BEGIN", "START", "COMMIT", "END", "ROLLBACK", "ABORT", "SAVEPOINT", "RELEASE", "PREPARE",
     "SET", "RESET", "DISCARD", "CALL", "DO"]

  predicate Spells(word: JsString, text: string) {
    |word| == |text| && forall i :: 0 <= i < |text| ==> word[i] == text[i] as int
  }

  predicate IsForbidden(word: JsString) {
    exists i :: 0 <= i < |FORBIDDEN| && Spells(word, FORBIDDEN[i])
  }

  /** What the executor accepts, in terms of the reference lexing. */
  ghost predicate Acceptable(sql: JsString) {
    && 1 <= |sql| <= MAX_SQL
    && exists tokens ::
         && LexesFrom(sql, 0, tokens)
         && OneStatement(Visible(tokens))
         && (var w := FirstWord(sql, Visible(tokens)); w.Some? ==> !IsForbidden(w.value))
  }

  // ---- The lexing is unique ----

  lemma {:induction false} ClosesOnce(sql: JsString, p: int, depth: nat, j: int, k: int)
    requires Closes(sql, p, depth, j) && Closes(sql, p, depth, k)
    ensures j == k
    decreases |sql| - p
  {
    if depth > 0 {
      if sql[p] == SLASH && At(sql, p + 1) == STAR { ClosesOnce(sql, p + 2, depth + 1, j, k); }
      else if sql[p] == STAR && At(sql, p + 1) == SLASH { ClosesOnce(sql, p + 2, depth - 1, j, k); }
      else { ClosesOnce(sql, p + 1, depth, j, k); }
    }
  }

  /** The end of a quoted body, found from position p as the scanner does. */
  predicate QuoteEnds(sql: JsString, p: int, quote: int, j: int)
    decreases |sql| - p
  {
    if p < 0 || p >= |sql| then false
    else if sql[p] != quote then QuoteEnds(sql, p + 1, quote, j)
    else if At(sql, p + 1) == quote then QuoteEnds(sql, p + 2, quote, j)
    else j == p + 1
  }

  lemma {:induction false} QuoteEndsOnce(sql: JsString, p: int, quote: int, j: int, k: int)
    requires QuoteEnds(sql, p, quote, j) && QuoteEnds(sql, p, quote, k)
    ensures j == k
    decreases |sql| - p
  {
    if sql[p] != quote { QuoteEndsOnce(sql, p + 1, quote, j, k); }
    else if At(sql, p + 1) == quote { QuoteEndsOnce(sql, p + 2, quote, j, k); }
  }

  /** Content with its quotes doubled, followed by a lone quote, is what the scan runs over. */
  lemma {:induction false} DoubledEnds(sql: JsString, p: int, quote: int, content: JsString, j: int)
    requires 0 <= p < j <= |sql| && sql[p..j] == Doubled(content, quote) + [quote] && At(sql, j) != quote
    ensures QuoteEnds(sql, p, quote, j)
    decreases |content|
  {
    var body := Doubled(content, quote);
    assert forall k :: 0 <= k < j - p ==> sql[p + k] == sql[p..j][k];
    if |content| > 0 {
      var n := if content[0] == quote then 2 else 1;
      assert sql[p..j][0] == body[0];
      assert sql[p + n..j] == sql[p..j][n..] == Doubled(content[1..], quote) + [quote];
      if n == 2 { assert sql[p..j][1] == body[1]; }
      DoubledEnds(sql, p + n, quote, content[1..], j);
    } else {
      assert sql[p..j][0] == quote;
    }
  }

  /** And conversely, what the scan runs over is such content. */
  lemma {:induction false} EndsDoubled(sql: JsString, p: int, quote: int, j: int) returns (content: JsString)
    requires QuoteEnds(sql, p, quote, j)
    ensures 0 <= p < j <= |sql| && sql[p..j] == Doubled(content, quote) + [quote] && At(sql, j) != quote
    decreases |sql| - p
  {
    if sql[p] != quote || At(sql, p + 1) == quote {
      var n := if sql[p] == quote then 2 else 1;
      var rest := EndsDoubled(sql, p + n, quote, j);
      content := [sql[p]] + rest;
      assert content[1..] == rest;
      assert sql[p..j] == sql[p..p + n] + sql[p + n..j];
      assert sql[p..p + n] == if n == 2 then [quote, quote] else [sql[p]];
    } else {
      content := [];
      assert sql[p..j] == [quote];
    }
  }

  lemma QuotedMeansEnds(sql: JsString, i: int, j: int)
    ensures QuotedAt(sql, i, j) <==> 0 <= i < |sql| && IsQuote(sql[i]) && QuoteEnds(sql, i + 1, sql[i], j)
  {
    if QuotedAt(sql, i, j) {
      var content :| sql[i..j] == [sql[i]] + Doubled(content, sql[i]) + [sql[i]];
      assert |sql[i..j]| >= 2;
      assert sql[i + 1..j] == sql[i..j][1..] == Doubled(content, sql[i]) + [sql[i]];
      DoubledEnds(sql, i + 1, sql[i], content, j);
    }
    if 0 <= i < |sql| && IsQuote(sql[i]) && QuoteEnds(sql, i + 1, sql[i], j) {
      var content := EndsDoubled(sql, i + 1, sql[i], j);
      assert sql[i..j] == [sql[i]] + sql[i + 1..j];
      assert sql[i..j] == [sql[i]] + Doubled(content, sql[i]) + [sql[i]];
    }
  }

  lemma TagUnits(sql: JsString, i: int, tag: JsString)
    requires StartsTag(sql, i, tag)
    ensures forall k :: 0 <= k < |tag| ==> tag[k] == sql[i + k]
  {
    assert sql[i..i + |tag|] == tag;
  }

  /** A tag holds no dollar sign between its ends, so no tag is a proper prefix of another. */
  lemma NoShorterTag(sql: JsString, i: int, a: JsString, b: JsString)
    requires StartsTag(sql, i, a) && StartsTag(sql, i, b)
    ensures |a| >= |b|
  {
    TagUnits(sql, i, a);
    TagUnits(sql, i, b);
    assert |a| <= |b| ==> b[|a| - 1] == sql[i + |a| - 1];
  }

  lemma TagsAreUnique(sql: JsString, i: int, a: JsString, b: JsString)
    requires StartsTag(sql, i, a) && StartsTag(sql, i, b)
    ensures a == b
  {
    NoShorterTag(sql, i, a, b);
    NoShorterTag(sql, i, b, a);
  }

  lemma DollarQuoteIsUnique(sql: JsString, i: int, j: int, k: int)
    requires DollarQuotedAt(sql, i, j) && DollarQuotedAt(sql, i, k)
    ensures j == k
  {
    var a :| DollarQuotedWith(sql, i, j, a);
    var b :| DollarQuotedWith(sql, i, k, b);
    TagsAreUnique(sql, i, a, b);
  }

  lemma KindIsUnique(sql: JsString, t: Token, u: Token)
    requires TokenOk(sql, t) && TokenOk(sql, u) && t.start == u.start && 0 <= t.start < |sql|
    ensures t.kind == u.kind
  {
    hide Closes, Doubled;
    if t.kind == DollarQuoted { StartOfDollar(sql, t); }
    if u.kind == DollarQuoted { StartOfDollar(sql, u); }
  }

  lemma StartOfDollar(sql: JsString, t: Token)
    requires TokenOk(sql, t) && t.kind == DollarQuoted
    ensures 0 <= t.start < |sql| && sql[t.start] == DOLLAR && TagAt(sql, t.start)
  {
    var tag :| DollarQuotedWith(sql, t.start, t.end, tag);
    assert sql[t.start] == sql[t.start..t.start + |tag|][0];
  }

  lemma TokenIsUnique(sql: JsString, t: Token, u: Token)
    requires TokenOk(sql, t) && TokenOk(sql, u) && t.start == u.start && 0 <= t.start < |sql|
    ensures t == u
  {
    KindIsUnique(sql, t, u);
    hide Doubled;
    var i := t.start;
    match t.kind
    case Space =>
    case LineComment =>
    case BlockComment => ClosesOnce(sql, i + 2, 1, t.end, u.end);
    case Semicolon =>
    case Quoted => {
      QuotedMeansEnds(sql, i, t.end);
      QuotedMeansEnds(sql, i, u.end);
      QuoteEndsOnce(sql, i + 1, sql[i], t.end, u.end);
    }
    case DollarQuoted => DollarQuoteIsUnique(sql, i, t.end, u.end);
    case Word =>
    case Other =>
  }

  /** A text has at most one lexing. */
  lemma {:induction false} LexingIsUnique(sql: JsString, from: int, a: seq<Token>, b: seq<Token>)
    requires LexesFrom(sql, from, a) && LexesFrom(sql, from, b) && 0 <= from
    ensures a == b
    decreases |a|
  {
    hide TokenOk;
    if |a| > 0 && |b| > 0 {
      StartsInside(sql, a[0]);
      TokenIsUnique(sql, a[0], b[0]);
      LexingIsUnique(sql, a[0].end, a[1..], b[1..]);
      assert a == [a[0]] + a[1..] && b == [b[0]] + b[1..];
    } else {
      if |a| > 0 { StartsInside(sql, a[0]); }
      if |b| > 0 { StartsInside(sql, b[0]); }
    }
  }

  lemma StartsInside(sql: JsString, t: Token)
    requires TokenOk(sql, t)
    ensures 0 <= t.start < |sql| && t.end <= |sql|
  {
    hide Doubled;
    if t.kind == DollarQuoted { StartOfDollar(sql, t); }
    if t.kind == BlockComment { ClosesInside(sql, t.start + 2, 1, t.end); }
  }

  lemma {:induction false} ClosesInside(sql: JsString, p: int, depth: nat, j: int)
    requires Closes(sql, p, depth, j) && p <= |sql|
    ensures p <= j <= |sql|
    decreases |sql| - p
  {
    if depth > 0 {
      if sql[p] == SLASH && At(sql, p + 1) == STAR { ClosesInside(sql, p + 2, depth + 1, j); }
      else if sql[p] == STAR && At(sql, p + 1) == SLASH { ClosesInside(sql, p + 2, depth - 1, j); }
      else { ClosesInside(sql, p + 1, depth, j); }
    }
  }

  // ---- Building a lexing from the left ----

  /** The tokens lie end to end from the start of the text up to position `to`. */
  ghost predicate LexesTo(sql: JsString, tokens: seq<Token>, to: int)
    decreases |tokens|
  {
    if |tokens| == 0 then to == 0
    else
      var last := tokens[|tokens| - 1];
      last.end == to && last.start < to && TokenOk(sql, last) && LexesTo(sql, tokens[..|tokens| - 1], last.start)
  }

  lemma {:induction false} LexesJoined(sql: JsString, a: seq<Token>, to: int, b: seq<Token>)
    requires LexesTo(sql, a, to) && LexesFrom(sql, to, b)
    ensures LexesFrom(sql, 0, a + b)
    decreases |a|
  {
    hide TokenOk;
    if |a| == 0 {
      assert a + b == b;
    } else {
      var last := a[|a| - 1];
      assert ([last] + b)[1..] == b;
      LexesJoined(sql, a[..|a| - 1], last.start, [last] + b);
      assert a + b == a[..|a| - 1] + ([last] + b);
    }
  }

  /** The lexing of a text, if it has one, continues every lexing of a prefix of it. */
  lemma {:induction false} LexingContinues(sql: JsString, a: seq<Token>, to: int, all: seq<Token>)
    requires LexesTo(sql, a, to) && LexesFrom(sql, 0, all)
    ensures |a| <= |all| && all[..|a|] == a && LexesFrom(sql, to, all[|a|..])
    decreases |a|
  {
    hide TokenOk;
    if |a| == 0 {
      assert all[0..] == all;
    } else {
      var last, n := a[|a| - 1], |a| - 1;
      LexingContinues(sql, a[..n], last.start, all);
      StartsInside(sql, last);
      var rest := all[n..];
      assert |rest| > 0;
      StartsInside(sql, rest[0]);
      TokenIsUnique(sql, last, rest[0]);
      assert all[..n + 1] == all[..n] + [rest[0]];
      assert rest[1..] == all[n + 1..];
    }
  }

  /** Where no token can start, the text has no lexing. */
  lemma NoLexing(sql: JsString, a: seq<Token>, to: int, all: seq<Token>)
    requires LexesTo(sql, a, to) && to < |sql| && LexesFrom(sql, 0, all)
    ensures |a| < |all| && all[..|a|] == a && all[|a|].start == to && TokenOk(sql, all[|a|])
  {
    hide TokenOk;
    LexingContinues(sql, a, to, all);
    assert |all[|a|..]| > 0;
  }

  lemma {:induction false} VisibleConcat(a: seq<Token>, b: seq<Token>)
    ensures Visible(a + b) == Visible(a) + Visible(b)
  {
    if |a| == 0 {
      assert a + b == b;
    } else {
      VisibleConcat(a[1..], b);
      assert (a + b)[1..] == a[1..] + b && (a + b)[0] == a[0];
    }
  }

  lemma {:induction false} FirstWordConcat(sql: JsString, a: seq<Token>, b: seq<Token>)
    ensures FirstWord(sql, a + b) == if FirstWord(sql, a).Some? then FirstWord(sql, a) else FirstWord(sql, b)
  {
    if |a| == 0 {
      assert a + b == b;
    } else {
      FirstWordConcat(sql, a[1..], b);
      assert (a + b)[1..] == a[1..] + b && (a + b)[0] == a[0];
    }
  }

  // ---- The scanner ----

  method ScanLineComment(sql: JsString, i: nat) returns (j: nat)
    requires At(sql, i) == DASH && At(sql, i + 1) == DASH
    ensures LineCommentAt(sql, i, j)
  {
    j := i + 2;
    while j < |sql| && sql[j] != NEWLINE
      invariant i + 2 <= j <= |sql|
      invariant forall k :: i + 2 <= k < j ==> At(sql, k) != NEWLINE
    {
      j := j + 1;
    }
  }

  method ScanBlockComment(sql: JsString, i: nat) returns (end: Option<nat>)
    requires At(sql, i) == SLASH && At(sql, i + 1) == STAR
    ensures end.Some? ==> BlockCommentAt(sql, i, end.value)
    ensures end.None? ==> forall j :: !BlockCommentAt(sql, i, j)
  {
    var depth: nat, p := 1, i + 2;
    while p < |sql| && depth > 0
      invariant i + 2 <= p <= |sql|
      invariant forall j :: Closes(sql, i + 2, 1, j) <==> Closes(sql, p, depth, j)
    {
      ghost var depth0, p0 := depth, p;
      if sql[p] == SLASH && At(sql, p + 1) == STAR { depth, p := depth + 1, p + 2; }
      else if sql[p] == STAR && At(sql, p + 1) == SLASH { depth, p := depth - 1, p + 2; }
      else { p := p + 1; }
      forall j ensures Closes(sql, i + 2, 1, j) <==> Closes(sql, p, depth, j) {
        assert Closes(sql, p0, depth0, j) == Closes(sql, p, depth, j);
      }
    }
    if depth > 0 {
      forall j ensures !BlockCommentAt(sql, i, j) { assert !Closes(sql, p, depth, j); }
      return None;
    }
    assert Closes(sql, p, depth, p);
    return Some(p);
  }

  method ScanQuoted(sql: JsString, i: nat) returns (end: Option<nat>)
    requires i < |sql| && IsQuote(sql[i])
    ensures end.Some? ==> QuotedAt(sql, i, end.value)
    ensures end.None? ==> forall j :: !QuotedAt(sql, i, j)
  {
    var quote, p := sql[i], i + 1;
    while p < |sql|
      invariant i + 1 <= p <= |sql|
      invariant forall j :: QuoteEnds(sql, i + 1, quote, j) <==> QuoteEnds(sql, p, quote, j)
      decreases |sql| - p
    {
      ghost var p0 := p;
      if sql[p] == quote && At(sql, p + 1) != quote {
        assert QuoteEnds(sql, p, quote, p + 1);
        QuotedMeansEnds(sql, i, p + 1);
        return Some(p + 1);
      }
      p := if sql[p] == quote then p + 2 else p + 1;
      forall j ensures QuoteEnds(sql, i + 1, quote, j) <==> QuoteEnds(sql, p, quote, j) {
        assert QuoteEnds(sql, p0, quote, j) == QuoteEnds(sql, p, quote, j);
      }
    }
    forall j ensures !QuotedAt(sql, i, j) {
      assert !QuoteEnds(sql, p, quote, j);
      QuotedMeansEnds(sql, i, j);
    }
    return None;
  }

  /** The regular expression match for a dollar tag at a dollar sign. */
  method MatchTag(sql: JsString, i: nat) returns (tag: Option<JsString>)
    requires i < |sql| && sql[i] == DOLLAR
    ensures tag.Some? ==> StartsTag(sql, i, tag.value)
    ensures tag.None? ==> !TagAt(sql, i)
  {
    var p := i + 1;
    if At(sql, p) == DOLLAR {
      assert sql[i..i + 2] == [DOLLAR, DOLLAR];
      return Some([DOLLAR, DOLLAR]);
    }
    if WordStart(At(sql, p)) {
      while p < |sql| && TagPart(sql[p])
        invariant i + 1 <= p <= |sql|
        invariant forall k :: i + 1 <= k < p ==> TagPart(sql[k])
      {
        p := p + 1;
      }
      if At(sql, p) == DOLLAR {
        var t := sql[i..p + 1];
        assert t[0] == DOLLAR && t[|t| - 1] == DOLLAR;
        assert forall k :: 1 <= k < |t| - 1 ==> t[k] == sql[i + k];
        return Some(t);
      }
    }
    forall t | StartsTag(sql, i, t) ensures false {
      TagUnits(sql, i, t);
      TagReaches(sql, i, t, p);
    }
    return None;
  }

  /** A tag cannot end before the scan that looked for its closing dollar sign, nor at it. */
  lemma TagReaches(sql: JsString, i: nat, tag: JsString, p: int)
    requires i < |sql| && i + 1 <= p <= |sql| && (forall k :: i + 1 <= k < p ==> TagPart(sql[k]))
    requires StartsTag(sql, i, tag) && (forall k :: 0 <= k < |tag| ==> tag[k] == sql[i + k])
    ensures i + |tag| > p
    ensures i + |tag| == p + 1 ==> At(sql, p) == DOLLAR
    ensures i + |tag| > p + 1 ==> if p == i + 1 then WordStart(At(sql, p)) else TagPart(At(sql, p))
  {
    assert tag[|tag| - 1] == sql[i + |tag| - 1];
    if i + |tag| > p + 1 { assert tag[p - i] == sql[p]; }
  }

  /** indexOf: the first occurrence at or after a position. */
  method IndexOf(sql: JsString, tag: JsString, from: nat) returns (k: Option<nat>)
    requires from <= |sql|
    ensures k.Some? ==> from <= k.value && Occurs(sql, tag, k.value)
    ensures k.Some? ==> forall m :: from <= m < k.value ==> !Occurs(sql, tag, m)
    ensures k.None? ==> forall m :: from <= m ==> !Occurs(sql, tag, m)
  {
    var m := from;
    while m + |tag| <= |sql|
      invariant from <= m
      invariant forall x :: from <= x < m ==> !Occurs(sql, tag, x)
    {
      if sql[m..m + |tag|] == tag { return Some(m); }
      m := m + 1;
    }
    return None;
  }

  method ScanDollarQuoted(sql: JsString, i: nat, tag: JsString) returns (end: Option<nat>)
    requires StartsTag(sql, i, tag)
    ensures end.Some? ==> DollarQuotedAt(sql, i, end.value)
    ensures end.None? ==> forall j :: !DollarQuotedAt(sql, i, j)
  {
    var k := IndexOf(sql, tag, i + |tag|);
    if k.None? {
      forall j | DollarQuotedAt(sql, i, j) ensures false {
        var t :| DollarQuotedWith(sql, i, j, t);
        TagsAreUnique(sql, i, t, tag);
      }
      return None;
    }
    assert DollarQuotedWith(sql, i, k.value + |tag|, tag);
    return Some(k.value + |tag|);
  }

  method ScanWord(sql: JsString, i: nat) returns (j: nat)
    requires i < |sql| && WordStart(sql[i])
    ensures WordAt(sql, i, j)
  {
    j := i + 1;
    while j < |sql| && WordPart(sql[j])
      invariant i < j <= |sql|
      invariant forall k :: i <= k < j ==> WordPart(sql[k])
    {
      j := j + 1;
    }
  }

  // ---- The verdict ----

  /** No more content or semicolons may follow than one statement has. */
  predicate StatementPrefix(visible: seq<Token>) {
    && (|visible| > 0 ==> IsContent(visible[0]))
    && forall i :: 0 <= i < |visible| - 1 ==> IsContent(visible[i])
  }

  /** A lexing that has gone wrong cannot be completed to an acceptable one. */
  lemma BadPrefix(sql: JsString, a: seq<Token>, to: int, all: seq<Token>)
    requires LexesTo(sql, a, to) && LexesFrom(sql, 0, all) && OneStatement(Visible(all))
    ensures StatementPrefix(Visible(a))
  {
    hide TokenOk;
    LexingContinues(sql, a, to, all);
    assert all == a + all[|a|..];
    VisibleConcat(a, all[|a|..]);
    var v, w := Visible(a), Visible(all);
    hide Visible;
    assert |v| <= |w| && forall i :: 0 <= i < |v| ==> v[i] == w[i];
  }

  lemma Unacceptable(sql: JsString, a: seq<Token>, to: int)
    requires LexesTo(sql, a, to) && !StatementPrefix(Visible(a))
    ensures !Acceptable(sql)
  {
    hide TokenOk, LexesTo, LexesFrom, OneStatement, StatementPrefix, Visible, FirstWord;
    forall all | LexesFrom(sql, 0, all) && OneStatement(Visible(all)) ensures false { BadPrefix(sql, a, to, all); }
  }

  /** Where the scanner finds a form without an end, no token starts. */
  lemma Unterminated(sql: JsString, a: seq<Token>, to: int)
    requires LexesTo(sql, a, to) && to < |sql|
    requires forall t: Token :: t.start == to ==> !TokenOk(sql, t)
    ensures !Acceptable(sql)
  {
    hide TokenOk, LexesTo, OneStatement, Visible, FirstWord;
    forall all | LexesFrom(sql, 0, all) ensures false { NoLexing(sql, a, to, all); }
  }

  lemma OneMore(sql: JsString, a: seq<Token>, to: int, t: Token)
    requires LexesTo(sql, a, to) && t.start == to < t.end && TokenOk(sql, t)
    ensures LexesTo(sql, a + [t], t.end)
    ensures Visible(a + [t]) == Visible(a) + (if IsContent(t) || t.kind == Semicolon then [t] else [])
    ensures FirstWord(sql, Visible(a + [t])) ==
            if FirstWord(sql, Visible(a)).Some? then FirstWord(sql, Visible(a)) else FirstWord(sql, Visible([t]))
  {
    hide TokenOk;
    assert (a + [t])[..|a|] == a;
    VisibleConcat(a, [t]);
    FirstWordConcat(sql, Visible(a), Visible([t]));
  }

  /** The scanner's flags, in terms of the tokens read so far. */
  predicate Flags(sql: JsString, tokens: seq<Token>, hasContent: bool, ended: bool, firstWord: Option<JsString>) {
    var v := Visible(tokens);
    && firstWord == FirstWord(sql, v)
    && (hasContent <==> |v| > 0)
    && (|v| > 0 ==> IsContent(v[0]))
    && (ended <==> |v| > 0 && v[|v| - 1].kind == Semicolon)
    && (forall i :: 0 <= i < |v| - 1 ==> IsContent(v[i]))
    && (!ended && |v| > 0 ==> IsContent(v[|v| - 1]))
  }

  lemma FlagsAtEnd(sql: JsString, tokens: seq<Token>, hasContent: bool, ended: bool, firstWord: Option<JsString>)
    requires Flags(sql, tokens, hasContent, ended, firstWord) && LexesTo(sql, tokens, |sql|) && 1 <= |sql| <= MAX_SQL
    ensures Acceptable(sql) <==> hasContent && (firstWord.Some? ==> !IsForbidden(firstWord.value))
  {
    hide TokenOk, LexesTo, Visible, FirstWord, IsForbidden;
    assert LexesFrom(sql, |sql|, []);
    LexesJoined(sql, tokens, |sql|, []);
    assert tokens + [] == tokens;
    forall all | LexesFrom(sql, 0, all) ensures all == tokens { LexingIsUnique(sql, 0, all, tokens); }
  }

  /** Tokens that show nothing: white space and comments. */
  lemma FlagsSkip(sql: JsString, tokens: seq<Token>, hasContent: bool, ended: bool, firstWord: Option<JsString>, t: Token)
    requires Flags(sql, tokens, hasContent, ended, firstWord)
    requires Visible(tokens + [t]) == Visible(tokens)
    ensures Flags(sql, tokens + [t], hasContent, ended, firstWord)
  {
  }

  lemma FlagsContent(sql: JsString, tokens: seq<Token>, hasContent: bool, firstWord: Option<JsString>, t: Token)
    requires Flags(sql, tokens, hasContent, false, firstWord) && IsContent(t)
    requires Visible(tokens + [t]) == Visible(tokens) + [t]
    ensures Flags(sql, tokens + [t], true, false, FirstWord(sql, Visible(tokens + [t])))
  {
  }

  lemma FlagsEnd(sql: JsString, tokens: seq<Token>, firstWord: Option<JsString>, t: Token)
    requires Flags(sql, tokens, true, false, firstWord) && t.kind == Semicolon
    requires Visible(tokens + [t]) == Visible(tokens) + [t] && FirstWord(sql, Visible(tokens + [t])) == firstWord
    ensures Flags(sql, tokens + [t], true, true, firstWord)
  {
  }

  /** The token that starts at a position, or none when the form that starts there has no end. */
  method NextToken(sql: JsString, i: nat) returns (t: Option<Token>)
    requires i < |sql|
    ensures t.Some? ==> t.value.start == i < t.value.end <= |sql| && TokenOk(sql, t.value)
    ensures t.None? ==> forall u: Token :: u.start == i ==> !TokenOk(sql, u)
  {
    hide Closes, Doubled;
    var ch, next := sql[i], At(sql, i + 1);
    if IsSpace(ch) { return Some(Token(Space, i, i + 1)); }
    if ch == DASH && next == DASH {
      var j := ScanLineComment(sql, i);
      return Some(Token(LineComment, i, j));
    }
    if ch == SLASH && next == STAR {
      var end := ScanBlockComment(sql, i);
      if end.Some? { return Some(Token(BlockComment, i, end.value)); }
      forall u: Token | u.start == i ensures !TokenOk(sql, u) { OnlyKind(sql, u, BlockComment); }
      return None;
    }
    if ch == SEMICOLON { return Some(Token(Semicolon, i, i + 1)); }
    if IsQuote(ch) {
      var end := ScanQuoted(sql, i);
      if end.Some? { return Some(Token(Quoted, i, end.value)); }
      forall u: Token | u.start == i ensures !TokenOk(sql, u) { OnlyKind(sql, u, Quoted); }
      return None;
    }
    if ch == DOLLAR {
      var tag := MatchTag(sql, i);
      if tag.Some? {
        var end := ScanDollarQuoted(sql, i, tag.value);
        if end.Some? {
          StartsInside(sql, Token(DollarQuoted, i, end.value));
          DollarIsLong(sql, i, end.value);
          return Some(Token(DollarQuoted, i, end.value));
        }
        forall u: Token | u.start == i ensures !TokenOk(sql, u) { OnlyKind(sql, u, DollarQuoted); }
        return None;
      }
    }
    if WordStart(ch) {
      var j := ScanWord(sql, i);
      return Some(Token(Word, i, j));
    }
    assert OtherAt(sql, i) by { if TagAt(sql, i) { TagIsDollar(sql, i); } }
    return Some(Token(Other, i, i + 1));
  }

  lemma TagIsDollar(sql: JsString, i: int)
    requires TagAt(sql, i)
    ensures 0 <= i < |sql| && sql[i] == DOLLAR
  {
    var tag :| StartsTag(sql, i, tag);
    TagUnits(sql, i, tag);
    assert tag[0] == sql[i + 0];
  }

  lemma DollarIsLong(sql: JsString, i: int, j: int)
    requires DollarQuotedAt(sql, i, j)
    ensures i < j
  {
  }

  /** A comment, quote or dollar quote can only be that, whether or not it ends. */
  lemma OnlyKind(sql: JsString, u: Token, kind: Kind)
    requires 0 <= u.start < |sql|
    requires kind == BlockComment || kind == Quoted || kind == DollarQuoted
    requires kind == BlockComment ==> sql[u.start] == SLASH && At(sql, u.start + 1) == STAR
    requires kind == Quoted ==> IsQuote(sql[u.start])
    requires kind == DollarQuoted ==> TagAt(sql, u.start)
    ensures TokenOk(sql, u) ==> u.kind == kind
  {
    hide Closes, Doubled;
    if kind == DollarQuoted { TagIsDollar(sql, u.start); }
    if TokenOk(sql, u) && u.kind == DollarQuoted { StartOfDollar(sql, u); }
  }

  lemma LengthMatters(sql: JsString)
    requires |sql| < 1 || |sql| > MAX_SQL
    ensures !Acceptable(sql)
  {
  }

  lemma NothingRead(sql: JsString)
    ensures LexesTo(sql, [], 0) && Flags(sql, [], false, false, None)
  {
  }

  /** Content or a semicolon after the end, or a semicolon before any content. */
  lemma SecondStatement(sql: JsString, tokens: seq<Token>, hasContent: bool, ended: bool, firstWord: Option<JsString>, t: Token)
    requires Flags(sql, tokens, hasContent, ended, firstWord) && Visible(tokens + [t]) == Visible(tokens) + [t]
    requires ended || (t.kind == Semicolon && !hasContent)
    ensures !StatementPrefix(Visible(tokens + [t]))
  {
    hide FirstWord;
    var v := Visible(tokens);
    if ended {
      assert (v + [t])[|v| - 1] == v[|v| - 1];
    } else {
      assert (v + [t])[0] == t;
    }
  }

  lemma NoWord(sql: JsString, t: Token)
    requires t.kind == Semicolon
    ensures FirstWord(sql, Visible([t])) == None
  {
    assert [t][1..] == [];
  }

  lemma WordOf(sql: JsString, t: Token)
    requires IsContent(t) && 0 <= t.start <= t.end <= |sql|
    ensures FirstWord(sql, Visible([t])) == if t.kind == Word then Some(Upper(sql[t.start..t.end])) else None
  {
    assert [t][1..] == [];
  }

  lemma FlagsKnowTheWord(sql: JsString, tokens: seq<Token>, hasContent: bool, ended: bool, firstWord: Option<JsString>)
    requires Flags(sql, tokens, hasContent, ended, firstWord)
    ensures firstWord == FirstWord(sql, Visible(tokens))
  {
  }

  /** assertExecutorStatement: accepts exactly the texts whose lexing is one permitted statement. */
  method AssertExecutorStatement(sql: JsString) returns (accepted: bool)
    ensures accepted <==> Acceptable(sql)
  {
    hide TokenOk, LexesTo, LexesFrom, Flags, FirstWord, Visible, Acceptable, StatementPrefix, OneStatement, IsForbidden;
    if |sql| < 1 || |sql| > MAX_SQL { LengthMatters(sql); return false; }
    var i, hasContent, ended := 0, false, false;
    var firstWord: Option<JsString> := None;
    ghost var tokens: seq<Token> := [];
    NothingRead(sql);
    while i < |sql|
      invariant 0 <= i <= |sql|
      invariant LexesTo(sql, tokens, i) && Flags(sql, tokens, hasContent, ended, firstWord)
      decreases |sql| - i
    {
      var next := NextToken(sql, i);
      if next.None? { Unterminated(sql, tokens, i); return false; }
      var t := next.value;
      OneMore(sql, tokens, i, t);
      if t.kind == Semicolon {
        if !hasContent || ended {
          SecondStatement(sql, tokens, hasContent, ended, firstWord, t);
          Unacceptable(sql, tokens + [t], t.end);
          return false;
        }
        NoWord(sql, t);
        FlagsKnowTheWord(sql, tokens, hasContent, ended, firstWord);
        FlagsEnd(sql, tokens, firstWord, t);
        ended := true;
      } else if t.kind == Space || t.kind == LineComment || t.kind == BlockComment {
        FlagsSkip(sql, tokens, hasContent, ended, firstWord, t);
      } else {
        if ended {
          SecondStatement(sql, tokens, hasContent, ended, firstWord, t);
          Unacceptable(sql, tokens + [t], t.end);
          return false;
        }
        FlagsContent(sql, tokens, hasContent, firstWord, t);
        WordOf(sql, t);
        FlagsKnowTheWord(sql, tokens, hasContent, ended, firstWord);
        hasContent := true;
        if firstWord.None? && t.kind == Word { firstWord := Some(Upper(sql[t.start..t.end])); }
      }
      tokens := tokens + [t];
      i := t.end;
    }
    FlagsAtEnd(sql, tokens, hasContent, ended, firstWord);
    if !hasContent { return false; }
    return firstWord.None? || !IsForbidden(firstWord.value);
  }
}
