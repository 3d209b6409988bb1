/**
 * Early commits among the texts the scanner accepts: as the server lexes a text, one of its statements begins with
 * COMMIT or END. Over which code units can such a text be written?
 */
module EarlyCommit {
  import opened Wrappers
  import opened Utf16
  import opened SqlScanner
  import opened ServerLexing

  /** COMMIT, or END, which means the same. */
  predicate CommitWord(sql: JsString, t: Token) {
    && t.kind == Word && 0 <= t.start <= t.end <= |sql|
    && var word := Upper(sql[t.start..t.end]); Spells(word, "COMMIT") || Spells(word, "END")
  }

  predicate CommitsAt(sql: JsString, visible: seq<Token>, i: int) {
    && 0 <= i < |visible| && (i > 0 ==> visible[i - 1].kind == Semicolon)
    && CommitWord(sql, visible[i])
  }

  /** As the server reads the text, one of its statements begins with COMMIT or END. */
  ghost predicate HoldsCommit(sql: JsString) {
    exists tokens, i :: ServerLexes(sql, 0, false, tokens) && CommitsAt(sql, Visible(tokens), i)
  }

  /** The keyword, given in upper case, can be written in some mix of cases. */
  predicate Spellable(keyword: string, units: set<int>) {
    forall k :: 0 <= k < |keyword| ==> keyword[k] as int in units || keyword[k] as int + 32 in units
  }

  /**
   * COMMIT or END can be written, and so can a form that hides it: an escaped string or a dollar sign after a letter
   * past ASCII, with a semicolon, or a carriage return in a comment, with a semicolon or a line feed.
   */
  predicate CommitWritable(units: set<int>) {
    && (Spellable("COMMIT", units) || Spellable("END", units))
    && (|| (SEMICOLON in units && (Escapes(units) || (DOLLAR in units && !AsciiOnly(units))))
        || (Returns(units) && (SEMICOLON in units || NEWLINE in units)))
  }

  // ---- What such a text needs ----

  lemma {:induction false} UpperAt(word: JsString, k: nat)
    requires k < |word|
    ensures |Upper(word)| == |word| && Upper(word)[k] == if 97 <= word[k] <= 122 then word[k] - 32 else word[k]
  {
    if |word| > 1 { UpperAt(word[1..], if k == 0 then 0 else k - 1); }
  }

  lemma SpelledOver(sql: JsString, units: set<int>, t: Token, keyword: string)
    requires Over(sql, units) && 0 <= t.start <= t.end <= |sql|
    requires Spells(Upper(sql[t.start..t.end]), keyword)
    ensures Spellable(keyword, units)
  {
    var word := sql[t.start..t.end];
    hide Upper;
    if |word| > 0 { UpperAt(word, 0); }
    forall k | 0 <= k < |keyword| ensures keyword[k] as int in units || keyword[k] as int + 32 in units {
      if |word| == 0 { EmptyUpper(); }
      UpperAt(word, k);
      assert word[k] == sql[t.start + k];
    }
  }

  lemma EmptyUpper()
    ensures |Upper([])| == 0
  {
  }

  /** A semicolon, or a word of ASCII letters alone: where the server sees one, so does the scanner. */
  predicate Firm(sql: JsString, t: Token) {
    || t.kind == Semicolon
    || (t.kind == Word && 0 <= t.start <= t.end <= |sql| && forall k :: t.start <= k < t.end ==> WordStart(sql[k]))
  }

  /** No two tokens that differ but the parts of a word. */
  predicate Aligned(units: set<int>) {
    !Escapes(units) && !Returns(units) && (AsciiOnly(units) || DOLLAR !in units)
  }

  /** Inside one of the server's words the scanner finds words, white space and other units, up to its very end. */
  lemma {:induction false} Reaches(sql: JsString, p: nat, q: nat, a: seq<Token>) returns (n: nat)
    requires LexesFrom(sql, p, a) && p <= q <= |sql| && (q < |sql| ==> !ServerPart(sql[q]))
    requires forall k :: p <= k < q ==> ServerPart(sql[k]) && sql[k] != DOLLAR
    ensures n <= |a| && LexesFrom(sql, q, a[n..])
    decreases q - p
  {
    if p == q { return 0; }
    StartsInside(sql, a[0]);
    if a[0].kind == DollarQuoted { StartOfDollar(sql, a[0]); }
    assert a[0].end <= q by { hide QuotedAt, Closes, OtherAt; }
    var m := Reaches(sql, a[0].end, q, a[1..]);
    n := m + 1;
    assert a[1..][m..] == a[n..];
  }

  lemma FirmIsWord(sql: JsString, t: Token, escapes: bool)
    requires ServerToken(sql, t, escapes) && Firm(sql, t)
    ensures TokenOk(sql, t)
  {
  }

  /** Any token but a word is the scanner's as well. */
  lemma SameButWords(sql: JsString, units: set<int>, t: Token, escapes: bool)
    requires Over(sql, units) && Aligned(units) && (escapes ==> UPPER_E in units || LOWER_E in units)
    requires ServerToken(sql, t, escapes) && (t.kind == Word ==> AsciiOnly(units))
    ensures TokenOk(sql, t)
  {
    match t.kind
    case LineComment => SameComment(sql, units, t, escapes);
    case Quoted => SameQuoted(sql, units, t, escapes);
    case DollarQuoted => SameDollar(sql, units, t, escapes);
    case Other => SameTagAt(sql, units, t.start);
    case Word => {
      forall k | 0 <= k < |sql| ensures !BeyondAscii(sql[k]) { assert sql[k] in units; }
    }
    case _ =>
  }

  /** The scanner has a boundary where a server token ends. */
  lemma NextBoundary(sql: JsString, units: set<int>, p: nat, escapes: bool, a: seq<Token>, t: Token) returns (n: nat)
    requires Over(sql, units) && Aligned(units) && (escapes ==> UPPER_E in units || LOWER_E in units)
    requires LexesFrom(sql, p, a) && t.start == p < t.end && ServerToken(sql, t, escapes)
    ensures n <= |a| && LexesFrom(sql, t.end, a[n..])
    ensures Firm(sql, t) ==> n == 1 && a[0] == t
  {
    if t.kind == Word && !AsciiOnly(units) && !Firm(sql, t) {
      forall k | 0 <= k < |sql| ensures sql[k] != DOLLAR { assert sql[k] in units; }
      n := Reaches(sql, p, t.end, a);
    } else {
      if Firm(sql, t) { FirmIsWord(sql, t, escapes); } else { SameButWords(sql, units, t, escapes); }
      hide TokenOk, ServerToken;
      StartsInside(sql, t);
      TokenIsUnique(sql, a[0], t);
      n := 1;
    }
  }

  /** A firm token of the server is one of the scanner's. */
  lemma {:induction false} Shared(sql: JsString, units: set<int>, p: nat, escapes: bool, a: seq<Token>, b: seq<Token>, m: nat)
    requires Over(sql, units) && Aligned(units) && (escapes ==> UPPER_E in units || LOWER_E in units)
    requires LexesFrom(sql, p, a) && ServerLexes(sql, p, escapes, b) && m < |b| && Firm(sql, b[m])
    ensures b[m] in a
    decreases |b|
  {
    hide TokenOk, ServerToken, Aligned, Over, Firm, EscapePrefix;
    var n := NextBoundary(sql, units, p, escapes, a, b[0]);
    if m > 0 {
      if EscapePrefix(sql, b[0]) { PrefixUnit(sql, units, b[0]); }
      Shared(sql, units, b[0].end, EscapePrefix(sql, b[0]), a[n..], b[1..], m - 1);
    }
  }

  lemma {:induction false} StartsRise(sql: JsString, p: nat, a: seq<Token>, k: nat)
    requires LexesFrom(sql, p, a) && k < |a|
    ensures p <= a[k].start < a[k].end
    decreases |a|
  {
    hide TokenOk;
    if k > 0 { StartsRise(sql, a[0].end, a[1..], k - 1); }
  }

  lemma StartsOrdered(sql: JsString, p: nat, a: seq<Token>, k: nat, m: nat)
    requires LexesFrom(sql, p, a) && k < m < |a|
    ensures a[k].start < a[m].start
    decreases |a|
  {
    hide TokenOk;
    if k > 0 { StartsOrdered(sql, a[0].end, a[1..], k - 1, m - 1); }
    else { StartsRise(sql, a[0].end, a[1..], m - 1); }
  }

  /** A token shown by the server's lexing is one of its tokens, and the one shown before it starts before it. */
  lemma {:induction false} ShownIn(sql: JsString, p: nat, escapes: bool, b: seq<Token>, i: nat) returns (m: nat)
    requires ServerLexes(sql, p, escapes, b) && i < |Visible(b)|
    ensures m < |b| && b[m] == Visible(b)[i] && b[m].start >= p
    ensures i > 0 ==> Visible(b)[i - 1].start < b[m].start
    decreases |b|
  {
    hide ServerToken;
    var shown := if IsContent(b[0]) || b[0].kind == Semicolon then 1 else 0;
    if i < shown { return 0; }
    var k := ShownIn(sql, b[0].end, EscapePrefix(sql, b[0]), b[1..], i - shown);
    m := k + 1;
  }

  lemma ShownFrom(ts: seq<Token>, k: nat)
    requires k < |ts|
    ensures Visible(ts[k..]) == (if IsContent(ts[k]) || ts[k].kind == Semicolon then [ts[k]] else []) + Visible(ts[k + 1..])
  {
    assert ts[k..][1..] == ts[k + 1..];
  }

  lemma ShownOne(t: Token)
    requires IsContent(t) || t.kind == Semicolon
    ensures Visible([t]) == [t]
  {
    assert [t][1..] == [];
  }

  lemma ShownBetween(a: seq<Token>, k: nat, m: nat)
    requires k < m < |a| && a[k].kind == Semicolon && IsContent(a[m])
    ensures !OneStatement(Visible(a))
  {
    var before, after := Visible(a[..k]), Visible(a[k + 1..]);
    assert a[k + 1..][m - k - 1] == a[m];
    ShownLater(a[k + 1..], m - k - 1);
    ShownAround(a, k);
    hide Visible;
    assert (before + [a[k]] + after)[|before|] == a[k];
  }

  lemma ShownAround(a: seq<Token>, k: nat)
    requires k < |a| && a[k].kind == Semicolon
    ensures Visible(a) == Visible(a[..k]) + [a[k]] + Visible(a[k + 1..])
  {
    assert a == a[..k] + a[k..];
    VisibleConcat(a[..k], a[k..]);
    ShownFrom(a, k);
    hide Visible;
  }

  lemma ShownLater(a: seq<Token>, m: nat)
    requires m < |a| && IsContent(a[m])
    ensures |Visible(a)| > 0
  {
    hide Visible;
    assert a == a[..m] + ([a[m]] + a[m + 1..]);
    VisibleConcat(a[..m], [a[m]] + a[m + 1..]);
    VisibleConcat([a[m]], a[m + 1..]);
    ShownOne(a[m]);
  }

  /** One statement shows nothing after a semicolon. */
  lemma NothingAfter(sql: JsString, a: seq<Token>, semicolon: Token, word: Token)
    requires LexesFrom(sql, 0, a) && OneStatement(Visible(a)) && semicolon in a && word in a
    requires semicolon.kind == Semicolon && IsContent(word)
    ensures word.start <= semicolon.start
  {
    hide LexesFrom, Visible;
    var k :| 0 <= k < |a| && a[k] == semicolon;
    var m :| 0 <= m < |a| && a[m] == word;
    if k < m { ShownBetween(a, k, m); } else if m < k { StartsOrdered(sql, 0, a, m, k); }
  }

  /** The first token the server sees, when it is firm and no comment hides it from the scanner alone. */
  lemma {:induction false} FirstShared(sql: JsString, p: nat, a: seq<Token>, b: seq<Token>)
    requires LexesFrom(sql, p, a) && ServerLexes(sql, p, false, b) && |Visible(a)| > 0 && |Visible(b)| > 0
    requires Firm(sql, Visible(b)[0]) && (DASH !in sql || RETURN !in sql || NEWLINE !in sql)
    ensures Visible(a)[0] == Visible(b)[0]
    decreases |b|
  {
    StartsInside(sql, a[0]);
    if IsContent(b[0]) || b[0].kind == Semicolon {
      FirmIsWord(sql, b[0], false);
      hide TokenOk, ServerToken;
      TokenIsUnique(sql, a[0], b[0]);
    } else if b[0].kind == LineComment && NEWLINE !in sql {
      CommentToTheEnd(sql, a[0]);
    } else {
      if b[0].kind == LineComment { assert sql[p] == DASH; assert TokenOk(sql, b[0]); }
      hide TokenOk, ServerToken;
      assert TokenOk(sql, b[0]) by { InvisibleToken(sql, b[0]); }
      TokenIsUnique(sql, a[0], b[0]);
      FirstShared(sql, a[0].end, a[1..], b[1..]);
    }
  }

  lemma InvisibleToken(sql: JsString, t: Token)
    requires ServerToken(sql, t, false) && !IsContent(t) && t.kind != Semicolon
    requires t.kind == LineComment ==> RETURN !in sql
    ensures TokenOk(sql, t)
  {
  }

  lemma CommentToTheEnd(sql: JsString, t: Token)
    requires TokenOk(sql, t) && NEWLINE !in sql && At(sql, t.start) == DASH && At(sql, t.start + 1) == DASH
    ensures t.kind == LineComment && t.end == |sql|
  {
    if t.kind == DollarQuoted { StartOfDollar(sql, t); }
  }

  lemma FirstOfOneStatement(sql: JsString, visible: seq<Token>)
    requires OneStatement(visible) && CommitWord(sql, visible[0])
    ensures FirstWord(sql, visible).Some? && IsForbidden(FirstWord(sql, visible).value)
  {
    assert FORBIDDEN[2] == "COMMIT" && FORBIDDEN[3] == "END";
  }

  lemma CommitIsFirm(sql: JsString, t: Token)
    requires CommitWord(sql, t)
    ensures Firm(sql, t)
  {
    var word := sql[t.start..t.end];
    hide Upper;
    forall k | t.start <= k < t.end ensures WordStart(sql[k]) {
      UpperAt(word, k - t.start);
      assert word[k - t.start] == sql[k];
    }
  }

  lemma CommitLetters(sql: JsString, units: set<int>, t: Token)
    requires Over(sql, units) && CommitWord(sql, t)
    ensures Spellable("COMMIT", units) || Spellable("END", units)
  {
    hide Upper, Spells, Spellable;
    if Spells(Upper(sql[t.start..t.end]), "COMMIT") { SpelledOver(sql, units, t, "COMMIT"); }
    else { SpelledOver(sql, units, t, "END"); }
  }

  lemma UnitOf(sql: JsString, units: set<int>, u: int)
    requires Over(sql, units) && u in sql
    ensures u in units
  {
  }

  /** The server's first token cannot commit, unless a carriage return ends a comment before it. */
  lemma FirstCommitNeeds(sql: JsString, units: set<int>, a: seq<Token>, b: seq<Token>)
    requires Over(sql, units) && LexesFrom(sql, 0, a) && OneStatement(Visible(a)) && ServerLexes(sql, 0, false, b)
    requires var w := FirstWord(sql, Visible(a)); w.Some? ==> !IsForbidden(w.value)
    requires |Visible(b)| > 0 && CommitWord(sql, Visible(b)[0])
    ensures Returns(units) && NEWLINE in units
  {
    hide LexesFrom, ServerLexes, FirstWord, IsForbidden, Visible, CommitWord, Firm, Over;
    CommitIsFirm(sql, Visible(b)[0]);
    if DASH !in sql || RETURN !in sql || NEWLINE !in sql {
      FirstShared(sql, 0, a, b);
      FirstOfOneStatement(sql, Visible(a));
      assert false;
    }
    UnitOf(sql, units, DASH);
    UnitOf(sql, units, RETURN);
    UnitOf(sql, units, NEWLINE);
  }

  /** A later statement can commit only where the two lexings are not aligned. */
  lemma LaterCommitNeeds(sql: JsString, units: set<int>, a: seq<Token>, b: seq<Token>, i: nat)
    requires Over(sql, units) && LexesFrom(sql, 0, a) && OneStatement(Visible(a)) && ServerLexes(sql, 0, false, b)
    requires i > 0 && CommitsAt(sql, Visible(b), i)
    ensures SEMICOLON in units && !Aligned(units)
  {
    hide LexesFrom, ServerLexes, Visible, CommitWord, Firm, Over, Aligned;
    var semicolon, word := Visible(b)[i - 1], Visible(b)[i];
    var k := ShownIn(sql, 0, false, b, i - 1);
    var m := ShownIn(sql, 0, false, b, i);
    CommitIsFirm(sql, word);
    assert word.kind == Word by { assert CommitWord(sql, word); CommitKind(sql, word); }
    SemicolonIn(sql, 0, false, b, k);
    UnitOf(sql, units, SEMICOLON);
    if Aligned(units) {
      assert Firm(sql, semicolon) by { SemicolonIsFirm(sql, semicolon); }
      Shared(sql, units, 0, false, a, b, k);
      Shared(sql, units, 0, false, a, b, m);
      NothingAfter(sql, a, semicolon, word);
      assert false;
    }
  }

  lemma CommitKind(sql: JsString, t: Token)
    requires CommitWord(sql, t)
    ensures t.kind == Word
  {
  }

  lemma SemicolonIsFirm(sql: JsString, t: Token)
    requires t.kind == Semicolon
    ensures Firm(sql, t)
  {
  }

  lemma {:induction false} SemicolonIn(sql: JsString, p: nat, escapes: bool, b: seq<Token>, k: nat)
    requires ServerLexes(sql, p, escapes, b) && k < |b| && b[k].kind == Semicolon
    ensures SEMICOLON in sql
    decreases |b|
  {
    if k > 0 {
      hide ServerToken;
      SemicolonIn(sql, b[0].end, EscapePrefix(sql, b[0]), b[1..], k - 1);
    }
  }

  lemma CommitNeeds(sql: JsString, units: set<int>)
    requires Over(sql, units) && Acceptable(sql) && HoldsCommit(sql)
    ensures CommitWritable(units)
  {
    hide LexesFrom, ServerLexes, FirstWord, IsForbidden, Visible, CommitWord, Spellable, OneStatement;
    var a :| LexesFrom(sql, 0, a) && OneStatement(Visible(a))
             && (var w := FirstWord(sql, Visible(a)); w.Some? ==> !IsForbidden(w.value));
    var b, i :| ServerLexes(sql, 0, false, b) && CommitsAt(sql, Visible(b), i);
    CommitLetters(sql, units, Visible(b)[i]);
    if i == 0 { FirstCommitNeeds(sql, units, a, b); } else { LaterCommitNeeds(sql, units, a, b, i); }
  }

  // ---- The texts that can ----

  lemma {:induction false} NoQuoteUntil(sql: JsString, p: nat, r: nat, j: int)
    requires p <= r <= |sql| && forall k :: p <= k < r ==> sql[k] != SINGLE
    ensures QuoteEnds(sql, p, SINGLE, j) <==> QuoteEnds(sql, r, SINGLE, j)
    decreases r - p
  {
    if p < r { NoQuoteUntil(sql, p + 1, r, j); }
  }

  predicate PlainWord(word: JsString) {
    1 <= |word| <= 6 && forall k :: 0 <= k < |word| ==> WordStart(word[k])
  }

  predicate SpellsCommit(word: JsString) {
    PlainWord(word) && (Spells(Upper(word), "COMMIT") || Spells(Upper(word), "END"))
  }

  /** Tokens end to end, each as the scanner reads it. */
  ghost predicate Scanned(sql: JsString, tokens: seq<Token>) {
    && |tokens| > 0 && tokens[|tokens| - 1].end == |sql|
    && forall i :: 0 <= i < |tokens| ==>
         tokens[i].start == (if i == 0 then 0 else tokens[i - 1].end) < tokens[i].end && TokenOk(sql, tokens[i])
  }

  /** Tokens end to end, each as the server reads it after the one before. */
  ghost predicate Laid(sql: JsString, tokens: seq<Token>) {
    && |tokens| > 0 && tokens[|tokens| - 1].end == |sql|
    && forall i :: 0 <= i < |tokens| ==>
         && tokens[i].start == (if i == 0 then 0 else tokens[i - 1].end) < tokens[i].end
         && ServerToken(sql, tokens[i], i > 0 && EscapePrefix(sql, tokens[i - 1]))
  }

  /** A token other than a string is one whatever stands before it. */
  ghost predicate Alone(sql: JsString, t: Token) {
    ServerToken(sql, t, false) && ServerToken(sql, t, true)
  }

  lemma AloneIsLaid(sql: JsString, tokens: seq<Token>)
    requires |tokens| > 0 && tokens[|tokens| - 1].end == |sql|
    requires forall i :: 0 <= i < |tokens| ==>
               tokens[i].start == (if i == 0 then 0 else tokens[i - 1].end) < tokens[i].end && Alone(sql, tokens[i])
    ensures Laid(sql, tokens)
  {
    hide ServerToken, EscapePrefix;
  }

  lemma {:induction false} ScannedLexes(sql: JsString, tokens: seq<Token>, k: nat)
    requires Scanned(sql, tokens) && k <= |tokens|
    ensures LexesFrom(sql, if k == 0 then 0 else tokens[k - 1].end, tokens[k..])
    decreases |tokens| - k
  {
    hide TokenOk;
    if k < |tokens| {
      ScannedLexes(sql, tokens, k + 1);
      assert tokens[k..][1..] == tokens[k + 1..];
    }
  }

  lemma {:induction false} LaidLexes(sql: JsString, tokens: seq<Token>, k: nat)
    requires Laid(sql, tokens) && k <= |tokens|
    ensures ServerLexes(sql, if k == 0 then 0 else tokens[k - 1].end, k > 0 && EscapePrefix(sql, tokens[k - 1]), tokens[k..])
    decreases |tokens| - k
  {
    hide ServerToken, EscapePrefix;
    if k < |tokens| {
      LaidLexes(sql, tokens, k + 1);
      assert tokens[k..][1..] == tokens[k + 1..];
    }
  }

  lemma LaidCommits(sql: JsString, tokens: seq<Token>, i: nat)
    requires Laid(sql, tokens) && CommitsAt(sql, Visible(tokens), i)
    ensures HoldsCommit(sql)
  {
    hide Laid, ServerLexes, CommitsAt, Visible;
    LaidLexes(sql, tokens, 0);
    assert tokens[0..] == tokens;
  }

  lemma ScannedIsAccepted(sql: JsString, tokens: seq<Token>)
    requires Scanned(sql, tokens) && 1 <= |sql| <= MAX_SQL && OneStatement(Visible(tokens))
    requires var w := FirstWord(sql, Visible(tokens)); w.Some? ==> !IsForbidden(w.value)
    ensures Acceptable(sql)
  {
    hide Scanned, LexesFrom, Visible, OneStatement, FirstWord, IsForbidden;
    ScannedLexes(sql, tokens, 0);
    assert tokens[0..] == tokens;
  }

  lemma WordAtCommits(sql: JsString, word: JsString, i: nat)
    requires SpellsCommit(word) && i + |word| <= |sql| && sql[i..i + |word|] == word
    ensures CommitWord(sql, Token(Word, i, i + |word|))
  {
    hide Upper;
  }

  // A quote that closes for the scanner later than for the server: e'\'';word;e'\''

  predicate EscapedText(sql: JsString, e: int, word: JsString) {
    var n := |word|;
    && |sql| == 12 + n && (e == UPPER_E || e == LOWER_E)
    && sql[0] == sql[7 + n] == e && sql[1] == sql[3] == sql[4] == sql[8 + n] == sql[10 + n] == sql[11 + n] == SINGLE
    && sql[2] == sql[9 + n] == BACKSLASH && sql[5] == sql[6 + n] == SEMICOLON
    && sql[6..6 + n] == word
  }

  lemma WordUnits(sql: JsString, i: nat, word: JsString)
    requires i + |word| <= |sql| && sql[i..i + |word|] == word
    ensures forall k :: 0 <= k < |word| ==> sql[i + k] == word[k]
    ensures forall k :: i <= k < i + |word| ==> sql[k] == word[k - i]
  {
    forall k | 0 <= k < |word| ensures sql[i + k] == word[k] { assert sql[i..i + |word|][k] == sql[i + k]; }
  }

  lemma EscapedIsAccepted(sql: JsString, e: int, word: JsString)
    requires EscapedText(sql, e, word) && PlainWord(word)
    ensures Acceptable(sql)
  {
    var n := |word|;
    WordUnits(sql, 6, word);
    var ts := [Token(Word, 0, 1), Token(Quoted, 1, 9 + n), Token(Other, 9 + n, 10 + n), Token(Quoted, 10 + n, 12 + n)];
    NoQuoteUntil(sql, 5, 8 + n, 9 + n);
    assert QuoteEnds(sql, 8 + n, SINGLE, 9 + n);
    assert QuoteEnds(sql, 3, SINGLE, 9 + n);
    QuotedMeansEnds(sql, 1, 9 + n);
    assert QuoteEnds(sql, 11 + n, SINGLE, 12 + n);
    QuotedMeansEnds(sql, 10 + n, 12 + n);
    assert OtherAt(sql, 9 + n) by { if TagAt(sql, 9 + n) { TagIsDollar(sql, 9 + n); } }
    hide QuotedAt, OtherAt, QuoteEnds;
    assert Scanned(sql, ts);
    hide Scanned, EscapedText;
    AllVisible(ts);
    ShortWord(sql, ts);
    ScannedIsAccepted(sql, ts);
  }

  function EscapedTokens(n: nat): seq<Token> {
    [Token(Word, 0, 1), Token(Quoted, 1, 5), Token(Semicolon, 5, 6), Token(Word, 6, 6 + n), Token(Semicolon, 6 + n, 7 + n),
     Token(Word, 7 + n, 8 + n), Token(Quoted, 8 + n, 12 + n)]
  }

  lemma EscapedTokensOk(sql: JsString, e: int, word: JsString)
    requires EscapedText(sql, e, word) && PlainWord(word)
    ensures var ts := EscapedTokens(|word|);
            && Alone(sql, ts[0]) && Alone(sql, ts[2]) && Alone(sql, ts[3]) && Alone(sql, ts[4]) && Alone(sql, ts[5])
            && EscapePrefix(sql, ts[0]) && EscapePrefix(sql, ts[5]) && ServerToken(sql, ts[1], true) && ServerToken(sql, ts[6], true)
  {
    var n := |word|;
    WordUnits(sql, 6, word);
    assert EscapesEnd(sql, 4, 5) && EscapesEnd(sql, 11 + n, 12 + n);
    assert EscapesEnd(sql, 2, 5) && EscapesEnd(sql, 9 + n, 12 + n);
    hide EscapesEnd, QuotedAt;
  }

  lemma EscapedIsLaid(sql: JsString, e: int, word: JsString)
    requires EscapedText(sql, e, word) && PlainWord(word)
    ensures Laid(sql, EscapedTokens(|word|))
  {
    EscapedTokensOk(sql, e, word);
    assert |sql| == 12 + |word|;
    hide ServerToken, EscapePrefix, EscapedText, PlainWord;
  }

  lemma EscapedShows(n: nat)
    ensures Visible(EscapedTokens(n)) == EscapedTokens(n)
  {
    AllVisible(EscapedTokens(n));
  }

  lemma EscapedCommits(sql: JsString, e: int, word: JsString)
    requires EscapedText(sql, e, word) && SpellsCommit(word)
    ensures HoldsCommit(sql)
  {
    WordAtCommits(sql, word, 6);
    IsPlain(word);
    EscapedIsLaid(sql, e, word);
    EscapedShows(|word|);
    hide Laid, EscapedText, CommitWord, SpellsCommit, PlainWord, Visible;
    assert CommitsAt(sql, Visible(EscapedTokens(|word|)), 3);
    LaidCommits(sql, EscapedTokens(|word|), 3);
  }

  lemma IsPlain(word: JsString)
    requires SpellsCommit(word)
    ensures PlainWord(word)
  {
  }

  // A dollar sign the server takes for part of a word: u$$;word;u$$

  predicate DollarText(sql: JsString, u: int, word: JsString) {
    var n := |word|;
    && |sql| == 8 + n && BeyondAscii(u)
    && sql[0] == sql[5 + n] == u && sql[1] == sql[2] == sql[6 + n] == sql[7 + n] == DOLLAR
    && sql[3] == sql[4 + n] == SEMICOLON && sql[4..4 + n] == word
  }

  lemma FirstUnit(sql: JsString, tag: JsString, k: int)
    ensures Occurs(sql, tag, k) && |tag| > 0 ==> sql[k] == tag[0]
  {
    if Occurs(sql, tag, k) && |tag| > 0 { assert sql[k] == sql[k..k + |tag|][0]; }
  }

  lemma DollarIsAccepted(sql: JsString, u: int, word: JsString)
    requires DollarText(sql, u, word) && PlainWord(word)
    ensures Acceptable(sql)
  {
    var n := |word|;
    WordUnits(sql, 4, word);
    var first := Token(if IsSpace(u) then Space else Other, 0, 1);
    var ts := [first, Token(DollarQuoted, 1, 8 + n)];
    var tag := [DOLLAR, DOLLAR];
    assert sql[1..3] == tag && sql[6 + n..8 + n] == tag;
    forall k | 3 <= k < 6 + n ensures !Occurs(sql, tag, k) {
      FirstUnit(sql, tag, k);
      assert sql[k] != DOLLAR;
    }
    assert DollarQuotedWith(sql, 1, 8 + n, tag);
    if !IsSpace(u) { assert OtherAt(sql, 0) by { if TagAt(sql, 0) { TagIsDollar(sql, 0); } } }
    hide OtherAt, DollarQuotedWith, Occurs;
    assert DollarQuotedAt(sql, 1, 8 + n);
    hide DollarQuotedAt;
    assert Scanned(sql, ts);
    ShownDollar(sql, ts, first);
    ScannedIsAccepted(sql, ts);
  }

  lemma ShownDollar(sql: JsString, ts: seq<Token>, first: Token)
    requires |ts| == 2 && ts[0] == first && ts[1].kind == DollarQuoted && (first.kind == Space || first.kind == Other)
    ensures OneStatement(Visible(ts)) && FirstWord(sql, Visible(ts)) == None
  {
    AllVisible(ts[1..]);
    assert Visible(ts) == (if first.kind == Other then [first] else []) + ts[1..];
    FirstWordConcat(sql, if first.kind == Other then [first] else [], ts[1..]);
    assert ts[1..][1..] == [] && [first][1..] == [];
  }

  function DollarTokens(n: nat): seq<Token> {
    [Token(Word, 0, 3), Token(Semicolon, 3, 4), Token(Word, 4, 4 + n), Token(Semicolon, 4 + n, 5 + n), Token(Word, 5 + n, 8 + n)]
  }

  lemma DollarIsLaid(sql: JsString, u: int, word: JsString)
    requires DollarText(sql, u, word) && PlainWord(word)
    ensures Laid(sql, DollarTokens(|word|))
  {
    var ts := DollarTokens(|word|);
    WordUnits(sql, 4, word);
    assert Alone(sql, ts[0]) && Alone(sql, ts[1]) && Alone(sql, ts[2]) && Alone(sql, ts[3]) && Alone(sql, ts[4]);
    hide Alone;
    AloneIsLaid(sql, ts);
  }

  lemma DollarShows(n: nat)
    ensures Visible(DollarTokens(n)) == DollarTokens(n)
  {
    AllVisible(DollarTokens(n));
  }

  lemma DollarCommits(sql: JsString, u: int, word: JsString)
    requires DollarText(sql, u, word) && SpellsCommit(word)
    ensures HoldsCommit(sql)
  {
    WordAtCommits(sql, word, 4);
    IsPlain(word);
    DollarIsLaid(sql, u, word);
    DollarShows(|word|);
    hide Laid, DollarText, CommitWord, SpellsCommit, PlainWord, Visible;
    assert CommitsAt(sql, Visible(DollarTokens(|word|)), 2);
    LaidCommits(sql, DollarTokens(|word|), 2);
  }

  // A comment the server ends at a carriage return: -\r--\r;word and --\rword\n-

  predicate CarriedText(sql: JsString, word: JsString) {
    && |sql| == 6 + |word| && sql[0] == DASH && sql[1] == RETURN && sql[2] == DASH && sql[3] == DASH && sql[4] == RETURN
    && sql[5] == SEMICOLON && sql[6..6 + |word|] == word
  }

  lemma ReturnIsAccepted(sql: JsString, word: JsString)
    requires CarriedText(sql, word) && PlainWord(word)
    ensures Acceptable(sql)
  {
    WordUnits(sql, 6, word);
    var ts := [Token(Other, 0, 1), Token(Space, 1, 2), Token(LineComment, 2, |sql|)];
    assert OtherAt(sql, 0) by { if TagAt(sql, 0) { TagIsDollar(sql, 0); } }
    hide OtherAt;
    assert Scanned(sql, ts);
    hide Scanned;
    assert Visible(ts[3..]) == [];
    hide Visible;
    ShownFrom(ts, 2);
    ShownFrom(ts, 1);
    ShownFrom(ts, 0);
    assert ts[0..] == ts && Visible(ts) == [ts[0]];
    ScannedLexes(sql, ts, 0);
    OneShown(sql, ts, ts[0]);
  }

  function ReturnTokens(n: nat): seq<Token> {
    [Token(Other, 0, 1), Token(Space, 1, 2), Token(LineComment, 2, 4), Token(Space, 4, 5), Token(Semicolon, 5, 6), Token(Word, 6, 6 + n)]
  }

  lemma ReturnIsLaid(sql: JsString, word: JsString)
    requires CarriedText(sql, word) && PlainWord(word)
    ensures Laid(sql, ReturnTokens(|word|))
  {
    var ts := ReturnTokens(|word|);
    WordUnits(sql, 6, word);
    assert ServerOtherAt(sql, 0) by { if ServerTagAt(sql, 0) { ServerTagIsDollar(sql, 0); } }
    hide ServerOtherAt;
    assert Alone(sql, ts[0]) && Alone(sql, ts[1]) && Alone(sql, ts[2]) && Alone(sql, ts[3]) && Alone(sql, ts[4]) && Alone(sql, ts[5]);
    hide Alone;
    AloneIsLaid(sql, ts);
  }

  lemma ReturnShows(n: nat)
    ensures Visible(ReturnTokens(n)) == [ReturnTokens(n)[0]] + ReturnTokens(n)[4..]
  {
    var ts := ReturnTokens(n);
    AllVisible(ts[4..]);
    hide Visible;
    ShownFrom(ts, 3);
    ShownFrom(ts, 2);
    ShownFrom(ts, 1);
    ShownFrom(ts, 0);
    assert ts[0..] == ts;
  }

  lemma ReturnCommits(sql: JsString, word: JsString)
    requires CarriedText(sql, word) && SpellsCommit(word)
    ensures HoldsCommit(sql)
  {
    WordAtCommits(sql, word, 6);
    IsPlain(word);
    ReturnIsLaid(sql, word);
    ReturnShows(|word|);
    hide Laid, CarriedText, CommitWord, SpellsCommit, PlainWord, Visible;
    assert CommitsAt(sql, Visible(ReturnTokens(|word|)), 2);
    LaidCommits(sql, ReturnTokens(|word|), 2);
  }

  lemma ServerTagIsDollar(sql: JsString, i: int)
    requires ServerTagAt(sql, i)
    ensures 0 <= i < |sql| && sql[i] == DOLLAR
  {
    var tag :| ServerStartsTag(sql, i, tag);
    assert sql[i..i + |tag|][0] == sql[i];
  }

  predicate LineText(sql: JsString, word: JsString) {
    var n := |word|;
    && |sql| == 5 + n && sql[0] == DASH && sql[1] == DASH && sql[2] == RETURN && sql[3..3 + n] == word
    && sql[3 + n] == NEWLINE && sql[4 + n] == DASH
  }

  lemma LineIsAccepted(sql: JsString, word: JsString)
    requires LineText(sql, word) && PlainWord(word)
    ensures Acceptable(sql)
  {
    var n := |word|;
    WordUnits(sql, 3, word);
    var ts := [Token(LineComment, 0, 3 + n), Token(Space, 3 + n, 4 + n), Token(Other, 4 + n, 5 + n)];
    assert OtherAt(sql, 4 + n) by { if TagAt(sql, 4 + n) { TagIsDollar(sql, 4 + n); } }
    hide OtherAt;
    assert Scanned(sql, ts);
    hide Scanned;
    AllVisible(ts[2..]);
    hide Visible;
    ShownFrom(ts, 1);
    ShownFrom(ts, 0);
    assert ts[0..] == ts && Visible(ts) == [ts[2]];
    ScannedLexes(sql, ts, 0);
    OneShown(sql, ts, ts[2]);
  }

  function LineTokens(n: nat): seq<Token> {
    [Token(LineComment, 0, 2), Token(Space, 2, 3), Token(Word, 3, 3 + n), Token(Space, 3 + n, 4 + n), Token(Other, 4 + n, 5 + n)]
  }

  lemma LineIsLaid(sql: JsString, word: JsString)
    requires LineText(sql, word) && PlainWord(word)
    ensures Laid(sql, LineTokens(|word|))
  {
    var n, ts := |word|, LineTokens(|word|);
    WordUnits(sql, 3, word);
    assert ServerOtherAt(sql, 4 + n) by { if ServerTagAt(sql, 4 + n) { ServerTagIsDollar(sql, 4 + n); } }
    hide ServerOtherAt;
    assert Alone(sql, ts[0]) && Alone(sql, ts[1]) && Alone(sql, ts[2]) && Alone(sql, ts[3]) && Alone(sql, ts[4]);
    hide Alone;
    AloneIsLaid(sql, ts);
  }

  lemma LineShows(n: nat)
    ensures |Visible(LineTokens(n))| > 0 && Visible(LineTokens(n))[0] == LineTokens(n)[2]
  {
    var ts := LineTokens(n);
    hide Visible;
    ShownFrom(ts, 2);
    ShownFrom(ts, 1);
    ShownFrom(ts, 0);
    assert ts[0..] == ts;
  }

  lemma LineCommits(sql: JsString, word: JsString)
    requires LineText(sql, word) && SpellsCommit(word)
    ensures HoldsCommit(sql)
  {
    WordAtCommits(sql, word, 3);
    IsPlain(word);
    LineIsLaid(sql, word);
    LineShows(|word|);
    hide Laid, LineText, CommitWord, SpellsCommit, PlainWord, Visible;
    assert CommitsAt(sql, Visible(LineTokens(|word|)), 0);
    LaidCommits(sql, LineTokens(|word|), 0);
  }

  /** A keyword written in the available cases. */
  function Written(keyword: string, units: set<int>): JsString {
    seq(|keyword|, k requires 0 <= k < |keyword| => if keyword[k] as int in units then keyword[k] as int else keyword[k] as int + 32)
  }

  lemma WrittenSpells(keyword: string, units: set<int>)
    requires Spellable(keyword, units) && |keyword| > 0 && forall k :: 0 <= k < |keyword| ==> 'A' <= keyword[k] <= 'Z'
    ensures |Written(keyword, units)| == |keyword| && Over(Written(keyword, units), units)
    ensures forall k :: 0 <= k < |keyword| ==> WordStart(Written(keyword, units)[k])
    ensures Spells(Upper(Written(keyword, units)), keyword)
  {
    var word := Written(keyword, units);
    UpperAt(word, 0);
    forall k | 0 <= k < |keyword| ensures Upper(word)[k] == keyword[k] as int { UpperAt(word, k); }
  }

  lemma CommitSpelled(units: set<int>) returns (word: JsString)
    requires Spellable("COMMIT", units) || Spellable("END", units)
    ensures SpellsCommit(word) && Over(word, units)
  {
    hide Spells, Written, Upper, Spellable;
    if Spellable("COMMIT", units) {
      WrittenSpells("COMMIT", units);
      word := Written("COMMIT", units);
    } else {
      WrittenSpells("END", units);
      word := Written("END", units);
    }
  }

  lemma CommitHides(units: set<int>) returns (sql: JsString)
    requires CommitWritable(units)
    ensures Over(sql, units) && Acceptable(sql) && HoldsCommit(sql)
  {
    hide Acceptable, HoldsCommit, SpellsCommit, Spellable;
    var word := CommitSpelled(units);
    IsPlain(word);
    if SEMICOLON in units && Escapes(units) {
      var e := if UPPER_E in units then UPPER_E else LOWER_E;
      sql := [e, SINGLE, BACKSLASH, SINGLE, SINGLE, SEMICOLON] + word + [SEMICOLON, e, SINGLE, BACKSLASH, SINGLE, SINGLE];
      assert EscapedText(sql, e, word);
      EscapedIsAccepted(sql, e, word);
      EscapedCommits(sql, e, word);
    } else if SEMICOLON in units && DOLLAR in units && !AsciiOnly(units) {
      var u :| u in units && BeyondAscii(u);
      sql := [u, DOLLAR, DOLLAR, SEMICOLON] + word + [SEMICOLON, u, DOLLAR, DOLLAR];
      assert DollarText(sql, u, word);
      DollarIsAccepted(sql, u, word);
      DollarCommits(sql, u, word);
    } else if SEMICOLON in units {
      sql := [DASH, RETURN, DASH, DASH, RETURN, SEMICOLON] + word;
      assert CarriedText(sql, word);
      ReturnIsAccepted(sql, word);
      ReturnCommits(sql, word);
    } else {
      sql := [DASH, DASH, RETURN] + word + [NEWLINE, DASH];
      assert LineText(sql, word);
      LineIsAccepted(sql, word);
      LineCommits(sql, word);
    }
  }

  /**
   * The scanner's promise that nothing hides an early commit: it holds of every accepted text over a set of code
   * units exactly when the set cannot write COMMIT or END, or has none of the forms that the server lexes otherwise.
   */
  lemma CommitWritableExactly(units: set<int>)
    ensures CommitWritable(units) <==> exists sql :: Over(sql, units) && Acceptable(sql) && HoldsCommit(sql)
  {
    hide Acceptable, HoldsCommit, CommitWritable;
    if CommitWritable(units) { var sql := CommitHides(units); }
    forall sql | Over(sql, units) && Acceptable(sql) && HoldsCommit(sql) ensures CommitWritable(units) {
      CommitNeeds(sql, units);
    }
  }

  function Units(text: string): JsString {
    seq(|text|, k requires 0 <= k < |text| => text[k] as int)
  }

  const SelectCommit := "SELECT E'\\'';COMMIT--'"

  /** The units of the text, one by one. */
  predicate Spelled(sql: JsString) {
    && |sql| == 22
    && sql[0] == 0x53 && sql[1] == 0x45 && sql[2] == 0x4C && sql[3] == 0x45 && sql[4] == 0x43 && sql[5] == 0x54 && sql[6] == 0x20
    && sql[7] == UPPER_E && sql[8] == SINGLE && sql[9] == BACKSLASH && sql[10] == SINGLE && sql[11] == SINGLE
    && sql[12] == SEMICOLON && sql[13] == 0x43 && sql[14] == 0x4F && sql[15] == 0x4D && sql[16] == 0x4D && sql[17] == 0x49
    && sql[18] == 0x54 && sql[19] == DASH && sql[20] == DASH && sql[21] == SINGLE
  }

  function SelectToScanner(): seq<Token> {
    [Token(Word, 0, 6), Token(Space, 6, 7), Token(Word, 7, 8), Token(Quoted, 8, 22)]
  }

  function SelectToServer(): seq<Token> {
    [Token(Word, 0, 6), Token(Space, 6, 7), Token(Word, 7, 8), Token(Quoted, 8, 12), Token(Semicolon, 12, 13),
     Token(Word, 13, 19), Token(LineComment, 19, 22)]
  }

  lemma SelectIsScanned(sql: JsString)
    requires Spelled(sql)
    ensures Scanned(sql, SelectToScanner())
  {
    NoQuoteUntil(sql, 12, 21, 22);
    assert QuoteEnds(sql, 21, SINGLE, 22);
    assert QuoteEnds(sql, 10, SINGLE, 22);
    QuotedMeansEnds(sql, 8, 22);
    hide QuotedAt, QuoteEnds;
  }

  lemma SelectFirst(sql: JsString)
    requires Spelled(sql)
    ensures !IsForbidden(Upper(sql[0..6]))
  {
    hide Upper;
    UpperAt(sql[0..6], 0);
    UpperAt(sql[0..6], 1);
  }

  lemma SelectScannedVisible(ts: seq<Token>)
    requires ts == SelectToScanner()
    ensures Visible(ts) == [ts[0]] + ts[2..]
  {
    AllVisible(ts[2..]);
    hide Visible;
    ShownFrom(ts, 1);
    ShownFrom(ts, 0);
    assert ts[0..] == ts;
  }

  lemma SelectScannedShows(sql: JsString)
    requires |sql| >= 6
    ensures OneStatement(Visible(SelectToScanner())) && FirstWord(sql, Visible(SelectToScanner())) == Some(Upper(sql[0..6]))
  {
    SelectScannedVisible(SelectToScanner());
    hide Visible, Upper;
  }

  lemma SelectIsAccepted(sql: JsString)
    requires Spelled(sql)
    ensures Acceptable(sql)
  {
    SelectIsScanned(sql);
    SelectScannedShows(sql);
    SelectFirst(sql);
    assert |sql| == 22;
    hide Spelled, Scanned, Visible, OneStatement, FirstWord, IsForbidden, Upper;
    ScannedIsAccepted(sql, SelectToScanner());
  }

  lemma SelectTokens(sql: JsString)
    requires Spelled(sql)
    ensures var ts := SelectToServer();
            Alone(sql, ts[0]) && Alone(sql, ts[1]) && Alone(sql, ts[2]) && Alone(sql, ts[4]) && Alone(sql, ts[5]) && Alone(sql, ts[6])
    ensures EscapePrefix(sql, SelectToServer()[2]) && ServerToken(sql, SelectToServer()[3], true)
  {
    assert EscapesEnd(sql, 11, 12);
    assert EscapesEnd(sql, 9, 12);
    hide EscapesEnd, QuotedAt;
  }

  lemma SelectIsLaid(sql: JsString)
    requires Spelled(sql)
    ensures Laid(sql, SelectToServer())
  {
    SelectTokens(sql);
    assert |sql| == 22;
    hide ServerToken, EscapePrefix, Spelled;
  }

  lemma SelectTail(ts: seq<Token>)
    requires ts == SelectToServer()
    ensures Visible(ts[2..]) == ts[2..6]
  {
    AllVisible(ts[2..6]);
    AllVisible(ts[7..]);
    hide Visible;
    VisibleConcat(ts[2..6], ts[6..]);
    ShownFrom(ts, 6);
    assert ts[2..] == ts[2..6] + ts[6..];
  }

  lemma SelectVisible()
    ensures Visible(SelectToServer()) == [SelectToServer()[0]] + SelectToServer()[2..6]
  {
    var ts := SelectToServer();
    SelectTail(ts);
    hide Visible;
    ShownFrom(ts, 1);
    ShownFrom(ts, 0);
    assert ts[0..] == ts;
  }

  lemma SelectCommitWord(sql: JsString)
    requires Spelled(sql)
    ensures CommitWord(sql, Token(Word, 13, 19))
  {
    var word := sql[13..19];
    hide Upper;
    UpperAt(word, 0);
    UpperAt(word, 1);
    UpperAt(word, 2);
    UpperAt(word, 3);
    UpperAt(word, 4);
    UpperAt(word, 5);
  }

  lemma SelectCommits(sql: JsString)
    requires Spelled(sql)
    ensures HoldsCommit(sql)
  {
    SelectIsLaid(sql);
    SelectVisible();
    SelectCommitWord(sql);
    hide Laid, CommitWord, Visible, Spelled;
    assert CommitsAt(sql, Visible(SelectToServer()), 4);
    LaidCommits(sql, SelectToServer(), 4);
  }

  /** The scanner accepts this text as one SELECT; to the server it is a SELECT, then a COMMIT, then a comment. */
  lemma SelectCommitIsBoth()
    ensures Acceptable(Units(SelectCommit)) && HoldsCommit(Units(SelectCommit))
  {
    hide Acceptable, HoldsCommit;
    assert Spelled(Units(SelectCommit));
    SelectIsAccepted(Units(SelectCommit));
    SelectCommits(Units(SelectCommit));
  }
}
