/**
 * The scanner's lexing against the server's. The server, with standard_conforming_strings on, differs in three
 * ways: it reads backslash escapes in a string that follows the word E, it ends a line comment at a carriage
 * return too, and it takes every unit past ASCII for a letter. Over which code units do the two agree, and over
 * which can an accepted text hold a commit?
 */
module ServerLexing {
  import opened Wrappers
  import opened Utf16
  import opened SqlScanner

  const BACKSLASH := 0x5C
  const UPPER_E := 0x45
  const LOWER_E := 0x65
  const RETURN := 0x0D

  // ---- The server's lexing ----

  predicate BeyondAscii(u: int) {
    u >= 0x80
  }

  predicate ServerSpace(u: int) {
    9 <= u <= 13 || u == 32
  }

  predicate ServerLetter(u: int) {
    WordStart(u) || BeyondAscii(u)
  }

  predicate ServerPart(u: int) {
    WordPart(u) || BeyondAscii(u)
  }

  predicate LineEnd(u: int) {
    u == NEWLINE || u == RETURN
  }

  /** The word E, directly before what follows it. */
  predicate EscapePrefix(sql: JsString, t: Token) {
    t.kind == Word && t.end == t.start + 1 && (At(sql, t.start) == UPPER_E || At(sql, t.start) == LOWER_E)
  }

  /** The end of a string with backslash escapes: a backslash takes the unit after it into the string. */
  predicate EscapesEnd(sql: JsString, p: int, j: int)
    decreases |sql| - p
  {
    if p < 0 || p >= |sql| then false
    else if sql[p] == BACKSLASH then EscapesEnd(sql, p + 2, j)
    else if sql[p] != SINGLE then EscapesEnd(sql, p + 1, j)
    else if At(sql, p + 1) == SINGLE then EscapesEnd(sql, p + 2, j)
    else j == p + 1
  }

  predicate ServerCommentAt(sql: JsString, i: int, j: int) {
    && At(sql, i) == DASH && At(sql, i + 1) == DASH && i + 2 <= j <= |sql|
    && (forall k :: i + 2 <= k < j ==> !LineEnd(At(sql, k)))
    && (j == |sql| || LineEnd(At(sql, j)))
  }

  predicate ServerWordAt(sql: JsString, i: int, j: int) {
    && 0 <= i < j <= |sql| && ServerLetter(sql[i])
    && (forall k :: i <= k < j ==> ServerPart(sql[k]))
    && (j < |sql| ==> !ServerPart(sql[j]))
  }

  predicate IsServerTag(tag: JsString) {
    && |tag| >= 2 && tag[0] == DOLLAR && tag[|tag| - 1] == DOLLAR
    && (|tag| > 2 ==> ServerLetter(tag[1]))
    && forall k :: 1 <= k < |tag| - 1 ==> TagPart(tag[k]) || BeyondAscii(tag[k])
  }

  predicate ServerStartsTag(sql: JsString, i: int, tag: JsString) {
    IsServerTag(tag) && Occurs(sql, tag, i)
  }

  predicate ServerDollarWith(sql: JsString, i: int, j: int, tag: JsString) {
    && ServerStartsTag(sql, i, tag)
    && i + 2 * |tag| <= j <= |sql| && Occurs(sql, tag, j - |tag|)
    && forall k :: i + |tag| <= k < j - |tag| ==> !Occurs(sql, tag, k)
  }

  ghost predicate ServerDollarAt(sql: JsString, i: int, j: int) {
    exists tag :: ServerDollarWith(sql, i, j, tag)
  }

  ghost predicate ServerTagAt(sql: JsString, i: int) {
    exists tag :: ServerStartsTag(sql, i, tag)
  }

  ghost predicate ServerOtherAt(sql: JsString, i: int) {
    var u := At(sql, i);
    && 0 <= i < |sql| && !ServerSpace(u) && u != SEMICOLON && !IsQuote(u) && !ServerLetter(u)
    && !(u == DASH && At(sql, i + 1) == DASH)
    && !(u == SLASH && At(sql, i + 1) == STAR)
    && !ServerTagAt(sql, i)
  }

  /** A token of the server; `escapes` says that the word E stands directly before it. */
  ghost predicate ServerToken(sql: JsString, t: Token, escapes: bool) {
    match t.kind
    case Space => 0 <= t.start < |sql| && ServerSpace(sql[t.start]) && t.end == t.start + 1
    case LineComment => ServerCommentAt(sql, t.start, t.end)
    case Quoted =>
      if escapes && At(sql, t.start) == SINGLE then EscapesEnd(sql, t.start + 1, t.end) else QuotedAt(sql, t.start, t.end)
    case DollarQuoted => ServerDollarAt(sql, t.start, t.end)
    case Word => ServerWordAt(sql, t.start, t.end)
    case Other => ServerOtherAt(sql, t.start) && t.end == t.start + 1
    case _ => TokenOk(sql, t)
  }

  ghost predicate ServerLexes(sql: JsString, from: int, escapes: bool, tokens: seq<Token>)
    decreases |tokens|
  {
    if |tokens| == 0 then from == |sql|
    else
      && tokens[0].start == from < tokens[0].end
      && ServerToken(sql, tokens[0], escapes)
      && ServerLexes(sql, tokens[0].end, EscapePrefix(sql, tokens[0]), tokens[1..])
  }

  // ---- Conditions on the code units of a text ----

  predicate Over(sql: JsString, units: set<int>) {
    forall k :: 0 <= k < |sql| ==> sql[k] in units
  }

  /** A string with an escape can be written. */
  predicate Escapes(units: set<int>) {
    BACKSLASH in units && SINGLE in units && (UPPER_E in units || LOWER_E in units)
  }

  /** A line comment can end at a carriage return. */
  predicate Returns(units: set<int>) {
    RETURN in units && DASH in units
  }

  predicate AsciiOnly(units: set<int>) {
    forall u :: u in units ==> !BeyondAscii(u)
  }

  /** Nothing can be written but white space and semicolons. */
  predicate Blank(units: set<int>) {
    forall u :: u in units ==> IsSpace(u) || u == SEMICOLON
  }

  predicate SameLexing(units: set<int>) {
    !Escapes(units) && !Returns(units) && (AsciiOnly(units) || Blank(units))
  }

  // ---- Where the two lexings agree ----

  lemma {:induction false} NoBackslashNoEscape(sql: JsString, p: int, j: int)
    requires BACKSLASH !in sql
    ensures EscapesEnd(sql, p, j) <==> QuoteEnds(sql, p, SINGLE, j)
    decreases |sql| - p
  {
    if 0 <= p < |sql| {
      if sql[p] != SINGLE { NoBackslashNoEscape(sql, p + 1, j); }
      else if At(sql, p + 1) == SINGLE { NoBackslashNoEscape(sql, p + 2, j); }
    }
  }

  lemma SameQuoted(sql: JsString, units: set<int>, t: Token, escapes: bool)
    requires Over(sql, units) && !Escapes(units) && t.kind == Quoted
    requires escapes ==> UPPER_E in units || LOWER_E in units
    ensures ServerToken(sql, t, escapes) <==> TokenOk(sql, t)
  {
    hide QuotedAt;
    if escapes && At(sql, t.start) == SINGLE {
      assert sql[t.start] in units;
      QuotedMeansEnds(sql, t.start, t.end);
      NoBackslashNoEscape(sql, t.start + 1, t.end);
    }
  }

  lemma SameComment(sql: JsString, units: set<int>, t: Token, escapes: bool)
    requires Over(sql, units) && !Returns(units) && t.kind == LineComment
    ensures ServerToken(sql, t, escapes) <==> TokenOk(sql, t)
  {
    if At(sql, t.start) == DASH {
      assert sql[t.start] in units;
      forall k | 0 <= k < |sql| ensures At(sql, k) != RETURN { assert sql[k] in units; }
    }
  }

  /** Without units past ASCII, or without dollar signs, the same tags start and end dollar quotes. */
  lemma SameTag(sql: JsString, units: set<int>, i: int, tag: JsString)
    requires Over(sql, units) && (AsciiOnly(units) || DOLLAR !in units)
    ensures ServerStartsTag(sql, i, tag) <==> StartsTag(sql, i, tag)
  {
    if Occurs(sql, tag, i) {
      forall k | 0 <= k < |tag| ensures tag[k] in units { assert tag[k] == sql[i + k]; }
    }
  }

  lemma SameDollar(sql: JsString, units: set<int>, t: Token, escapes: bool)
    requires Over(sql, units) && (AsciiOnly(units) || DOLLAR !in units) && t.kind == DollarQuoted
    ensures ServerToken(sql, t, escapes) <==> TokenOk(sql, t)
  {
    hide Occurs, IsTag, IsServerTag;
    forall tag ensures ServerStartsTag(sql, t.start, tag) <==> StartsTag(sql, t.start, tag) { SameTag(sql, units, t.start, tag); }
    assert forall tag :: ServerDollarWith(sql, t.start, t.end, tag) <==> DollarQuotedWith(sql, t.start, t.end, tag);
  }

  lemma SameTagAt(sql: JsString, units: set<int>, i: int)
    requires Over(sql, units) && (AsciiOnly(units) || DOLLAR !in units)
    ensures ServerTagAt(sql, i) <==> TagAt(sql, i)
  {
    hide StartsTag, ServerStartsTag;
    forall tag ensures ServerStartsTag(sql, i, tag) <==> StartsTag(sql, i, tag) { SameTag(sql, units, i, tag); }
  }

  lemma SameToken(sql: JsString, units: set<int>, t: Token, escapes: bool)
    requires Over(sql, units) && !Escapes(units) && !Returns(units) && AsciiOnly(units)
    requires escapes ==> UPPER_E in units || LOWER_E in units
    ensures ServerToken(sql, t, escapes) <==> TokenOk(sql, t)
  {
    match t.kind
    case LineComment => SameComment(sql, units, t, escapes);
    case Quoted => SameQuoted(sql, units, t, escapes);
    case DollarQuoted => SameDollar(sql, units, t, escapes);
    case Other => {
      SameTagAt(sql, units, t.start);
      hide TagAt, ServerTagAt;
      if 0 <= t.start < |sql| { assert sql[t.start] in units; }
    }
    case Space => if 0 <= t.start < |sql| { assert sql[t.start] in units; }
    case Word => {
      forall k | 0 <= k < |sql| ensures !BeyondAscii(sql[k]) { assert sql[k] in units; }
    }
    case _ =>
  }

  lemma PrefixUnit(sql: JsString, units: set<int>, t: Token)
    requires Over(sql, units) && EscapePrefix(sql, t)
    ensures UPPER_E in units || LOWER_E in units
  {
    assert sql[t.start] in units;
  }

  lemma {:induction false} LexingsAgree(sql: JsString, units: set<int>, from: int, escapes: bool, tokens: seq<Token>)
    requires Over(sql, units) && !Escapes(units) && !Returns(units) && AsciiOnly(units)
    requires escapes ==> UPPER_E in units || LOWER_E in units
    ensures ServerLexes(sql, from, escapes, tokens) <==> LexesFrom(sql, from, tokens)
    decreases |tokens|
  {
    hide TokenOk, ServerToken, Escapes, Returns, AsciiOnly, EscapePrefix, Over;
    if |tokens| > 0 {
      SameToken(sql, units, tokens[0], escapes);
      if EscapePrefix(sql, tokens[0]) { PrefixUnit(sql, units, tokens[0]); }
      LexingsAgree(sql, units, tokens[0].end, EscapePrefix(sql, tokens[0]), tokens[1..]);
    }
  }

  lemma {:induction false} BlankShowsNothing(sql: JsString, from: int, tokens: seq<Token>)
    requires LexesFrom(sql, from, tokens) && forall k :: 0 <= k < |sql| ==> IsSpace(sql[k]) || sql[k] == SEMICOLON
    ensures forall i :: 0 <= i < |Visible(tokens)| ==> Visible(tokens)[i].kind == Semicolon
    decreases |tokens|
  {
    if |tokens| > 0 {
      StartsInside(sql, tokens[0]);
      if tokens[0].kind == DollarQuoted { StartOfDollar(sql, tokens[0]); }
      BlankShowsNothing(sql, tokens[0].end, tokens[1..]);
    }
  }

  lemma BlankIsRefused(sql: JsString, units: set<int>)
    requires Over(sql, units) && Blank(units)
    ensures !Acceptable(sql)
  {
    hide LexesFrom, Visible, FirstWord;
    forall k | 0 <= k < |sql| ensures IsSpace(sql[k]) || sql[k] == SEMICOLON { assert sql[k] in units; }
    forall tokens | LexesFrom(sql, 0, tokens) ensures !OneStatement(Visible(tokens)) { BlankShowsNothing(sql, 0, tokens); }
  }

  /** An accepted text with its lexing, and a token of it that is none of the server's. */
  ghost predicate Differs(sql: JsString, tokens: seq<Token>) {
    Acceptable(sql) && LexesFrom(sql, 0, tokens) && !ServerLexes(sql, 0, false, tokens)
  }

  lemma {:induction false} AllVisible(tokens: seq<Token>)
    requires forall i :: 0 <= i < |tokens| ==> IsContent(tokens[i]) || tokens[i].kind == Semicolon
    ensures Visible(tokens) == tokens
  {
    if |tokens| > 0 { AllVisible(tokens[1..]); }
  }

  /** A text whose first word is a single letter begins with no forbidden word. */
  lemma ShortWord(sql: JsString, tokens: seq<Token>)
    requires |sql| > 0 && |Visible(tokens)| > 0 && Visible(tokens)[0] == Token(Word, 0, 1)
    ensures FirstWord(sql, Visible(tokens)).Some? && !IsForbidden(FirstWord(sql, Visible(tokens)).value)
  {
    hide Visible;
    assert |sql[0..1]| == 1 && sql[0..1][1..] == [];
    assert |Upper(sql[0..1])| == 1;
  }

  lemma EscapeDiffers(e: int)
    requires e == UPPER_E || e == LOWER_E
    ensures Differs([e, SINGLE, BACKSLASH, SINGLE], [Token(Word, 0, 1), Token(Quoted, 1, 4)])
  {
    var sql, tokens := [e, SINGLE, BACKSLASH, SINGLE], [Token(Word, 0, 1), Token(Quoted, 1, 4)];
    assert QuoteEnds(sql, 3, SINGLE, 4);
    QuotedMeansEnds(sql, 1, 4);
    hide QuotedAt;
    assert TokenOk(sql, tokens[0]) && TokenOk(sql, tokens[1]);
    hide TokenOk;
    assert LexesFrom(sql, 4, tokens[2..]) && LexesFrom(sql, 1, tokens[1..]) && LexesFrom(sql, 0, tokens);
    AllVisible(tokens);
    ShortWord(sql, tokens);
    assert !EscapesEnd(sql, 4, 4);
    assert !ServerLexes(sql, 1, true, tokens[1..]);
  }

  /** A text that shows one token, no word, is accepted. */
  lemma OneShown(sql: JsString, tokens: seq<Token>, t: Token)
    requires LexesFrom(sql, 0, tokens) && Visible(tokens) == [t] && 1 <= |sql| <= MAX_SQL
    requires IsContent(t) && t.kind != Word
    ensures Acceptable(sql)
  {
    hide LexesFrom, Visible;
    assert [t][1..] == [];
    assert FirstWord(sql, [t]) == None;
    assert OneStatement(Visible(tokens));
  }

  predicate ReturnText(sql: JsString) {
    |sql| == 5 && sql[0] == DASH && sql[1] == RETURN && sql[2] == DASH && sql[3] == DASH && sql[4] == RETURN
  }

  lemma ReturnDiffers(sql: JsString)
    requires ReturnText(sql)
    ensures Differs(sql, [Token(Other, 0, 1), Token(Space, 1, 2), Token(LineComment, 2, 5)])
  {
    var tokens := [Token(Other, 0, 1), Token(Space, 1, 2), Token(LineComment, 2, 5)];
    assert OtherAt(sql, 0) by { if TagAt(sql, 0) { TagIsDollar(sql, 0); } }
    hide OtherAt;
    assert TokenOk(sql, tokens[0]) && TokenOk(sql, tokens[1]) && TokenOk(sql, tokens[2]);
    assert LineEnd(At(sql, 4));
    assert !ServerToken(sql, tokens[2], false);
    hide TokenOk, ServerToken, ReturnText;
    assert LexesFrom(sql, 5, tokens[3..]) && LexesFrom(sql, 2, tokens[2..]) && LexesFrom(sql, 1, tokens[1..]);
    assert LexesFrom(sql, 0, tokens);
    assert !ServerLexes(sql, 2, false, tokens[2..]);
    assert !ServerLexes(sql, 1, false, tokens[1..]);
    assert !ServerLexes(sql, 0, false, tokens);
    hide ServerLexes, LexesFrom;
    assert Visible(tokens[2..]) == [];
    assert Visible(tokens[1..]) == [];
    OneShown(sql, tokens, tokens[0]);
  }

  lemma LetterDiffers(u: int)
    requires BeyondAscii(u) && !IsSpace(u)
    ensures Differs([u], [Token(Other, 0, 1)])
  {
    var sql, tokens := [u], [Token(Other, 0, 1)];
    assert OtherAt(sql, 0) by { if TagAt(sql, 0) { TagIsDollar(sql, 0); } }
    assert LexesFrom(sql, 1, tokens[1..]) && LexesFrom(sql, 0, tokens);
    assert Visible(tokens[1..]) == [] && Visible(tokens) == tokens;
    assert !ServerToken(sql, tokens[0], false);
    OneShown(sql, tokens, tokens[0]);
  }

  /** A text of one unit that shows something, and a white space past ASCII, which is a letter to the server. */
  function SpaceText(c: int, u: int): JsString {
    if IsQuote(c) then [c, c, u] else [c, u]
  }

  function SpaceTokens(c: int): seq<Token> {
    if IsQuote(c) then [Token(Quoted, 0, 2), Token(Space, 2, 3)]
    else [Token(if WordStart(c) then Word else Other, 0, 1), Token(Space, 1, 2)]
  }

  lemma SpaceLexes(c: int, u: int)
    requires BeyondAscii(u) && IsSpace(u) && !IsSpace(c) && c != SEMICOLON
    ensures LexesFrom(SpaceText(c, u), 0, SpaceTokens(c)) && !ServerLexes(SpaceText(c, u), 0, false, SpaceTokens(c))
  {
    var sql, tokens := SpaceText(c, u), SpaceTokens(c);
    if IsQuote(c) {
      assert QuoteEnds(sql, 1, c, 2);
      QuotedMeansEnds(sql, 0, 2);
    } else if !WordStart(c) {
      assert OtherAt(sql, 0) by { if TagAt(sql, 0) { LoneDollar(c, u); } }
    }
    hide QuotedAt, OtherAt;
    var n := |sql|;
    assert TokenOk(sql, tokens[0]) && TokenOk(sql, tokens[1]) && !ServerToken(sql, tokens[1], false) && !ServerToken(sql, tokens[1], true);
    hide TokenOk, ServerToken;
    assert LexesFrom(sql, n, tokens[2..]) && LexesFrom(sql, n - 1, tokens[1..]);
    assert !ServerLexes(sql, n - 1, EscapePrefix(sql, tokens[0]), tokens[1..]);
  }

  lemma SpaceDiffers(c: int, u: int)
    requires BeyondAscii(u) && IsSpace(u) && !IsSpace(c) && c != SEMICOLON
    ensures Differs(SpaceText(c, u), SpaceTokens(c))
  {
    var sql, tokens := SpaceText(c, u), SpaceTokens(c);
    SpaceLexes(c, u);
    hide LexesFrom, ServerLexes;
    assert Visible(tokens[2..]) == [] && Visible(tokens[1..]) == [] && Visible(tokens) == [tokens[0]];
    if WordStart(c) { ShortWord(sql, tokens); } else { OneShown(sql, tokens, tokens[0]); }
  }

  lemma LoneDollar(c: int, u: int)
    requires u != DOLLAR
    ensures !TagAt([c, u], 0)
  {
    forall tag | StartsTag([c, u], 0, tag) ensures false { TagUnits([c, u], 0, tag); }
  }

  /** Over these units the scanner and the server lex every accepted text alike. */
  ghost predicate Agree(units: set<int>) {
    forall sql, tokens | Over(sql, units) && Acceptable(sql) ::
      LexesFrom(sql, 0, tokens) <==> ServerLexes(sql, 0, false, tokens)
  }

  lemma Disagree(units: set<int>, sql: JsString, tokens: seq<Token>)
    requires Over(sql, units) && Differs(sql, tokens)
    ensures !Agree(units)
  {
  }

  /**
   * Every accepted text over a set of code units has one lexing, the scanner's and the server's, exactly when no
   * escaped string can be written, no line comment can end at a carriage return, and there is nothing past ASCII to
   * take for a letter.
   */
  lemma AgreesExactly(units: set<int>)
    ensures SameLexing(units) <==> Agree(units)
  {
    hide LexesFrom, ServerLexes, Acceptable;
    if SameLexing(units) {
      forall sql, tokens | Over(sql, units) && Acceptable(sql)
        ensures LexesFrom(sql, 0, tokens) <==> ServerLexes(sql, 0, false, tokens)
      {
        if AsciiOnly(units) { LexingsAgree(sql, units, 0, false, tokens); } else { BlankIsRefused(sql, units); }
      }
    } else {
      hide Differs, Agree;
      if Escapes(units) {
        var e := if UPPER_E in units then UPPER_E else LOWER_E;
        EscapeDiffers(e);
        Disagree(units, [e, SINGLE, BACKSLASH, SINGLE], [Token(Word, 0, 1), Token(Quoted, 1, 4)]);
      } else if Returns(units) {
        var sql := [DASH, RETURN, DASH, DASH, RETURN];
        ReturnDiffers(sql);
        Disagree(units, sql, [Token(Other, 0, 1), Token(Space, 1, 2), Token(LineComment, 2, 5)]);
      } else {
        var u :| u in units && BeyondAscii(u);
        if !IsSpace(u) {
          LetterDiffers(u);
          Disagree(units, [u], [Token(Other, 0, 1)]);
        } else {
          var c :| c in units && !IsSpace(c) && c != SEMICOLON;
          SpaceDiffers(c, u);
          Disagree(units, SpaceText(c, u), SpaceTokens(c));
        }
      }
    }
  }
}
