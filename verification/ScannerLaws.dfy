/** What the reference lexing and the verdict come to: comments nest, and neither control words nor a second statement pass. */
module ScannerLaws {
  import opened Wrappers
  import opened Utf16
  import opened SqlScanner
  import opened EarlyCommit

  /** A comment that has closed leaves those around it as they were. */
  lemma {:induction false} ClosedIsTransparent(sql: JsString, p: int, inner: nat, j: int, outer: nat, k: int)
    requires Closes(sql, p, inner, j)
    ensures Closes(sql, p, outer + inner, k) <==> Closes(sql, j, outer, k)
    decreases |sql| - p
  {
    if inner > 0 {
      if sql[p] == SLASH && At(sql, p + 1) == STAR { ClosedIsTransparent(sql, p + 2, inner + 1, j, outer, k); }
      else if sql[p] == STAR && At(sql, p + 1) == SLASH { ClosedIsTransparent(sql, p + 2, inner - 1, j, outer, k); }
      else { ClosedIsTransparent(sql, p + 1, inner, j, outer, k); }
    }
  }

  /** A comment inside a comment hides its own end: the outer one ends where it would without the inner one. */
  lemma CommentsNest(sql: JsString, i: int, j: int, outer: nat, k: int)
    requires BlockCommentAt(sql, i, j) && outer >= 1
    ensures Closes(sql, i, outer, k) <==> Closes(sql, j, outer, k)
  {
    ClosedIsTransparent(sql, i + 2, 1, j, outer, k);
    hide Closes;
    assert Closes(sql, i, outer, k) <==> Closes(sql, i + 2, outer + 1, k) by { Opens(sql, i, outer, k); }
  }

  lemma Opens(sql: JsString, i: int, outer: nat, k: int)
    requires outer >= 1 && At(sql, i) == SLASH && At(sql, i + 1) == STAR
    ensures Closes(sql, i, outer, k) <==> Closes(sql, i + 2, outer + 1, k)
  {
  }

  /** Where no comment opens or closes a star and a slash stand for themselves, and the first `*` `/` ends a comment without another in it. */
  lemma {:induction false} PlainCommentEnds(sql: JsString, p: nat, j: nat)
    requires p <= j && j + 2 <= |sql| && sql[j] == STAR && sql[j + 1] == SLASH
    requires forall k :: p <= k < j ==> !(sql[k] == SLASH && sql[k + 1] == STAR) && !(sql[k] == STAR && sql[k + 1] == SLASH)
    ensures Closes(sql, p, 1, j + 2)
    decreases j - p
  {
    if p < j { PlainCommentEnds(sql, p + 1, j); } else { assert Closes(sql, j + 2, 0, j + 2); }
  }

  /** Transaction and session control. */
  predicate ControlWord(word: string) {
    || word == "BEGIN" || word == "START" || word == "COMMIT" || word == "END" || word == "ROLLBACK" || word == "ABORT"
    || word == "SAVEPOINT" || word == "RELEASE" || word == "PREPARE"
    || word == "SET" || word == "RESET" || word == "DISCARD" || word == "CALL" || word == "DO"
  }

  /** The units spell a keyword in some mix of cases. */
  predicate SpellsInAnyCase(units: JsString, keyword: string) {
    |units| == |keyword| && forall k :: 0 <= k < |keyword| ==> units[k] == keyword[k] as int || units[k] == keyword[k] as int + 32
  }

  lemma ForbiddenExactly(keyword: string)
    ensures ControlWord(keyword) <==> exists i :: 0 <= i < |FORBIDDEN| && FORBIDDEN[i] == keyword
  {
    var f := FORBIDDEN;
    assert f[0] == "BEGIN" && f[1] == "START" && f[2] == "COMMIT" && f[3] == "END" && f[4] == "ROLLBACK" && f[5] == "ABORT"
           && f[6] == "SAVEPOINT" && f[7] == "RELEASE" && f[8] == "PREPARE" && f[9] == "SET" && f[10] == "RESET"
           && f[11] == "DISCARD" && f[12] == "CALL" && f[13] == "DO";
  }

  lemma UpperSpells(units: JsString, keyword: string)
    requires SpellsInAnyCase(units, keyword) && forall k :: 0 <= k < |keyword| ==> 'A' <= keyword[k] <= 'Z'
    ensures Spells(Upper(units), keyword)
  {
    forall k | 0 <= k < |units| ensures |Upper(units)| == |units| && Upper(units)[k] == keyword[k] as int { UpperAt(units, k); }
    if |units| == 0 { EmptyUpper(); }
    hide Upper;
  }

  lemma ControlIsUpper(keyword: string)
    requires ControlWord(keyword)
    ensures forall k :: 0 <= k < |keyword| ==> 'A' <= keyword[k] <= 'Z'
  {
  }

  /** Whatever white space and comments stand before it, a statement that begins with a control word in any case is refused. */
  lemma ControlIsRefused(sql: JsString, tokens: seq<Token>, keyword: string)
    requires LexesFrom(sql, 0, tokens) && |Visible(tokens)| > 0 && ControlWord(keyword)
    requires var t := Visible(tokens)[0];
             t.kind == Word && 0 <= t.start <= t.end <= |sql| && SpellsInAnyCase(sql[t.start..t.end], keyword)
    ensures !Acceptable(sql)
  {
    var t := Visible(tokens)[0];
    ControlIsUpper(keyword);
    UpperSpells(sql[t.start..t.end], keyword);
    ForbiddenExactly(keyword);
    assert IsForbidden(Upper(sql[t.start..t.end])) by { hide FORBIDDEN; }
    hide Upper, IsForbidden, LexesFrom, Visible, SpellsInAnyCase, ControlWord;
    forall all | LexesFrom(sql, 0, all) ensures all == tokens { LexingIsUnique(sql, 0, all, tokens); }
  }

  /** Anything but white space and comments after a semicolon is refused, and so is a text with nothing else in it. */
  lemma SecondStatementsAreRefused(sql: JsString, tokens: seq<Token>)
    requires LexesFrom(sql, 0, tokens)
    requires Visible(tokens) == [] || exists k, m :: 0 <= k < m < |tokens| && tokens[k].kind == Semicolon && IsContent(tokens[m])
    ensures !Acceptable(sql)
  {
    if Visible(tokens) != [] {
      var k, m :| 0 <= k < m < |tokens| && tokens[k].kind == Semicolon && IsContent(tokens[m]);
      ShownBetween(tokens, k, m);
    }
    hide LexesFrom, Visible, FirstWord, IsForbidden;
    forall all | LexesFrom(sql, 0, all) ensures all == tokens { LexingIsUnique(sql, 0, all, tokens); }
  }
}
