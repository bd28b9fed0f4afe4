/**
 * Properties of the character-level rules: what Spacing skips and where it
 * stops, where comments end, the keyword boundary, and the order in which
 * the infix operators are tried.
 */
module LexicalFacts {
  import opened Forms
  import opened Lexical

  // --------------------------------
  // Spacing
  // --------------------------------

  /** Spacing stops only where none of its alternatives matches. */
  lemma {:induction false} SpacingIsMaximal(s: string)
    ensures SpaceItem(Spacing(s)).None?
    decreases |s|
  {
    match SpaceItem(s)
    case Some(rest) => SpacingIsMaximal(rest);
    case None =>
  }

  /** Skipping spacing twice skips no more than once. */
  lemma SpacingIsIdempotent(s: string)
    ensures Spacing(Spacing(s)) == Spacing(s)
  {
    SpacingIsMaximal(s);
  }

  /** Spacing leaves the input alone exactly when it does not start with
      whitespace, a closed traditional comment or an end-of-line comment. */
  lemma SpacingFixedPoint(s: string)
    ensures Spacing(s) == s <==> SpaceItem(s).None?
  {
    match SpaceItem(s)
    case Some(rest) =>
      assert |Spacing(rest)| <= |rest| < |s|;
    case None =>
  }

  /** A traditional comment is closed exactly when a `*\/` follows its
      opener. */
  lemma {:induction false} BlockCommentCloses(s: string)
    ensures BlockCommentRest(s).Some? <==> HasClose(s)
    decreases |s|
  {
    if |s| < 2 {
    } else if s[0] == '*' && s[1] == '/' {
      assert HasClose(s);
    } else {
      BlockCommentCloses(s[1..]);
      if HasClose(s) {
        var i :| 0 <= i < |s| - 1 && s[i] == '*' && s[i + 1] == '/';
        assert i > 0;
        assert s[1..][i - 1] == '*' && s[1..][i] == '/';
      }
      if HasClose(s[1..]) {
        var i :| 0 <= i < |s[1..]| - 1 && s[1..][i] == '*' && s[1..][i + 1] == '/';
        assert s[i + 1] == '*' && s[i + 2] == '/';
      }
    }
  }

  /** A traditional comment ends at the first `*\/`, whatever the text
      before it holds, another opener included. */
  lemma {:induction false} BlockCommentEndsAtFirstClose(body: string, t: string)
    requires !HasClose(body)
    ensures BlockCommentRest(body + "*/" + t) == Some(t)
    decreases |body|
  {
    var s := body + "*/" + t;
    if |body| == 0 {
      assert s == "*/" + t;
      assert s[2..] == t;
    } else {
      if |body| >= 2 {
        assert !(body[0] == '*' && body[1] == '/');
      }
      assert s[1..] == body[1..] + "*/" + t;
      var tail := body[1..];
      assert forall i :: 0 <= i < |tail| ==> tail[i] == body[i + 1];
      BlockCommentEndsAtFirstClose(body[1..], t);
    }
  }

  /** A comment opener, a second opener and a closer: the closer ends the
      comment, so comments do not nest and whatever follows is read again. */
  lemma CommentsDoNotNest(t: string)
    ensures Spacing("/*/**/" + t) == Spacing(t)
  {
    var s := "/*/**/" + t;
    assert s[0] == '/' && s[1] == '*';
    assert s[2..] == "/*" + "*/" + t;
    assert !HasClose("/*");
    BlockCommentEndsAtFirstClose("/*", t);
    assert SpaceItem(s) == Some(t);
  }

  /** A traditional comment that is never closed is not spacing: the
      input is left as it is. */
  lemma UnclosedCommentIsNotSkipped(body: string)
    requires !HasClose(body)
    ensures Spacing("/*" + body) == "/*" + body
  {
    var s := "/*" + body;
    assert s[2..] == body;
    BlockCommentCloses(body);
    assert !("//" <= s) by { assert s[1] == '*'; }
    assert SpaceItem(s) == None;
  }

  /** No line break among the characters of `s`. */
  predicate NoLineBreak(s: string)
  {
    forall i :: 0 <= i < |s| ==> s[i] != '\r' && s[i] != '\n'
  }

  /** An end-of-line comment runs to the first line break and takes it. */
  lemma {:induction false} LineCommentEndsAtLineBreak(body: string, brk: string, t: string)
    requires NoLineBreak(body)
    requires brk == "\r\n" || brk == "\n" || (brk == "\r" && !("\n" <= t))
    ensures LineCommentRest(body + brk + t) == t
    decreases |body|
  {
    var s := body + brk + t;
    if |body| == 0 {
      assert s == brk + t;
      if brk == "\r" && |t| > 0 {
        assert t[0] != '\n' by { assert t[..1] != "\n"; }
      }
      assert s[|brk|..] == t;
    } else {
      assert s[0] == body[0];
      assert s[1..] == body[1..] + brk + t;
      LineCommentEndsAtLineBreak(body[1..], brk, t);
    }
  }

  /** An end-of-line comment with no line break after it runs to the end of
      the input. */
  lemma {:induction false} LineCommentEndsAtEndOfInput(body: string)
    requires NoLineBreak(body)
    ensures LineCommentRest(body) == []
    decreases |body|
  {
    if |body| > 0 {
      LineCommentEndsAtEndOfInput(body[1..]);
    }
  }

  /** Spacing over an end-of-line comment goes on after its line break. */
  lemma LineCommentIsSpacing(body: string, t: string)
    requires NoLineBreak(body)
    ensures Spacing("//" + body + "\n" + t) == Spacing(t)
  {
    var s := "//" + body + "\n" + t;
    assert s[2..] == body + "\n" + t;
    LineCommentEndsAtLineBreak(body, "\n", t);
    assert !IsWhitespace(s[0]);
    assert !("/*" <= s) by { assert s[1] == '/'; }
    assert SpaceItem(s) == Some(t);
  }

  // --------------------------------
  // Keywords and EQU
  // --------------------------------

  /** A keyword is read exactly when it is not followed by a letter, a digit
      or a Unicode escape; spacing after it is skipped. */
  lemma KeywordBoundary(k: string, isLetterOrDigit: char -> bool, t: string)
    ensures Keyword(k, isLetterOrDigit, k + t).Some? <==> !LetterOrDigit(t, isLetterOrDigit)
    ensures Keyword(k, isLetterOrDigit, k + t).Some? ==>
      Keyword(k, isLetterOrDigit, k + t).value == Spacing(t)
  {
    assert (k + t)[|k|..] == t;
  }

  /** A keyword only matches input that starts with it. */
  lemma KeywordNeedsItsSpelling(k: string, isLetterOrDigit: char -> bool, s: string)
    requires Keyword(k, isLetterOrDigit, s).Some?
    ensures k <= s && !LetterOrDigit(s[|k|..], isLetterOrDigit)
  {
  }

  /** `defn` is never read as the keyword `def`. */
  lemma DefnIsNotDef(isLetterOrDigit: char -> bool, t: string)
    requires isLetterOrDigit('n')
    ensures Keyword("def", isLetterOrDigit, "defn" + t).None?
  {
    assert "defn" + t == "def" + ("n" + t);
    LetterFollows("def", "n" + t, isLetterOrDigit);
  }

  /** `define` is not the keyword `def` either. */
  lemma DefineIsNotDef(isLetterOrDigit: char -> bool, t: string)
    requires isLetterOrDigit('i')
    ensures Keyword("def", isLetterOrDigit, "define" + t).None?
  {
    assert "define" + t == "def" + ("ine" + t);
    LetterFollows("def", "ine" + t, isLetterOrDigit);
  }

  /** A keyword directly followed by a letter or digit is not read. */
  lemma LetterFollows(k: string, after: string, isLetterOrDigit: char -> bool)
    requires |after| > 0 && isLetterOrDigit(after[0])
    ensures Keyword(k, isLetterOrDigit, k + after).None?
  {
    assert LetterOrDigit(after, isLetterOrDigit);
    KeywordBoundary(k, isLetterOrDigit, after);
  }

  /** A Unicode escape counts as a letter: `doA` is no keyword. */
  lemma EscapeEndsNoKeyword(isLetterOrDigit: char -> bool, t: string)
    ensures Keyword("do", isLetterOrDigit, "do\\u0041" + t).None?
  {
    var e := "u0041" + t;
    assert SkipUs(e) == SkipUs(e[1..]);
    assert e[1..] == "0041" + t;
    assert SkipUs(e) == e[1..];
    assert UnicodeEscape(e);
    assert ("\\" + e)[1..] == e;
    KeywordBoundary("do", isLetterOrDigit, "\\" + e);
    assert "do" + ("\\" + e) == "do\\u0041" + t;
  }

  /** EQU reads a single `=` and refuses `==`. */
  lemma EquIsSingle(t: string)
    ensures Equ("==" + t).None?
    ensures !("=" <= t) ==> Equ("=" + t) == Some(Spacing(t))
  {
    assert ("==" + t)[1..] == "=" + t;
    assert ("=" + t)[1..] == t;
  }

  // --------------------------------
  // Infix operators
  // --------------------------------

  /** The alternative at index `i` is the first that matches, so the
      operator is read from it. */
  lemma ReadsAt(s: string, i: nat)
    requires i < |INFIX_OPERATORS| && INFIX_OPERATORS[i].0 <= s
    requires forall j :: 0 <= j < i ==> !(INFIX_OPERATORS[j].0 <= s)
    ensures InfixOperator(s) == Some((INFIX_OPERATORS[i].1, Spacing(s[|INFIX_OPERATORS[i].0|..])))
  {
    var m := FirstMatch(INFIX_OPERATORS, s, 0);
    assert m == i;
  }

  /** The second `==` alternative can never be reached: the first one takes
      every input it would match. */
  lemma DuplicateEqualsIsDead(s: string)
    ensures FirstMatch(INFIX_OPERATORS, s, 0) != 5
  {
  }

  /** The second character of the input is not `=`. */
  lemma NoEqualsAfter(c: char, t: string)
    requires !("=" <= t)
    ensures |[c] + t| == 1 || ([c] + t)[1] != '='
  {
    if |t| > 0 {
      assert t[..1] != "=";
    }
  }

  /** Each operator's spelling reads back as that operator when no `=`
      follows it; in particular `<` and `>` are read alone only then. */
  lemma OperatorRoundTrip(op: InfixOp, t: string)
    requires !("=" <= t)
    ensures InfixOperator(OpSpelling(op) + t) == Some((op, Spacing(t)))
  {
    if op in {Plus, Minus, Times, Divide, Equals} {
      ArithmeticRoundTrip(op, t);
    } else {
      ComparisonRoundTrip(op, t);
    }
  }

  lemma ArithmeticRoundTrip(op: InfixOp, t: string)
    requires op in {Plus, Minus, Times, Divide, Equals}
    ensures InfixOperator(OpSpelling(op) + t) == Some((op, Spacing(t)))
  {
    var s := OpSpelling(op) + t;
    assert s[..|OpSpelling(op)|] == OpSpelling(op);
    assert s[|OpSpelling(op)|..] == t;
    match op
    case Plus =>
      ReadsAt(s, 0);
    case Minus =>
      assert s[0] == '-';
      ReadsAt(s, 1);
    case Times =>
      assert s[0] == '*';
      ReadsAt(s, 2);
    case Divide =>
      assert s[0] == '/';
      ReadsAt(s, 3);
    case Equals =>
      assert s[0] == '=';
      ReadsAt(s, 4);
  }

  lemma ComparisonRoundTrip(op: InfixOp, t: string)
    requires op in {Le, Lt, Ge, Gt} && !("=" <= t)
    ensures InfixOperator(OpSpelling(op) + t) == Some((op, Spacing(t)))
  {
    var s := OpSpelling(op) + t;
    assert s[..|OpSpelling(op)|] == OpSpelling(op);
    assert s[|OpSpelling(op)|..] == t;
    match op
    case Le =>
      assert s[0] == '<';
      ReadsAt(s, 6);
    case Lt =>
      NoEqualsAfter('<', t);
      assert s[0] == '<' && (|s| == 1 || s[1] != '=');
      ReadsAt(s, 7);
    case Ge =>
      assert s[0] == '>';
      ReadsAt(s, 8);
    case Gt =>
      NoEqualsAfter('>', t);
      assert s[0] == '>' && (|s| == 1 || s[1] != '=');
      ReadsAt(s, 9);
  }

  /** `<=` is tried before `<`: it is never read as `<` followed by `=`. */
  lemma LeBeforeLt(t: string)
    ensures InfixOperator("<=" + t) == Some((Le, Spacing(t)))
  {
    var s := "<=" + t;
    assert s[0] == '<' && s[1] == '=';
    assert s[..2] == "<=" && s[2..] == t;
    ReadsAt(s, 6);
  }

  /** `>=` is tried before `>`. */
  lemma GeBeforeGt(t: string)
    ensures InfixOperator(">=" + t) == Some((Ge, Spacing(t)))
  {
    var s := ">=" + t;
    assert s[0] == '>' && s[1] == '=';
    assert s[..2] == ">=" && s[2..] == t;
    ReadsAt(s, 8);
  }

  /** A lone `=` is not an infix operator. */
  lemma SingleEqualsIsNoOperator(t: string)
    requires !("=" <= t)
    ensures InfixOperator("=" + t).None?
  {
    var s := "=" + t;
    NoEqualsAfter('=', t);
    assert s[0] == '=' && (|s| == 1 || s[1] != '=');
    assert FirstMatch(INFIX_OPERATORS, s, 0) == |INFIX_OPERATORS|;
  }
}
