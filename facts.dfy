/**
 * Behaviours of the Scrypt grammar that follow from the order in which its
 * alternatives are tried, stated for all inputs where they hold for all
 * inputs and on a small example otherwise.
 */
module GrammarFacts {
  import opened Forms
  import opened Tokens
  import opened Grammar
  import opened RoundTrip

  // --------------------------------
  // Infix expressions
  // --------------------------------

  /** Whether an infix extension matches does not depend on its left operand. */
  lemma ExtensionIgnoresOperand(a: Form, b: Form, ts: seq<Token>)
    ensures InfixExtension(a, ts).Fail? <==> InfixExtension(b, ts).Fail?
    ensures InfixExtension(a, ts).Ok? ==> InfixExtension(b, ts).rest == InfixExtension(a, ts).rest
  {
  }

  /** A chain of infix extensions stops only where no extension matches. */
  lemma {:induction false} ChainIsMaximal(acc: Form, ts: seq<Token>, x: Form)
    requires InfixChain(acc, ts).Ok?
    ensures InfixExtension(x, InfixChain(acc, ts).rest).Fail?
    decreases |ts|
  {
    match InfixExtension(acc, ts)
    case Ok(f, rest) =>
      ChainIsMaximal(f, rest, x);
    case Fail =>
      ExtensionIgnoresOperand(acc, x, ts);
  }

  /** An expression extends over every infix operator it can: no infix
      extension matches after it. */
  lemma ExpressionIsMaximal(ts: seq<Token>, x: Form)
    requires Expression(ts).Ok?
    ensures InfixExtension(x, Expression(ts).rest).Fail?
  {
    var p := Primary(ts);
    ChainIsMaximal(p.value, p.rest, x);
  }

  /** The ZeroOrMore over InfixExtension matches at most once: its right
      operand has already taken every operator that follows, so operators
      associate to the right and have no precedence. */
  lemma InfixAtMostOnce(acc: Form, ts: seq<Token>, x: Form)
    requires InfixExtension(acc, ts).Ok?
    ensures InfixExtension(x, InfixExtension(acc, ts).rest).Fail?
  {
    ExpressionIsMaximal(ts[1..], x);
  }

  /** A literal followed by an infix operator and an expression. */
  lemma LiteralInfix(ts: seq<Token>)
    requires |ts| > 2 && ts[0].Literal? && ts[1].Op? && Expression(ts[2..]).Ok?
    requires !(|Expression(ts[2..]).rest| > 0 && Expression(ts[2..]).rest[0].Op?)
    ensures Expression(ts) ==
      Ok(InfixForm(ts[1].op, Lit(ts[0].atom), Expression(ts[2..]).value), Expression(ts[2..]).rest)
  {
    PrimaryLiteral(ts);
    assert ts[1..][1..] == ts[2..];
    ExprOfInfix(ts);
  }

  lemma LiteralAlone(ts: seq<Token>)
    requires |ts| > 0 && ts[0].Literal? && !(|ts| > 1 && ts[1].Op?)
    ensures Expression(ts) == Ok(Lit(ts[0].atom), ts[1..])
  {
    PrimaryLiteral(ts);
    ExprOfPrimary(ts);
  }

  /** An unwrapped entry `k v` of two literals reads as the entry, key first. */
  lemma LiteralEntry(ts: seq<Token>)
    requires |ts| >= 2 && ts[0].Literal? && ts[1].Literal? && !(|ts| > 2 && ts[2].Op?)
    ensures MapEntry(ts) == Ok(Entry(Lit(ts[0].atom), Lit(ts[1].atom)), ts[2..])
  {
    LiteralAlone(ts);
    LiteralAlone(ts[1..]);
    assert ts[1..][1..] == ts[2..];
  }

  /** `a - b - c` reads as `(- a (- b c))`. */
  lemma MinusIsRightAssociative(a: Atom, b: Atom, c: Atom)
    ensures Expression([Literal(a), Op(Minus), Literal(b), Op(Minus), Literal(c)]) ==
      Ok(InfixForm(Minus, Lit(a), InfixForm(Minus, Lit(b), Lit(c))), [])
  {
    var ts := [Literal(a), Op(Minus), Literal(b), Op(Minus), Literal(c)];
    LiteralAlone(ts[4..]);
    assert ts[2..][2..] == ts[4..];
    LiteralInfix(ts[2..]);
    LiteralInfix(ts);
  }

  /** `a * b + c` reads as `(* a (+ b c))`: there is no precedence. */
  lemma TimesDoesNotBindTighter(a: Atom, b: Atom, c: Atom)
    ensures Expression([Literal(a), Op(Times), Literal(b), Op(Plus), Literal(c)]) ==
      Ok(InfixForm(Times, Lit(a), InfixForm(Plus, Lit(b), Lit(c))), [])
  {
    var ts := [Literal(a), Op(Times), Literal(b), Op(Plus), Literal(c)];
    LiteralAlone(ts[4..]);
    assert ts[2..][2..] == ts[4..];
    LiteralInfix(ts[2..]);
    LiteralInfix(ts);
  }

  // --------------------------------
  // Compilation units
  // --------------------------------

  /** The compilation unit tries a lone expression, then a lone statement,
      then a sequence of statements, each of which must reach the end of the
      input; a form is returned only when one of them did, and when none
      matches the result is the "Invalid program." error. */
  lemma CompilationUnitOrder(ts: seq<Token>)
    ensures WholeExpression(ts).Ok? ==> ReadSyntax(ts) == Success(WholeExpression(ts).value)
    ensures WholeExpression(ts).Fail? && WholeStatement(ts).Ok? ==>
      ReadSyntax(ts) == Success(WholeStatement(ts).value)
    ensures WholeExpression(ts).Fail? && WholeStatement(ts).Fail? && WholeProgram(ts).Ok? ==>
      ReadSyntax(ts) == Success(WholeProgram(ts).value)
    ensures WholeExpression(ts).Fail? && WholeStatement(ts).Fail? && WholeProgram(ts).Fail? ==>
      ReadSyntax(ts) == Failure(INVALID_PROGRAM)
    ensures ReadSyntax(ts).Success? ==>
      WholeExpression(ts).Ok? || WholeStatement(ts).Ok? || WholeProgram(ts).Ok?
  {
  }

  /** A sequence of statements that reaches the end of the input is
      wrapped in `do`, in source order. */
  lemma ProgramIsDoForm(ts: seq<Token>)
    requires WholeProgram(ts).Ok?
    ensures Statements(ts).Ok? && Statements(ts).rest == []
    ensures WholeProgram(ts).value == DoForm(Statements(ts).value)
  {
  }

  /** The empty program is `(do)`. */
  lemma EmptyProgram()
    ensures ReadSyntax([]) == Success(DoForm([]))
  {
    assert Callable([]) == Fail;
    assert CallableExpression([]) == Fail;
    assert LambdaExpression([]) == Fail;
    assert Expression([]) == Fail;
    assert IfElseStatement([]) == Fail;
    assert BlockStatement([]) == Fail;
    assert Statement([]) == Fail;
  }

  /** `{}` as a whole program is the empty map, not an empty block: the
      expression alternative is tried first. */
  lemma EmptyBracesAreAMap()
    ensures ReadSyntax([LWing, RWing]) == Success(MapOf([]))
  {
    var ts := [LWing, RWing];
    assert ts[1..] == [RWing];
    assert Callable([RWing]) == Fail;
    assert CallableExpression([RWing]) == Fail;
    assert LambdaExpression([RWing]) == Fail;
    assert Expression([RWing]) == Fail;
    assert MapEntries([RWing]) == Ok([], [RWing]);
    assert MapExpression(ts) == Ok(MapOf([]), []);
    assert Callable(ts) == Ok(MapOf([]), []);
    assert CallableExpression(ts) == Fail;
    assert LambdaExpression(ts) == Fail;
    assert Primary(ts) == Ok(MapOf([]), []);
    assert Expression(ts) == Ok(MapOf([]), []);
  }

  /** At `{`, only a map can be a primary. */
  lemma PrimaryAtBrace(ts: seq<Token>)
    requires At(ts, LWing) && MapExpression(ts) == Fail
    ensures Expression(ts) == Fail
  {
    assert Callable(ts) == Fail;
    assert CallableExpression(ts) == Fail;
    assert LambdaExpression(ts) == Fail;
    assert Primary(ts) == Fail;
  }

  /** `{ x; };` is not a program: a block statement may not be directly
      followed by `;`, and `{ x; }` is no map. */
  lemma BlockBeforeSemicolonIsRejected(x: string)
    requires !IsReserved(x)
    ensures ReadSyntax([LWing, Word(x), Semi, RWing, Semi]) == Failure(INVALID_PROGRAM)
  {
    var ts := [LWing, Word(x), Semi, RWing, Semi];
    BraceIsNoMap(x);
    BlockThenSemicolon(x);
    assert Statements(ts) == Ok([], ts);
  }

  /** As an expression `{ x; ...` fails: `x` is a map key with no value. */
  lemma BraceIsNoMap(x: string)
    requires !IsReserved(x)
    ensures Expression([LWing, Word(x), Semi, RWing, Semi]) == Fail
  {
    var ts := [LWing, Word(x), Semi, RWing, Semi];
    var inner := ts[1..];
    assert inner[1..] == [Semi, RWing, Semi];
    ExprFailsAt(inner[1..]);
    PrimaryWord(inner);
    ExprOfPrimary(inner);
    assert MapEntry(inner) == Fail;
    assert MapEntries(inner) == Ok([], inner);
    PrimaryAtBrace(ts);
  }

  /** As a statement the block `{ x; }` is refused because `;` follows it. */
  lemma BlockThenSemicolon(x: string)
    requires !IsReserved(x)
    ensures Statement([LWing, Word(x), Semi, RWing, Semi]) == Fail
  {
    var ts := [LWing, Word(x), Semi, RWing, Semi];
    assert ts == [LWing] + ([Word(x), Semi] + ([RWing] + [Semi]));
    BracedWord(x, [Semi]);
    assert BlockStatement(ts) == Fail;
    assert IfElseStatement(ts) == Fail;
    BraceIsNoMap(x);
  }

  /** `{ x; }` is a braced body holding the one statement `x`. */
  lemma BracedWord(x: string, more: seq<Token>)
    requires !IsReserved(x)
    ensures Braced([LWing] + ([Word(x), Semi] + ([RWing] + more))) == Ok([Sym(x)], more)
  {
    var r := [RWing] + more;
    var inner := [Word(x), Semi] + r;
    WordStatement(x, r);
    StmtFailsAt(r);
    assert Statements(r) == Ok([], r);
    assert [Sym(x)] + [] == [Sym(x)];
    assert Statements(inner) == Ok([Sym(x)], r);
    assert ([LWing] + inner)[1..] == inner;
    assert r[1..] == more;
  }

  /** `x;` is the expression statement `x`. */
  lemma WordStatement(x: string, more: seq<Token>)
    requires !IsReserved(x)
    ensures Statement([Word(x), Semi] + more) == Ok(Sym(x), more)
  {
    var ts := [Word(x), Semi] + more;
    assert ts[1..] == [Semi] + more;
    assert ([Semi] + more)[1..] == more;
    ExprFailsAt(ts[1..]);
    PrimaryWord(ts);
    ExprOfPrimary(ts);
    OnlyExpressionStatement(ts);
  }

  /** `else` belongs to the nearest `if`. */
  lemma DanglingElse(a: Atom, b: Atom, x: Atom, y: Atom)
    ensures Statement([IF_KW, LPar, Literal(a), RPar, IF_KW, LPar, Literal(b), RPar,
                       Literal(x), Semi, ELSE_KW, Literal(y), Semi]) ==
      Ok(CondForm(Lit(a), CondElseForm(Lit(b), Lit(x), Lit(y))), [])
  {
    var ts := [IF_KW, LPar, Literal(a), RPar, IF_KW, LPar, Literal(b), RPar,
               Literal(x), Semi, ELSE_KW, Literal(y), Semi];
    var inner := ts[4..];
    InnerIfElse(b, x, y);
    assert inner == [IF_KW, LPar, Literal(b), RPar, Literal(x), Semi, ELSE_KW, Literal(y), Semi];
    LitTest(ts[1..]);
    assert ts[1..][3..] == inner;
    assert IfElseArms(ts) == Fail;
    assert IfArm(ts) == Ok(CondForm(Lit(a), CondElseForm(Lit(b), Lit(x), Lit(y))), []);
  }

  /** The inner `if` of a dangling `else` takes both arms. */
  lemma InnerIfElse(b: Atom, x: Atom, y: Atom)
    ensures Statement([IF_KW, LPar, Literal(b), RPar, Literal(x), Semi, ELSE_KW, Literal(y), Semi]) ==
      Ok(CondElseForm(Lit(b), Lit(x), Lit(y)), [])
  {
    var inner := [IF_KW, LPar, Literal(b), RPar, Literal(x), Semi, ELSE_KW, Literal(y), Semi];
    LitStatement(inner[7..]);
    assert inner[7..][2..] == [];
    LitStatement(inner[4..]);
    assert inner[4..][2..] == inner[6..];
    LitTest(inner[1..]);
    assert inner[1..][3..] == inner[4..];
    assert inner[6..][1..] == inner[7..];
    assert IfElseArms(inner) == Ok(CondElseForm(Lit(b), Lit(x), Lit(y)), []);
  }

  lemma LitTest(ts: seq<Token>)
    requires |ts| >= 3 && ts[0] == LPar && ts[1].Literal? && ts[2] == RPar
    ensures ParExpression(ts) == Ok(Lit(ts[1].atom), ts[3..])
  {
    PrimaryLiteral(ts[1..]);
    assert ts[1..][1..] == ts[2..];
    assert InfixChain(Lit(ts[1].atom), ts[2..]) == Ok(Lit(ts[1].atom), ts[2..]);
  }

  lemma LitStatement(ts: seq<Token>)
    requires |ts| >= 2 && ts[0].Literal? && ts[1] == Semi
    ensures Statement(ts) == Ok(Lit(ts[0].atom), ts[2..])
  {
    PrimaryLiteral(ts);
    assert InfixChain(Lit(ts[0].atom), ts[1..]) == Ok(Lit(ts[0].atom), ts[1..]);
    assert Expression(ts) == Ok(Lit(ts[0].atom), ts[1..]);
    assert IfElseStatement(ts) == Fail;
    assert BlockStatement(ts) == Fail;
  }

  /** A vector left open at the end of input ends the parse with the
      "Expected closing ']'" error, whatever alternatives remain. */
  lemma UnclosedVectorIsAnError(a: Atom)
    ensures ReadSyntax([LBrk, Literal(a)]) == Failure(EXPECTED_CLOSING_BRACKET)
  {
    var ts := [LBrk, Literal(a)];
    LiteralAlone(ts[1..]);
    assert ts[1..][1..] == [];
    assert [Lit(a)] + [] == [Lit(a)];
    assert ExprList(ts[1..]) == Ok([Lit(a)], []);
    assert VectorExpression(ts) == Abort(EXPECTED_CLOSING_BRACKET);
    assert Callable(ts) == Abort(EXPECTED_CLOSING_BRACKET);
    assert CallableExpression(ts) == Abort(EXPECTED_CLOSING_BRACKET);
    assert Primary(ts) == Abort(EXPECTED_CLOSING_BRACKET);
    assert Expression(ts) == Abort(EXPECTED_CLOSING_BRACKET);
  }
}
