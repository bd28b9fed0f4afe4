/**
 * The Scrypt grammar (class ScryptNext) as a recursive-descent PEG parser
 * over tokens. Every rule takes the remaining input and answers
 *   Ok(value, rest)  it matched, leaving `value` as its net push on the
 *                    value stack and `rest` unconsumed;
 *   Fail             it did not match (an ordered choice tries the next
 *                    alternative; input and value stack are restored);
 *   Abort(msg)       the Reader's `error` was raised, which ends the parse.
 * Alternatives are tried in the source's order, and the value each rule
 * builds is the one its semantic action pushes (see ValueStack for the
 * pop order of the actions themselves).
 */
module Grammar {
  import opened Forms
  import opened Tokens

  datatype Parsed<+T> = Ok(value: T, rest: seq<Token>) | Fail | Abort(msg: string) {
    predicate IsFailure() { !Ok? }
    function PropagateFailure<U>(): Parsed<U>
      requires !Ok?
    {
      if Fail? then Fail else Abort(msg)
    }
    function Extract(): (T, seq<Token>)
      requires Ok?
    {
      (value, rest)
    }
  }

  datatype Result<+T> = Success(value: T) | Failure(error: string)

  const INVALID_PROGRAM := "Invalid program."
  const EXPECTED_CLOSING_BRACKET := "Expected closing ']'"

  /** PEG ordered choice: the second alternative is tried only when the
      first does not match. */
  function OrElse<T>(first: Parsed<T>, second: Parsed<T>): Parsed<T>
  {
    if first.Fail? then second else first
  }

  // --------------------------------
  // Terminals inherited from the Reader
  // --------------------------------

  function SymbolRule(ts: seq<Token>): (r: Parsed<Form>)
    ensures r.Ok? <==> |ts| > 0 && ts[0].Word?
    ensures r.Ok? ==> r.value == Sym(ts[0].name) && r.rest == ts[1..]
    ensures !r.Abort?
  {
    if |ts| > 0 && ts[0].Word? then Ok(Sym(ts[0].name), ts[1..]) else Fail
  }

  /** String, nil, number, boolean and keyword literals. */
  function LiteralRule(ts: seq<Token>): (r: Parsed<Form>)
    ensures r.Ok? <==> |ts| > 0 && ts[0].Literal?
    ensures r.Ok? ==> r.value == Lit(ts[0].atom) && r.rest == ts[1..]
    ensures !r.Abort?
  {
    if |ts| > 0 && ts[0].Literal? then Ok(Lit(ts[0].atom), ts[1..]) else Fail
  }

  // --------------------------------
  // Lists: ZeroOrMoreCommaSeparatedOf, ZeroOrMoreOf, MapEntries
  // --------------------------------

  /** ZeroOrMoreCommaSeparatedOf(Symbol()): always matches, so it gives the
      parameters and the remaining input. */
  function Params(ts: seq<Token>): (r: (seq<Form>, seq<Token>))
    ensures |r.1| <= |ts|
    ensures |r.0| > 0 <==> |ts| > 0 && ts[0].Word?
  {
    if |ts| > 0 && ts[0].Word? then
      var (more, rest) := ParamsTail(ts[1..]);
      ([Sym(ts[0].name)] + more, rest)
    else
      ([], ts)
  }

  /** ZeroOrMore(COMMA, Symbol()). */
  function ParamsTail(ts: seq<Token>): (r: (seq<Form>, seq<Token>))
    ensures |r.1| <= |ts|
  {
    if |ts| > 1 && ts[0] == Comma && ts[1].Word? then
      var (more, rest) := ParamsTail(ts[2..]);
      ([Sym(ts[1].name)] + more, rest)
    else
      ([], ts)
  }

  /** WrapInParenthesis(ZeroOrMoreCommaSeparatedOf(Symbol())). */
  function ParenParams(ts: seq<Token>): (r: Parsed<seq<Form>>)
    ensures r.Ok? ==> |r.rest| < |ts|
    ensures !r.Abort?
  {
    if At(ts, LPar) then
      var (ps, rest) := Params(ts[1..]);
      if At(rest, RPar) then Ok(ps, rest[1..]) else Fail
    else
      Fail
  }

  /** ZeroOrMoreCommaSeparatedOf(Expression()). */
  function ExprList(ts: seq<Token>): (r: Parsed<seq<Form>>)
    ensures !r.Fail?
    ensures r.Ok? ==> |r.rest| <= |ts|
    decreases |ts|, 7
  {
    match Expression(ts)
    case Ok(e, rest) =>
      var (more, rest') :- ExprListTail(rest);
      Ok([e] + more, rest')
    case Fail => Ok([], ts)
    case Abort(m) => Abort(m)
  }

  /** ZeroOrMore(COMMA, Expression()). */
  function ExprListTail(ts: seq<Token>): (r: Parsed<seq<Form>>)
    ensures !r.Fail?
    ensures r.Ok? ==> |r.rest| <= |ts|
    decreases |ts|, 0
  {
    if At(ts, Comma) then
      match Expression(ts[1..])
      case Ok(e, rest) =>
        var (more, rest') :- ExprListTail(rest);
        Ok([e] + more, rest')
      case Fail => Ok([], ts)
      case Abort(m) => Abort(m)
    else
      Ok([], ts)
  }

  /** WrapInParenthesis(ZeroOrMoreCommaSeparatedOf(Expression())). */
  function ParenList(ts: seq<Token>): (r: Parsed<seq<Form>>)
    ensures r.Ok? ==> |r.rest| < |ts|
    decreases |ts|, 0
  {
    if At(ts, LPar) then
      var (es, rest) :- ExprList(ts[1..]);
      if At(rest, RPar) then Ok(es, rest[1..]) else Fail
    else
      Fail
  }

  /** ZeroOrMoreOf(Statement()). */
  function Statements(ts: seq<Token>): (r: Parsed<seq<Form>>)
    ensures !r.Fail?
    ensures r.Ok? ==> |r.rest| <= |ts|
    decreases |ts|, 9
  {
    match Statement(ts)
    case Ok(s, rest) =>
      var (more, rest') :- Statements(rest);
      Ok([s] + more, rest')
    case Fail => Ok([], ts)
    case Abort(m) => Abort(m)
  }

  /** WrapInCurlyBraces(ZeroOrMoreOf(Statement())). */
  function Braced(ts: seq<Token>): (r: Parsed<seq<Form>>)
    ensures r.Ok? ==> |r.rest| < |ts|
    decreases |ts|, 0
  {
    if At(ts, LWing) then
      var (ss, rest) :- Statements(ts[1..]);
      if At(rest, RWing) then Ok(ss, rest[1..]) else Fail
    else
      Fail
  }

  // --------------------------------
  // Expressions
  // --------------------------------

  /** Expression: a primary alternative, then ZeroOrMore(InfixExtension()). */
  function Expression(ts: seq<Token>): (r: Parsed<Form>)
    ensures r.Ok? ==> |r.rest| < |ts|
    decreases |ts|, 6
  {
    var (p, rest) :- Primary(ts);
    InfixChain(p, rest)
  }

  /** The FirstOf of Expression, in the source's order (the Reader's Set
      rule is not part of this model). */
  function Primary(ts: seq<Token>): (r: Parsed<Form>)
    ensures r.Ok? ==> |r.rest| < |ts|
    decreases |ts|, 5
  {
    OrElse(DoExpression(ts),
    OrElse(CallableExpression(ts),
    OrElse(FnExpression(ts),
    OrElse(LambdaExpression(ts),
    OrElse(ParExpression(ts),
    OrElse(LiteralRule(ts),
    OrElse(SymbolRule(ts),
    OrElse(VectorExpression(ts),
           MapExpression(ts)))))))))
  }

  /** ZeroOrMore(InfixExtension()): each extension pops the operand built so
      far as its left operand. */
  function InfixChain(acc: Form, ts: seq<Token>): (r: Parsed<Form>)
    ensures !r.Fail?
    ensures r.Ok? ==> |r.rest| <= |ts|
    decreases |ts|, 1
  {
    match InfixExtension(acc, ts)
    case Ok(f, rest) => InfixChain(f, rest)
    case Fail => Ok(acc, ts)
    case Abort(m) => Abort(m)
  }

  /** InfixOperator(), Expression(), then infixExpression(). */
  function InfixExtension(operand1: Form, ts: seq<Token>): (r: Parsed<Form>)
    ensures r.Ok? ==> |r.rest| < |ts|
    decreases |ts|, 0
  {
    if |ts| > 0 && ts[0].Op? then
      var (operand2, rest) :- Expression(ts[1..]);
      Ok(InfixForm(ts[0].op, operand1, operand2), rest)
    else
      Fail
  }

  /** DO, then a braced block, then block(). */
  function DoExpression(ts: seq<Token>): (r: Parsed<Form>)
    ensures r.Ok? ==> |r.rest| < |ts|
    decreases |ts|, 1
  {
    if At(ts, DO_KW) then
      var (ss, rest) :- Braced(ts[1..]);
      Ok(BlockForm(ss), rest)
    else
      Fail
  }

  /** Callable: FnExpression, VectorExpression or MapExpression. */
  function Callable(ts: seq<Token>): (r: Parsed<Form>)
    ensures r.Ok? ==> |r.rest| < |ts|
    decreases |ts|, 3
  {
    OrElse(FnExpression(ts), OrElse(VectorExpression(ts), MapExpression(ts)))
  }

  /** A callable or a symbol, then a parenthesised argument list. */
  function CallableExpression(ts: seq<Token>): (r: Parsed<Form>)
    ensures r.Ok? ==> |r.rest| < |ts|
    decreases |ts|, 4
  {
    var (callee, rest) :- OrElse(Callable(ts), SymbolRule(ts));
    var (args, rest') :- ParenList(rest);
    Ok(CallForm(callee, args), rest')
  }

  /** FN, parenthesised parameters, braced statements. */
  function FnExpression(ts: seq<Token>): (r: Parsed<Form>)
    ensures r.Ok? ==> |r.rest| < |ts|
    decreases |ts|, 1
  {
    if At(ts, FN_KW) then
      var (params, rest) :- ParenParams(ts[1..]);
      var (body, rest') :- Braced(rest);
      Ok(FnForm(params, body), rest')
    else
      Fail
  }

  /** Parenthesised parameters, RIGHT_ARROW, one expression. */
  function LambdaExpression(ts: seq<Token>): (r: Parsed<Form>)
    ensures r.Ok? ==> |r.rest| < |ts|
    decreases |ts|, 2
  {
    var (params, rest) :- ParenParams(ts);
    if At(rest, Arrow) then
      var (body, rest') :- Expression(rest[1..]);
      Ok(LambdaForm(params, body), rest')
    else
      Fail
  }

  /** WrapInParenthesis(Expression()): the value is the inner expression's. */
  function ParExpression(ts: seq<Token>): (r: Parsed<Form>)
    ensures r.Ok? ==> |r.rest| < |ts|
    decreases |ts|, 0
  {
    if At(ts, LPar) then
      var (e, rest) :- Expression(ts[1..]);
      if At(rest, RPar) then Ok(e, rest[1..]) else Fail
    else
      Fail
  }

  /** LBRK, comma-separated expressions, then RBRK; a `}`, `)` or the end of
      input where the `]` should be raises an error. */
  function VectorExpression(ts: seq<Token>): (r: Parsed<Form>)
    ensures r.Ok? ==> |r.rest| < |ts|
    decreases |ts|, 1
  {
    if At(ts, LBrk) then
      var (es, rest) :- ExprList(ts[1..]);
      if At(rest, RBrk) then Ok(Vector(es), rest[1..])
      else if rest == [] || At(rest, RWing) || At(rest, RPar) then Abort(EXPECTED_CLOSING_BRACKET)
      else Fail
    else
      Fail
  }

  /** LWING, map entries, RWING. */
  function MapExpression(ts: seq<Token>): (r: Parsed<Form>)
    ensures r.Ok? ==> |r.rest| < |ts|
    decreases |ts|, 1
  {
    if At(ts, LWing) then
      var (entries, rest) :- MapEntries(ts[1..]);
      if At(rest, RWing) then Ok(MapOf(entries), rest[1..]) else Fail
    else
      Fail
  }

  /** Optional(MapEntry(), ZeroOrMore(COMMA, MapEntry())). */
  function MapEntries(ts: seq<Token>): (r: Parsed<seq<Form>>)
    ensures !r.Fail?
    ensures r.Ok? ==> |r.rest| <= |ts|
    decreases |ts|, 8
  {
    match MapEntry(ts)
    case Ok(en, rest) =>
      var (more, rest') :- MapEntriesTail(rest);
      Ok([en] + more, rest')
    case Fail => Ok([], ts)
    case Abort(m) => Abort(m)
  }

  function MapEntriesTail(ts: seq<Token>): (r: Parsed<seq<Form>>)
    ensures !r.Fail?
    ensures r.Ok? ==> |r.rest| <= |ts|
    decreases |ts|, 0
  {
    if At(ts, Comma) then
      match MapEntry(ts[1..])
      case Ok(en, rest) =>
        var (more, rest') :- MapEntriesTail(rest);
        Ok([en] + more, rest')
      case Fail => Ok([], ts)
      case Abort(m) => Abort(m)
    else
      Ok([], ts)
  }

  /** Two expressions, then buildMapEntry: the key is the first. */
  function MapEntry(ts: seq<Token>): (r: Parsed<Form>)
    ensures r.Ok? ==> |r.rest| < |ts|
    decreases |ts|, 7
  {
    var (key, rest) :- Expression(ts);
    var (val, rest') :- Expression(rest);
    Ok(Entry(key, val), rest')
  }

  // --------------------------------
  // Statements
  // --------------------------------

  /** The FirstOf of Statement, in the source's order. */
  function Statement(ts: seq<Token>): (r: Parsed<Form>)
    ensures r.Ok? ==> |r.rest| < |ts|
    decreases |ts|, 8
  {
    OrElse(IfElseStatement(ts),
    OrElse(WhenStatement(ts),
    OrElse(DefStatement(ts),
    OrElse(DefnStatement(ts),
    OrElse(BlockStatement(ts),
    OrElse(EmptyStatement(ts),
           ExpressionStatement(ts)))))))
  }

  /** The two-armed alternative is tried before the one-armed one. */
  function IfElseStatement(ts: seq<Token>): (r: Parsed<Form>)
    ensures r.Ok? ==> |r.rest| < |ts|
    decreases |ts|, 1
  {
    OrElse(IfElseArms(ts), IfArm(ts))
  }

  /** IF, ParExpression, Statement, ELSE, Statement, then ifElseStatement(). */
  function IfElseArms(ts: seq<Token>): (r: Parsed<Form>)
    ensures r.Ok? ==> |r.rest| < |ts|
    decreases |ts|, 0
  {
    if At(ts, IF_KW) then
      var (test, rest1) :- ParExpression(ts[1..]);
      var (ifBody, rest2) :- Statement(rest1);
      if At(rest2, ELSE_KW) then
        var (elseBody, rest3) :- Statement(rest2[1..]);
        Ok(CondElseForm(test, ifBody, elseBody), rest3)
      else
        Fail
    else
      Fail
  }

  /** IF, ParExpression, Statement, then ifStatement(). */
  function IfArm(ts: seq<Token>): (r: Parsed<Form>)
    ensures r.Ok? ==> |r.rest| < |ts|
    decreases |ts|, 0
  {
    if At(ts, IF_KW) then
      var (test, rest1) :- ParExpression(ts[1..]);
      var (body, rest2) :- Statement(rest1);
      Ok(CondForm(test, body), rest2)
    else
      Fail
  }

  /** WHEN, ParExpression, Statement, then whenStatement(). */
  function WhenStatement(ts: seq<Token>): (r: Parsed<Form>)
    ensures r.Ok? ==> |r.rest| < |ts|
    decreases |ts|, 0
  {
    if At(ts, WHEN_KW) then
      var (test, rest1) :- ParExpression(ts[1..]);
      var (body, rest2) :- Statement(rest1);
      Ok(CondForm(test, body), rest2)
    else
      Fail
  }

  /** DEF, Symbol, EQU, Expression, SEMI, then defStatement(). */
  function DefStatement(ts: seq<Token>): (r: Parsed<Form>)
    ensures r.Ok? ==> |r.rest| < |ts|
    decreases |ts|, 0
  {
    if At(ts, DEF_KW) then
      var (sym, rest1) :- SymbolRule(ts[1..]);
      if At(rest1, Equ) then
        var (expr, rest2) :- Expression(rest1[1..]);
        if At(rest2, Semi) then Ok(DefForm(sym, expr), rest2[1..]) else Fail
      else
        Fail
    else
      Fail
  }

  /** DEFN, Symbol, parenthesised parameters, braced statements, then
      defnStatement(). */
  function DefnStatement(ts: seq<Token>): (r: Parsed<Form>)
    ensures r.Ok? ==> |r.rest| < |ts|
    decreases |ts|, 0
  {
    if At(ts, DEFN_KW) then
      var (name, rest1) :- SymbolRule(ts[1..]);
      var (params, rest2) :- ParenParams(rest1);
      var (body, rest3) :- Braced(rest2);
      Ok(DefnForm(name, params, body), rest3)
    else
      Fail
  }

  /** A braced block not followed by SEMI, then block(). */
  function BlockStatement(ts: seq<Token>): (r: Parsed<Form>)
    ensures r.Ok? ==> |r.rest| < |ts|
    decreases |ts|, 1
  {
    var (ss, rest) :- Braced(ts);
    if At(rest, Semi) then Fail else Ok(BlockForm(ss), rest)
  }

  /** SEMI alone pushes nil. */
  function EmptyStatement(ts: seq<Token>): (r: Parsed<Form>)
    ensures r.Ok? <==> At(ts, Semi)
    ensures r.Ok? ==> r.value == Nil && r.rest == ts[1..]
    ensures !r.Abort?
  {
    if At(ts, Semi) then Ok(Nil, ts[1..]) else Fail
  }

  /** Expression, SEMI. */
  function ExpressionStatement(ts: seq<Token>): (r: Parsed<Form>)
    ensures r.Ok? ==> |r.rest| < |ts|
    decreases |ts|, 7
  {
    var (e, rest) :- Expression(ts);
    if At(rest, Semi) then Ok(e, rest[1..]) else Fail
  }

  // --------------------------------
  // Compilation unit and readSyntax
  // --------------------------------

  function WholeExpression(ts: seq<Token>): (r: Parsed<Form>)
    ensures r.Ok? ==> r.rest == []
    decreases |ts|, 7
  {
    var (e, rest) :- Expression(ts);
    if rest == [] then Ok(e, []) else Fail
  }

  function WholeStatement(ts: seq<Token>): (r: Parsed<Form>)
    ensures r.Ok? ==> r.rest == []
    decreases |ts|, 9
  {
    var (s, rest) :- Statement(ts);
    if rest == [] then Ok(s, []) else Fail
  }

  function WholeProgram(ts: seq<Token>): (r: Parsed<Form>)
    ensures r.Ok? ==> r.rest == []
    decreases |ts|, 10
  {
    var (ss, rest) :- Statements(ts);
    if rest == [] then Ok(DoForm(ss), []) else Fail
  }

  /** CompilationUnit: a lone expression, else a lone statement, else a
      sequence of statements wrapped in `do`, each reaching the end of input;
      when none matches, the "Invalid program." error. */
  function CompilationUnit(ts: seq<Token>): (r: Parsed<Form>)
    ensures !r.Fail?
    ensures r.Ok? ==> r.rest == []
    decreases |ts|, 11
  {
    var whole := OrElse(WholeExpression(ts), OrElse(WholeStatement(ts), WholeProgram(ts)));
    if whole.Fail? then Abort(INVALID_PROGRAM) else whole
  }

  /** readSyntax: the form the compilation unit matched, or the error that
      ended the parse. */
  function ReadSyntax(ts: seq<Token>): (r: Result<Form>)
    ensures r.Success? <==> CompilationUnit(ts).Ok?
  {
    match CompilationUnit(ts)
    case Ok(f, _) => Success(f)
    case Abort(m) => Failure(m)
    case Fail => Failure(INVALID_PROGRAM)
  }
}
