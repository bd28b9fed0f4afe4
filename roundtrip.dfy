/**
 * The grammar reads the printed text of a well-formed surface tree back as
 * exactly the core form the tree desugars to. Each lemma states one rule's
 * behaviour on printed text followed by an arbitrary remainder, under the
 * condition on that remainder the rule needs (what may follow it).
 */
module RoundTrip {
  import opened Forms
  import opened Tokens
  import opened Grammar
  import opened Surface

  /** What may follow an expression without extending it: not an argument
      list and not an infix operator. */
  predicate ExprFollow(rest: seq<Token>)
  {
    !(|rest| > 0 && (rest[0] == LPar || rest[0].Op?))
  }

  /** What may follow a statement without extending it: no `else`, and no
      `;` after a statement ending in a block. */
  predicate StmtFollow(s: Stmt, rest: seq<Token>)
  {
    !At(rest, ELSE_KW) && (EndsWithBlock(s) ==> !At(rest, Semi))
  }

  // --------------------------------
  // First tokens, and where nothing matches
  // --------------------------------

  lemma ExprHead(e: Expr)
    requires WfExpr(e)
    ensures |PrintExpr(e)| > 0
    ensures PrintExpr(e)[0].Word? || PrintExpr(e)[0].Literal? || PrintExpr(e)[0] in {LPar, LBrk, LWing}
    ensures PrintExpr(e)[0] == LWing <==> StartsWithBrace(e)
    ensures PrintExpr(e)[0].Word? ==> PrintExpr(e)[0].name !in {"if", "when", "def", "defn", "else"}
    ensures PrintExpr(e)[0].Word? ==> |PrintExpr(e)| == 1 || PrintExpr(e)[1] in {LPar, LWing}
  {
    if e.ECall? {
      var c := e.callee;
      assert PrintExpr(e) == PrintExpr(c) + ([LPar] + PrintList(e.args) + [RPar]);
    }
  }

  lemma StmtHead(s: Stmt)
    requires WfStmt(s)
    ensures |PrintStmt(s)| > 0
    ensures PrintStmt(s)[0] != ELSE_KW && !PrintStmt(s)[0].Op?
    ensures PrintStmt(s)[0] == Semi <==> s.SEmpty?
  {
    if s.SExpr? {
      ExprHead(s.e);
    }
  }

  lemma ExprFailsAt(ts: seq<Token>)
    requires ts == [] || ts[0] in {RPar, RBrk, RWing, Comma, Semi, Equ, Arrow} || ts[0].Op?
    ensures Expression(ts) == Fail
  {
    assert DoExpression(ts) == Fail;
    assert Callable(ts) == Fail;
    assert CallableExpression(ts) == Fail;
    assert FnExpression(ts) == Fail;
    assert LambdaExpression(ts) == Fail;
    assert ParExpression(ts) == Fail;
    assert VectorExpression(ts) == Fail;
    assert MapExpression(ts) == Fail;
    assert Primary(ts) == Fail;
  }

  lemma StmtFailsAt(ts: seq<Token>)
    requires ts == [] || At(ts, RWing)
    ensures Statement(ts) == Fail
  {
    ExprFailsAt(ts);
    assert IfElseStatement(ts) == Fail;
    assert BlockStatement(ts) == Fail;
  }

  /** An expression statement whose first token is not a statement keyword,
      `{` or `;` is only matched by the last alternative of Statement. */
  lemma OnlyExpressionStatement(ts: seq<Token>)
    requires |ts| > 0 && ts[0] !in {IF_KW, WHEN_KW, DEF_KW, DEFN_KW, LWing, Semi}
    ensures Statement(ts) == ExpressionStatement(ts)
  {
    assert IfElseStatement(ts) == Fail;
    assert BlockStatement(ts) == Fail;
  }

  // --------------------------------
  // Parameters
  // --------------------------------

  lemma {:induction false} ParamsTailRT(names: seq<string>, rest: seq<Token>)
    requires At(rest, RPar)
    ensures ParamsTail(PrintParamsTail(names) + rest) == (Syms(names), rest)
    decreases |names|
  {
    var ts := PrintParamsTail(names) + rest;
    if names == [] {
      assert ts == rest;
    } else {
      assert ts == [Comma, Word(names[0])] + (PrintParamsTail(names[1..]) + rest);
      assert ts[2..] == PrintParamsTail(names[1..]) + rest;
      ParamsTailRT(names[1..], rest);
      assert Syms(names) == [Sym(names[0])] + Syms(names[1..]);
    }
  }

  lemma {:induction false} ParamsRT(names: seq<string>, rest: seq<Token>)
    requires At(rest, RPar)
    ensures Params(PrintParams(names) + rest) == (Syms(names), rest)
  {
    var ts := PrintParams(names) + rest;
    if names == [] {
      assert ts == rest;
    } else {
      assert ts == [Word(names[0])] + (PrintParamsTail(names[1..]) + rest);
      assert ts[1..] == PrintParamsTail(names[1..]) + rest;
      ParamsTailRT(names[1..], rest);
      assert Syms(names) == [Sym(names[0])] + Syms(names[1..]);
    }
  }

  /** `( name )` is a one-parameter list. */
  lemma OneParam(name: string, rest: seq<Token>)
    ensures ParenParams([LPar, Word(name), RPar] + rest) == Ok([Sym(name)], rest)
  {
    var ts := [LPar, Word(name), RPar] + rest;
    assert ts[1..] == [Word(name)] + ([RPar] + rest);
    assert ts[1..][1..] == ts[2..] == [RPar] + rest;
    assert ParamsTail(ts[2..]) == ([], ts[2..]);
    assert [Sym(name)] + [] == [Sym(name)];
    assert Params(ts[1..]) == ([Sym(name)], [RPar] + rest);
    assert ([RPar] + rest)[1..] == rest;
  }

  /** `( e )` before anything but `->` is not a lambda. */
  lemma LambdaFailsOnParen(e: Expr, rest: seq<Token>)
    requires WfExpr(e) && !At(rest, Arrow)
    ensures LambdaExpression([LPar] + PrintExpr(e) + [RPar] + rest) == Fail
  {
    var ts := [LPar] + PrintExpr(e) + [RPar] + rest;
    ParenthesisedParams(e, rest);
    NoParamsNoLambda(ts);
  }

  /** A parenthesised printed expression is at most the one-name parameter
      list `( name )`. */
  lemma ParenthesisedParams(e: Expr, rest: seq<Token>)
    requires WfExpr(e)
    ensures ParenParams([LPar] + PrintExpr(e) + [RPar] + rest).Fail? ||
            ParenParams([LPar] + PrintExpr(e) + [RPar] + rest).rest == rest
  {
    ExprHead(e);
    var p := PrintExpr(e);
    var ts := [LPar] + p + [RPar] + rest;
    if p[0].Word? && |p| == 1 {
      assert ts == [LPar, p[0], RPar] + rest;
      OneParam(p[0].name, rest);
    } else if p[0].Word? {
      assert ts[1] == p[0] && ts[2] == p[1];
      WordThenOpenerIsNoParams(ts);
    } else {
      assert ts[1] == p[0];
      NonWordIsNoParams(ts);
    }
  }

  /** LambdaExpression needs a parameter list followed by `->`. */
  lemma NoParamsNoLambda(ts: seq<Token>)
    requires ParenParams(ts).Fail? || !At(ParenParams(ts).rest, Arrow)
    ensures LambdaExpression(ts) == Fail
  {
  }

  /** `( name (` and `( name {` start no parameter list. */
  lemma WordThenOpenerIsNoParams(ts: seq<Token>)
    requires |ts| > 2 && ts[0] == LPar && ts[1].Word? && ts[2] in {LPar, LWing}
    ensures ParenParams(ts) == Fail
  {
    assert ts[1..][1..] == ts[2..];
    assert ParamsTail(ts[2..]) == ([], ts[2..]);
  }

  /** `(` followed by neither a name nor `)` starts no parameter list. */
  lemma NonWordIsNoParams(ts: seq<Token>)
    requires |ts| > 1 && ts[0] == LPar && !ts[1].Word? && ts[1] != RPar
    ensures ParenParams(ts) == Fail
  {
    assert Params(ts[1..]) == ([], ts[1..]);
  }

  // --------------------------------
  // How the ordered choices dispatch on the first token
  // --------------------------------

  /** A word other than `do` and `fn` is a call when an argument list
      follows, and a symbol otherwise. */
  lemma PrimaryWord(ts: seq<Token>)
    requires |ts| > 0 && ts[0].Word? && ts[0] != DO_KW && ts[0] != FN_KW
    ensures ParenList(ts[1..]).Fail? ==> Primary(ts) == Ok(Sym(ts[0].name), ts[1..])
    ensures ParenList(ts[1..]).Ok? ==>
      Primary(ts) == Ok(CallForm(Sym(ts[0].name), ParenList(ts[1..]).value), ParenList(ts[1..]).rest)
  {
    assert Callable(ts) == Fail;
    assert LambdaExpression(ts) == Fail;
  }

  lemma PrimaryLiteral(ts: seq<Token>)
    requires |ts| > 0 && ts[0].Literal?
    ensures Primary(ts) == Ok(Lit(ts[0].atom), ts[1..])
  {
    assert Callable(ts) == Fail;
    assert CallableExpression(ts) == Fail;
    assert LambdaExpression(ts) == Fail;
  }

  /** A function, vector or map is a call when an argument list follows,
      and itself otherwise. */
  lemma PrimaryCallable(ts: seq<Token>)
    requires |ts| > 0 && ts[0] in {FN_KW, LBrk, LWing} && Callable(ts).Ok?
    ensures ParenList(Callable(ts).rest).Fail? ==> Primary(ts) == Callable(ts)
    ensures ParenList(Callable(ts).rest).Ok? ==>
      Primary(ts) == Ok(CallForm(Callable(ts).value, ParenList(Callable(ts).rest).value), ParenList(Callable(ts).rest).rest)
  {
    assert LambdaExpression(ts) == Fail;
  }

  /** At `(`, a lambda is tried before a parenthesised expression. */
  lemma PrimaryParen(ts: seq<Token>)
    requires At(ts, LPar)
    ensures Primary(ts) == OrElse(LambdaExpression(ts), ParExpression(ts))
  {
    assert Callable(ts) == Fail;
    assert CallableExpression(ts) == Fail;
  }

  lemma LambdaShape(ts: seq<Token>)
    requires ParenParams(ts).Ok? && At(ParenParams(ts).rest, Arrow)
    requires Expression(ParenParams(ts).rest[1..]).Ok?
    ensures LambdaExpression(ts) ==
      Ok(LambdaForm(ParenParams(ts).value, Expression(ParenParams(ts).rest[1..]).value),
         Expression(ParenParams(ts).rest[1..]).rest)
  {
  }

  lemma ExprOfPrimary(ts: seq<Token>)
    requires Primary(ts).Ok? && !(|Primary(ts).rest| > 0 && Primary(ts).rest[0].Op?)
    ensures Expression(ts) == Primary(ts)
  {
    assert InfixExtension(Primary(ts).value, Primary(ts).rest) == Fail;
  }

  lemma ExprOfInfix(ts: seq<Token>)
    requires Primary(ts).Ok?
    requires |Primary(ts).rest| > 0 && Primary(ts).rest[0].Op?
    requires Expression(Primary(ts).rest[1..]).Ok?
    requires !(|Expression(Primary(ts).rest[1..]).rest| > 0 && Expression(Primary(ts).rest[1..]).rest[0].Op?)
    ensures Expression(ts) ==
      Ok(InfixForm(Primary(ts).rest[0].op, Primary(ts).value, Expression(Primary(ts).rest[1..]).value),
         Expression(Primary(ts).rest[1..]).rest)
  {
    var z := Primary(ts).rest;
    var r := Expression(z[1..]).rest;
    var f := InfixForm(z[0].op, Primary(ts).value, Expression(z[1..]).value);
    assert InfixExtension(Primary(ts).value, z) == Ok(f, r);
    assert InfixExtension(f, r) == Fail;
    assert InfixChain(f, r) == Ok(f, r);
    assert InfixChain(Primary(ts).value, z) == Ok(f, r);
  }

  /** `if`: the two-armed form when an `else` follows the first branch,
      the one-armed form otherwise. */
  lemma IfShape(ts: seq<Token>)
    requires At(ts, IF_KW) && ParExpression(ts[1..]).Ok?
    requires Statement(ParExpression(ts[1..]).rest).Ok?
    ensures var test := ParExpression(ts[1..]);
            var body := Statement(test.rest);
            !At(body.rest, ELSE_KW) ==> Statement(ts) == Ok(CondForm(test.value, body.value), body.rest)
    ensures var test := ParExpression(ts[1..]);
            var body := Statement(test.rest);
            At(body.rest, ELSE_KW) && Statement(body.rest[1..]).Ok? ==>
              Statement(ts) == Ok(CondElseForm(test.value, body.value, Statement(body.rest[1..]).value),
                                  Statement(body.rest[1..]).rest)
  {
    var test := ParExpression(ts[1..]);
    var body := Statement(test.rest);
    assert IfArm(ts) == Ok(CondForm(test.value, body.value), body.rest);
    if !At(body.rest, ELSE_KW) {
      assert IfElseArms(ts) == Fail;
      assert IfElseStatement(ts) == IfArm(ts);
    } else if Statement(body.rest[1..]).Ok? {
      var elseBody := Statement(body.rest[1..]);
      assert IfElseArms(ts) == Ok(CondElseForm(test.value, body.value, elseBody.value), elseBody.rest);
    }
  }

  lemma WhenShape(ts: seq<Token>)
    requires At(ts, WHEN_KW) && ParExpression(ts[1..]).Ok?
    requires Statement(ParExpression(ts[1..]).rest).Ok?
    ensures var test := ParExpression(ts[1..]);
            var body := Statement(test.rest);
            Statement(ts) == Ok(CondForm(test.value, body.value), body.rest)
  {
    assert IfElseStatement(ts) == Fail;
  }

  lemma DefnShape(ts: seq<Token>)
    requires At(ts, DEFN_KW) && SymbolRule(ts[1..]).Ok?
    requires ParenParams(SymbolRule(ts[1..]).rest).Ok?
    requires Braced(ParenParams(SymbolRule(ts[1..]).rest).rest).Ok?
    ensures var name := SymbolRule(ts[1..]);
            var params := ParenParams(name.rest);
            var body := Braced(params.rest);
            Statement(ts) == Ok(DefnForm(name.value, params.value, body.value), body.rest)
  {
    assert DefnStatement(ts).Ok?;
    StmtDefn(ts);
  }

  lemma StmtWhen(ts: seq<Token>)
    requires At(ts, WHEN_KW) && WhenStatement(ts).Ok?
    ensures Statement(ts) == WhenStatement(ts)
  {
    assert IfElseStatement(ts) == Fail;
  }

  lemma StmtDef(ts: seq<Token>)
    requires At(ts, DEF_KW) && DefStatement(ts).Ok?
    ensures Statement(ts) == DefStatement(ts)
  {
    assert IfElseStatement(ts) == Fail;
  }

  lemma StmtDefn(ts: seq<Token>)
    requires At(ts, DEFN_KW) && DefnStatement(ts).Ok?
    ensures Statement(ts) == DefnStatement(ts)
  {
    assert IfElseStatement(ts) == Fail;
  }

  lemma StmtBlock(ts: seq<Token>)
    requires At(ts, LWing) && BlockStatement(ts).Ok?
    ensures Statement(ts) == BlockStatement(ts)
  {
    assert IfElseStatement(ts) == Fail;
  }

  lemma StmtEmpty(ts: seq<Token>)
    requires At(ts, Semi)
    ensures Statement(ts) == Ok(Nil, ts[1..])
  {
    assert IfElseStatement(ts) == Fail;
    assert BlockStatement(ts) == Fail;
  }

  // --------------------------------
  // Expressions
  // --------------------------------

  /** Expression reads a printed expression back as its desugaring. */
  lemma {:induction false} ExprRT(e: Expr, rest: seq<Token>)
    requires WfExpr(e) && ExprFollow(rest)
    ensures Expression(PrintExpr(e) + rest) == Ok(DesugarExpr(e), rest)
    decreases e, 4
  {
    if e.EInfix? {
      InfixRT(e, rest);
    } else {
      PrimaryRT(e, rest);
      ExprOfPrimary(PrintExpr(e) + rest);
    }
  }

  lemma {:induction false} InfixRT(e: Expr, rest: seq<Token>)
    requires WfExpr(e) && e.EInfix? && ExprFollow(rest)
    ensures Expression(PrintExpr(e) + rest) == Ok(DesugarExpr(e), rest)
    decreases e, 3
  {
    var y := PrintExpr(e.right) + rest;
    RegroupInfix(e.op, PrintExpr(e.left), PrintExpr(e.right), rest);
    ParenPrimaryRT(e.left, [Op(e.op)] + y);
    ExprRT(e.right, rest);
    InfixParts(PrintExpr(e) + rest, e.op, DesugarExpr(e.left), y, DesugarExpr(e.right), rest);
  }

  lemma RegroupInfix(op: InfixOp, l: seq<Token>, r: seq<Token>, rest: seq<Token>)
    ensures [LPar] + l + [RPar, Op(op)] + r + rest == [LPar] + l + [RPar] + ([Op(op)] + (r + rest))
  {
  }

  /** A primary, an operator and an expression with no operator after it. */
  lemma InfixParts(ts: seq<Token>, op: InfixOp, left: Form, y: seq<Token>, right: Form, rest: seq<Token>)
    requires Primary(ts) == Ok(left, [Op(op)] + y)
    requires Expression(y) == Ok(right, rest) && !(|rest| > 0 && rest[0].Op?)
    ensures Expression(ts) == Ok(InfixForm(op, left, right), rest)
  {
    assert ([Op(op)] + y)[1..] == y;
    ExprOfInfix(ts);
  }

  /** Primary reads every printed non-infix expression back. */
  lemma {:induction false} PrimaryRT(e: Expr, rest: seq<Token>)
    requires WfExpr(e) && !e.EInfix? && ExprFollow(rest)
    ensures Primary(PrintExpr(e) + rest) == Ok(DesugarExpr(e), rest)
    decreases e, 3
  {
    var ts := PrintExpr(e) + rest;
    assert ParenList(rest) == Fail;
    match e
    case ESym(name) =>
      assert ts[1..] == rest;
      PrimaryWord(ts);
    case ELit(atom) =>
      assert ts[1..] == rest;
      PrimaryLiteral(ts);
    case EDo(body) =>
      DoRT(e, rest);
    case ECall(callee, args) =>
      PrimaryCallRT(e, rest);
    case EFn(params, body) =>
      FnRT(e, rest);
      PrimaryCallable(ts);
    case ELambda(params, result) =>
      PrimaryLambdaRT(e, rest);
    case EVector(elems) =>
      VectorRT(e, rest);
      assert Callable(ts) == VectorExpression(ts);
      PrimaryCallable(ts);
    case EMap(items) =>
      MapRT(e, rest);
      assert Callable(ts) == MapExpression(ts);
      PrimaryCallable(ts);
  }

  lemma {:induction false} DoRT(e: Expr, rest: seq<Token>)
    requires WfExpr(e) && e.EDo?
    ensures Primary(PrintExpr(e) + rest) == Ok(DesugarExpr(e), rest)
    decreases e, 2
  {
    var ts := PrintExpr(e) + rest;
    assert ts[1..] == [LWing] + PrintStmts(e.body) + [RWing] + rest;
    BracedRT(e.body, rest);
    BlockAgree(e.body);
  }

  lemma {:induction false} PrimaryCallRT(e: Expr, rest: seq<Token>)
    requires WfExpr(e) && e.ECall?
    ensures Primary(PrintExpr(e) + rest) == Ok(DesugarExpr(e), rest)
    decreases e, 2
  {
    var ts := PrintExpr(e) + rest;
    var c := e.callee;
    var x := [LPar] + (PrintList(e.args) + ([RPar] + rest));
    assert PrintExpr(e) == PrintExpr(c) + [LPar] + PrintList(e.args) + [RPar];
    RegroupCall(PrintExpr(c), PrintList(e.args), rest);
    CallArgsRT(e, rest);
    match c
    case ESym(name) =>
      assert ts[1..] == x;
      PrimaryWord(ts);
    case EFn(_, _) =>
      FnRT(c, x);
      PrimaryCallable(ts);
    case EVector(_) =>
      VectorRT(c, x);
      assert Callable(ts) == VectorExpression(ts);
      PrimaryCallable(ts);
    case EMap(_) =>
      MapRT(c, x);
      assert Callable(ts) == MapExpression(ts);
      PrimaryCallable(ts);
  }

  lemma {:induction false} PrimaryLambdaRT(e: Expr, rest: seq<Token>)
    requires WfExpr(e) && e.ELambda? && ExprFollow(rest)
    ensures Primary(PrintExpr(e) + rest) == Ok(DesugarExpr(e), rest)
    decreases e, 2
  {
    LambdaRT(e, rest);
    PrimaryParen(PrintExpr(e) + rest);
  }

  lemma Assoc(a: seq<Token>, b: seq<Token>, c: seq<Token>)
    ensures a + b + c == a + (b + c)
  {
  }

  lemma RegroupCall(c: seq<Token>, l: seq<Token>, rest: seq<Token>)
    ensures c + [LPar] + l + [RPar] + rest == c + ([LPar] + (l + ([RPar] + rest)))
  {
  }

  /** The argument list of a printed call reads back. */
  lemma {:induction false} CallArgsRT(e: Expr, rest: seq<Token>)
    requires WfExpr(e) && e.ECall?
    ensures ParenList([LPar] + (PrintList(e.args) + ([RPar] + rest))) == Ok(DesugarExprs(e.args), rest)
    decreases e, 1
  {
    var x := [LPar] + (PrintList(e.args) + ([RPar] + rest));
    assert x[1..] == PrintList(e.args) + ([RPar] + rest);
    ListRT(e.args, [RPar] + rest);
    assert ([RPar] + rest)[1..] == rest;
  }

  lemma {:induction false} LambdaRT(e: Expr, rest: seq<Token>)
    requires WfExpr(e) && e.ELambda? && ExprFollow(rest)
    ensures LambdaExpression(PrintExpr(e) + rest) == Ok(DesugarExpr(e), rest)
    decreases e, 1
  {
    var x := PrintExpr(e.result) + rest;
    var y := [RPar] + ([Arrow] + x);
    assert PrintExpr(e) == [LPar] + PrintParams(e.params) + [RPar, Arrow] + PrintExpr(e.result);
    RegroupLambda(PrintParams(e.params), PrintExpr(e.result), rest);
    ParamsRT(e.params, y);
    ExprRT(e.result, rest);
    LambdaParts(PrintExpr(e) + rest, PrintParams(e.params) + y, Syms(e.params), x, DesugarExpr(e.result), rest);
  }

  lemma RegroupLambda(p: seq<Token>, r: seq<Token>, rest: seq<Token>)
    ensures [LPar] + p + [RPar, Arrow] + r + rest == [LPar] + (p + ([RPar] + ([Arrow] + (r + rest))))
  {
  }

  /** A parameter list, `->` and an expression. */
  lemma LambdaParts(ts: seq<Token>, q: seq<Token>, params: seq<Form>, x: seq<Token>, body: Form, rest: seq<Token>)
    requires ts == [LPar] + q && Params(q) == (params, [RPar] + ([Arrow] + x))
    requires Expression(x) == Ok(body, rest)
    ensures LambdaExpression(ts) == Ok(LambdaForm(params, body), rest)
  {
    assert ts[1..] == q;
    assert ([RPar] + ([Arrow] + x))[1..] == [Arrow] + x;
    assert ParenParams(ts) == Ok(params, [Arrow] + x);
    assert ([Arrow] + x)[1..] == x;
    LambdaShape(ts);
  }

  lemma {:induction false} FnRT(e: Expr, rest: seq<Token>)
    requires WfExpr(e) && e.EFn?
    ensures FnExpression(PrintExpr(e) + rest) == Ok(DesugarExpr(e), rest)
    decreases e, 0
  {
    var z := [LWing] + PrintStmts(e.body) + [RWing] + rest;
    assert PrintExpr(e) == [FN_KW, LPar] + PrintParams(e.params) + [RPar, LWing] + PrintStmts(e.body) + [RWing];
    RegroupFn(PrintParams(e.params), PrintStmts(e.body), rest);
    ParamsRT(e.params, [RPar] + z);
    BracedRT(e.body, rest);
    FnParts(PrintExpr(e) + rest, PrintParams(e.params), Syms(e.params), z, DesugarStmts(e.body), rest);
  }

  lemma RegroupFn(p: seq<Token>, b: seq<Token>, rest: seq<Token>)
    ensures [FN_KW, LPar] + p + [RPar, LWing] + b + [RWing] + rest ==
            [FN_KW] + ([LPar] + (p + ([RPar] + ([LWing] + b + [RWing] + rest))))
  {
  }

  /** `fn`, a parameter list and a braced body. */
  lemma FnParts(ts: seq<Token>, q: seq<Token>, params: seq<Form>, z: seq<Token>, body: seq<Form>, rest: seq<Token>)
    requires ts == [FN_KW] + ([LPar] + (q + ([RPar] + z)))
    requires Params(q + ([RPar] + z)) == (params, [RPar] + z)
    requires Braced(z) == Ok(body, rest)
    ensures FnExpression(ts) == Ok(FnForm(params, body), rest)
  {
    assert ts[1..] == [LPar] + (q + ([RPar] + z));
    assert ts[1..][1..] == q + ([RPar] + z);
    assert ([RPar] + z)[1..] == z;
    assert ParenParams(ts[1..]) == Ok(params, z);
  }

  lemma {:induction false} VectorRT(e: Expr, rest: seq<Token>)
    requires WfExpr(e) && e.EVector?
    ensures VectorExpression(PrintExpr(e) + rest) == Ok(DesugarExpr(e), rest)
    decreases e, 0
  {
    var ts := PrintExpr(e) + rest;
    assert ts[1..] == PrintList(e.elems) + ([RBrk] + rest);
    ListRT(e.elems, [RBrk] + rest);
  }

  lemma {:induction false} MapRT(e: Expr, rest: seq<Token>)
    requires WfExpr(e) && e.EMap?
    ensures MapExpression(PrintExpr(e) + rest) == Ok(DesugarExpr(e), rest)
    decreases e, 0
  {
    var ts := PrintExpr(e) + rest;
    assert ts[1..] == PrintItems(e.items) + ([RWing] + rest);
    ItemsRT(e.items, [RWing] + rest);
  }

  /** ParExpression, as used for the tests of `if` and `when`. */
  lemma {:induction false} ParTestRT(e: Expr, rest: seq<Token>)
    requires WfExpr(e)
    ensures ParExpression([LPar] + PrintExpr(e) + [RPar] + rest) == Ok(DesugarExpr(e), rest)
    decreases e, 5
  {
    var ts := [LPar] + PrintExpr(e) + [RPar] + rest;
    assert ts[1..] == PrintExpr(e) + ([RPar] + rest);
    ExprRT(e, [RPar] + rest);
  }

  /** A parenthesised expression is a primary, unless a `->` follows. */
  lemma {:induction false} ParenPrimaryRT(e: Expr, rest: seq<Token>)
    requires WfExpr(e) && !At(rest, Arrow)
    ensures Primary([LPar] + PrintExpr(e) + [RPar] + rest) == Ok(DesugarExpr(e), rest)
    decreases e, 6
  {
    var ts := [LPar] + PrintExpr(e) + [RPar] + rest;
    PrimaryParen(ts);
    LambdaFailsOnParen(e, rest);
    ParTestRT(e, rest);
  }

  lemma {:induction false} ParenExprRT(e: Expr, rest: seq<Token>)
    requires WfExpr(e) && !At(rest, Arrow) && !(|rest| > 0 && rest[0].Op?)
    ensures Expression([LPar] + PrintExpr(e) + [RPar] + rest) == Ok(DesugarExpr(e), rest)
    decreases e, 7
  {
    ParenPrimaryRT(e, rest);
    ExprOfPrimary([LPar] + PrintExpr(e) + [RPar] + rest);
  }

  lemma {:induction false} ListRT(es: seq<Expr>, rest: seq<Token>)
    requires WfExprs(es) && (At(rest, RPar) || At(rest, RBrk))
    ensures ExprList(PrintList(es) + rest) == Ok(DesugarExprs(es), rest)
    decreases es, 1
  {
    if es == [] {
      assert PrintList(es) + rest == rest;
      ExprFailsAt(rest);
    } else {
      var y := PrintListTail(es[1..]) + rest;
      assert PrintList(es) + rest == PrintExpr(es[0]) + y;
      ExprRT(es[0], y);
      ListTailRT(es[1..], rest);
    }
  }

  lemma {:induction false} ListTailRT(es: seq<Expr>, rest: seq<Token>)
    requires WfExprs(es) && (At(rest, RPar) || At(rest, RBrk))
    ensures ExprListTail(PrintListTail(es) + rest) == Ok(DesugarExprs(es), rest)
    decreases es, 0
  {
    var ts := PrintListTail(es) + rest;
    if es == [] {
      assert ts == rest;
    } else {
      var y := PrintListTail(es[1..]) + rest;
      assert ts == [Comma] + (PrintExpr(es[0]) + y);
      assert ts[1..] == PrintExpr(es[0]) + y;
      ExprRT(es[0], y);
      ListTailRT(es[1..], rest);
    }
  }

  lemma {:induction false} ItemRT(item: MapItem, rest: seq<Token>)
    requires WfItem(item) && (At(rest, Comma) || At(rest, RWing))
    ensures MapEntry(PrintItem(item) + rest) == Ok(DesugarItem(item), rest)
    decreases item, 0
  {
    var y := [LPar] + PrintExpr(item.val) + [RPar] + rest;
    assert PrintItem(item) + rest == [LPar] + PrintExpr(item.key) + [RPar] + y;
    ParenExprRT(item.key, y);
    ParenExprRT(item.val, rest);
  }

  lemma {:induction false} ItemsRT(items: seq<MapItem>, rest: seq<Token>)
    requires WfItems(items) && At(rest, RWing)
    ensures MapEntries(PrintItems(items) + rest) == Ok(DesugarItems(items), rest)
    decreases items, 1
  {
    if items == [] {
      assert PrintItems(items) + rest == rest;
      ExprFailsAt(rest);
    } else {
      var y := PrintItemsTail(items[1..]) + rest;
      assert PrintItems(items) + rest == PrintItem(items[0]) + y;
      ItemRT(items[0], y);
      ItemsTailRT(items[1..], rest);
    }
  }

  lemma {:induction false} ItemsTailRT(items: seq<MapItem>, rest: seq<Token>)
    requires WfItems(items) && At(rest, RWing)
    ensures MapEntriesTail(PrintItemsTail(items) + rest) == Ok(DesugarItems(items), rest)
    decreases items, 0
  {
    var ts := PrintItemsTail(items) + rest;
    if items == [] {
      assert ts == rest;
    } else {
      var y := PrintItemsTail(items[1..]) + rest;
      assert ts == [Comma] + (PrintItem(items[0]) + y);
      assert ts[1..] == PrintItem(items[0]) + y;
      ItemRT(items[0], y);
      ItemsTailRT(items[1..], rest);
    }
  }

  // --------------------------------
  // Statements
  // --------------------------------

  lemma {:induction false} BlockAgree(ss: seq<Stmt>)
    ensures BlockForm(DesugarStmts(ss)) == DesugarBlock(ss)
  {
    if |ss| == 1 {
      assert DesugarStmts(ss) == [DesugarStmt(ss[0])] + DesugarStmts(ss[1..]);
    }
  }

  /** Statement reads a printed statement back as its desugaring. */
  lemma {:induction false} StmtRT(s: Stmt, rest: seq<Token>)
    requires WfStmt(s) && StmtFollow(s, rest)
    ensures Statement(PrintStmt(s) + rest) == Ok(DesugarStmt(s), rest)
    decreases s, 1
  {
    var ts := PrintStmt(s) + rest;
    match s
    case SIf(_, _) => IfRT(s, rest);
    case SIfElse(_, _, _) => IfElseRT(s, rest);
    case SWhen(_, _) => WhenRT(s, rest);
    case SDef(_, _) => DefRT(s, rest);
    case SDefn(_, _, _) => DefnRT(s, rest);
    case SBlock(body) =>
      BracedRT(body, rest);
      BlockAgree(body);
      StmtBlock(ts);
    case SEmpty =>
      StmtEmpty(ts);
    case SExpr(_) => ExprStmtRT(s, rest);
  }

  lemma {:induction false} IfRT(s: Stmt, rest: seq<Token>)
    requires WfStmt(s) && s.SIf? && StmtFollow(s, rest)
    ensures Statement(PrintStmt(s) + rest) == Ok(DesugarStmt(s), rest)
    decreases s, 0
  {
    var y := PrintStmt(s.body) + rest;
    TestedTokens(s, IF_KW, rest);
    ParTestRT(s.test, y);
    StmtRT(s.body, rest);
    OneArmed(PrintStmt(s) + rest, [LPar] + PrintExpr(s.test) + [RPar] + y,
             DesugarExpr(s.test), y, DesugarStmt(s.body), rest);
  }

  /** The tokens of a printed one-armed `if` or `when`, grouped as the
      grammar reads them. */
  lemma TestedTokens(s: Stmt, kw: Token, rest: seq<Token>)
    requires (s.SIf? && kw == IF_KW) || (s.SWhen? && kw == WHEN_KW)
    ensures PrintStmt(s) + rest == [kw] + ([LPar] + PrintExpr(s.test) + [RPar] + (PrintStmt(s.body) + rest))
  {
    assert PrintStmt(s) == [kw, LPar] + PrintExpr(s.test) + [RPar] + PrintStmt(s.body);
    RegroupTested(kw, PrintExpr(s.test), PrintStmt(s.body), rest);
  }

  // Regrouping printed token sequences the way the grammar consumes them.

  lemma RegroupTested(kw: Token, e: seq<Token>, d: seq<Token>, rest: seq<Token>)
    ensures [kw, LPar] + e + [RPar] + d + rest == [kw] + ([LPar] + e + [RPar] + (d + rest))
  {
  }

  lemma RegroupIfElse(e: seq<Token>, b1: seq<Token>, b2: seq<Token>, rest: seq<Token>)
    ensures [IF_KW, LPar] + e + [RPar, LWing] + b1 + [RWing, ELSE_KW] + b2 + rest ==
            [IF_KW] + ([LPar] + e + [RPar] + ([LWing] + b1 + [RWing] + ([ELSE_KW] + (b2 + rest))))
  {
  }

  lemma RegroupDefn(name: string, p: seq<Token>, b: seq<Token>, rest: seq<Token>)
    ensures [DEFN_KW, Word(name), LPar] + p + [RPar, LWing] + b + [RWing] + rest ==
            [DEFN_KW] + ([Word(name)] + ([LPar] + (p + ([RPar] + ([LWing] + b + [RWing] + rest)))))
  {
  }

  /** `if`, a test and a statement with no `else` after it. */
  lemma OneArmed(ts: seq<Token>, a: seq<Token>, test: Form, y: seq<Token>, body: Form, rest: seq<Token>)
    requires ts == [IF_KW] + a && ParExpression(a) == Ok(test, y)
    requires Statement(y) == Ok(body, rest) && !At(rest, ELSE_KW)
    ensures Statement(ts) == Ok(CondForm(test, body), rest)
  {
    assert ts[1..] == a;
    IfShape(ts);
  }

  lemma {:induction false} IfElseRT(s: Stmt, rest: seq<Token>)
    requires WfStmt(s) && s.SIfElse? && StmtFollow(s, rest)
    ensures Statement(PrintStmt(s) + rest) == Ok(DesugarStmt(s), rest)
    decreases s, 0
  {
    var ts := PrintStmt(s) + rest;
    var x := [ELSE_KW] + (PrintStmt(s.elseBody) + rest);
    var y := [LWing] + PrintStmt(s.ifBody) + [RWing] + x;
    var a := [LPar] + PrintExpr(s.test) + [RPar] + y;
    assert PrintStmt(s) == [IF_KW, LPar] + PrintExpr(s.test) + [RPar, LWing] + PrintStmt(s.ifBody) + [RWing, ELSE_KW] + PrintStmt(s.elseBody);
    RegroupIfElse(PrintExpr(s.test), PrintStmt(s.ifBody), PrintStmt(s.elseBody), rest);
    assert ts[1..] == a;
    ParTestRT(s.test, y);
    BracedOneRT(s.ifBody, x);
    assert x[1..] == PrintStmt(s.elseBody) + rest;
    StmtRT(s.elseBody, rest);
    IfShape(ts);
  }

  lemma {:induction false} WhenRT(s: Stmt, rest: seq<Token>)
    requires WfStmt(s) && s.SWhen? && StmtFollow(s, rest)
    ensures Statement(PrintStmt(s) + rest) == Ok(DesugarStmt(s), rest)
    decreases s, 0
  {
    var y := PrintStmt(s.body) + rest;
    TestedTokens(s, WHEN_KW, rest);
    ParTestRT(s.test, y);
    StmtRT(s.body, rest);
    WhenParts(PrintStmt(s) + rest, [LPar] + PrintExpr(s.test) + [RPar] + y,
              DesugarExpr(s.test), y, DesugarStmt(s.body), rest);
  }

  /** `when`, a test and a statement. */
  lemma WhenParts(ts: seq<Token>, a: seq<Token>, test: Form, y: seq<Token>, body: Form, rest: seq<Token>)
    requires ts == [WHEN_KW] + a && ParExpression(a) == Ok(test, y)
    requires Statement(y) == Ok(body, rest)
    ensures Statement(ts) == Ok(CondForm(test, body), rest)
  {
    assert ts[1..] == a;
    WhenShape(ts);
  }

  lemma {:induction false} DefRT(s: Stmt, rest: seq<Token>)
    requires WfStmt(s) && s.SDef? && StmtFollow(s, rest)
    ensures Statement(PrintStmt(s) + rest) == Ok(DesugarStmt(s), rest)
    decreases s, 0
  {
    assert PrintStmt(s) == [DEF_KW, Word(s.name), Equ] + PrintExpr(s.value) + [Semi];
    RegroupDef(s.name, PrintExpr(s.value), rest);
    ExprRT(s.value, [Semi] + rest);
    DefParts(PrintStmt(s) + rest, s.name, PrintExpr(s.value) + ([Semi] + rest), DesugarExpr(s.value), rest);
  }

  lemma RegroupDef(name: string, v: seq<Token>, rest: seq<Token>)
    ensures [DEF_KW, Word(name), Equ] + v + [Semi] + rest ==
            [DEF_KW] + ([Word(name)] + ([Equ] + (v + ([Semi] + rest))))
  {
  }

  /** `def`, a name, `=`, an expression and `;`. */
  lemma DefParts(ts: seq<Token>, name: string, y: seq<Token>, value: Form, rest: seq<Token>)
    requires ts == [DEF_KW] + ([Word(name)] + ([Equ] + y)) && ValidName(name)
    requires Expression(y) == Ok(value, [Semi] + rest)
    ensures Statement(ts) == Ok(DefForm(Sym(name), value), rest)
  {
    assert ts[1..] == [Word(name)] + ([Equ] + y);
    assert ts[1..][1..] == [Equ] + y;
    assert ([Equ] + y)[1..] == y;
    assert ([Semi] + rest)[1..] == rest;
    assert DefStatement(ts) == Ok(DefForm(Sym(name), value), rest);
    StmtDef(ts);
  }

  lemma {:induction false} DefnRT(s: Stmt, rest: seq<Token>)
    requires WfStmt(s) && s.SDefn? && StmtFollow(s, rest)
    ensures Statement(PrintStmt(s) + rest) == Ok(DesugarStmt(s), rest)
    decreases s, 0
  {
    var z := [LWing] + PrintStmts(s.stmts) + [RWing] + rest;
    DefnTokens(s, rest);
    ParamsRT(s.params, [RPar] + z);
    BracedRT(s.stmts, rest);
    DefnParts(PrintStmt(s) + rest, s.name, PrintParams(s.params) + ([RPar] + z),
              Syms(s.params), z, DesugarStmts(s.stmts), rest);
  }

  /** The tokens of a printed `defn`, grouped as the grammar reads them. */
  lemma DefnTokens(s: Stmt, rest: seq<Token>)
    requires s.SDefn?
    ensures PrintStmt(s) + rest ==
      [DEFN_KW] + ([Word(s.name)] + ([LPar] + (PrintParams(s.params) + ([RPar] + ([LWing] + PrintStmts(s.stmts) + [RWing] + rest)))))
  {
    assert PrintStmt(s) == [DEFN_KW, Word(s.name), LPar] + PrintParams(s.params) + [RPar, LWing] + PrintStmts(s.stmts) + [RWing];
    RegroupDefn(s.name, PrintParams(s.params), PrintStmts(s.stmts), rest);
  }

  /** `defn`, a name, a parameter list and a braced body. */
  lemma DefnParts(ts: seq<Token>, name: string, q: seq<Token>, params: seq<Form>, z: seq<Token>,
                  body: seq<Form>, rest: seq<Token>)
    requires ts == [DEFN_KW] + ([Word(name)] + ([LPar] + q))
    requires Params(q) == (params, [RPar] + z)
    requires Braced(z) == Ok(body, rest)
    ensures Statement(ts) == Ok(DefnForm(Sym(name), params, body), rest)
  {
    var y := [LPar] + q;
    assert ts[1..] == [Word(name)] + y;
    assert ts[1..][1..] == y;
    assert y[1..] == q;
    assert ([RPar] + z)[1..] == z;
    assert ParenParams(y) == Ok(params, z);
    DefnShape(ts);
  }

  lemma {:induction false} ExprStmtRT(s: Stmt, rest: seq<Token>)
    requires WfStmt(s) && s.SExpr? && StmtFollow(s, rest)
    ensures Statement(PrintStmt(s) + rest) == Ok(DesugarStmt(s), rest)
    decreases s, 0
  {
    var ts := PrintStmt(s) + rest;
    ExprHead(s.e);
    if StartsWithBrace(s.e) {
      assert ts == [LPar] + PrintExpr(s.e) + [RPar] + ([Semi] + rest);
      OnlyExpressionStatement(ts);
      ParenExprRT(s.e, [Semi] + rest);
    } else {
      assert ts == PrintExpr(s.e) + ([Semi] + rest);
      OnlyExpressionStatement(ts);
      ExprRT(s.e, [Semi] + rest);
    }
  }

  /** `{ s }` is the statement `s`. */
  lemma {:induction false} BracedOneRT(s: Stmt, rest: seq<Token>)
    requires WfStmt(s) && !At(rest, Semi)
    ensures Statement([LWing] + PrintStmt(s) + [RWing] + rest) == Ok(DesugarStmt(s), rest)
    decreases s, 2
  {
    var ts := [LWing] + PrintStmt(s) + [RWing] + rest;
    assert ts == [LWing] + (PrintStmt(s) + ([RWing] + rest));
    StmtRT(s, [RWing] + rest);
    OneStatementBlock(ts, PrintStmt(s) + ([RWing] + rest), DesugarStmt(s), rest);
  }

  /** A block holding exactly one statement. */
  lemma OneStatementBlock(ts: seq<Token>, y: seq<Token>, f: Form, rest: seq<Token>)
    requires ts == [LWing] + y && Statement(y) == Ok(f, [RWing] + rest) && !At(rest, Semi)
    ensures Statement(ts) == Ok(f, rest)
  {
    assert ts[1..] == y;
    StmtFailsAt([RWing] + rest);
    assert Statements([RWing] + rest) == Ok([], [RWing] + rest);
    assert [f] + [] == [f];
    assert Statements(ts[1..]) == Ok([f], [RWing] + rest);
    assert Braced(ts) == Ok([f], rest);
    assert BlockStatement(ts) == Ok(f, rest);
    StmtBlock(ts);
  }

  lemma {:induction false} StmtsRT(ss: seq<Stmt>, rest: seq<Token>)
    requires WfStmts(ss) && (rest == [] || At(rest, RWing))
    ensures Statements(PrintStmts(ss) + rest) == Ok(DesugarStmts(ss), rest)
    decreases ss, 0
  {
    if ss == [] {
      assert PrintStmts(ss) + rest == rest;
      StmtFailsAt(rest);
    } else {
      var y := PrintStmts(ss[1..]) + rest;
      Assoc(PrintStmt(ss[0]), PrintStmts(ss[1..]), rest);
      if ss[1..] != [] {
        StmtHead(ss[1]);
        assert ss[1..][0] == ss[1];
        Assoc(PrintStmt(ss[1]), PrintStmts(ss[1..][1..]), rest);
      }
      StmtRT(ss[0], y);
      StmtsRT(ss[1..], rest);
    }
  }

  lemma {:induction false} BracedRT(ss: seq<Stmt>, rest: seq<Token>)
    requires WfStmts(ss)
    ensures Braced([LWing] + PrintStmts(ss) + [RWing] + rest) == Ok(DesugarStmts(ss), rest)
    decreases ss, 1
  {
    var ts := [LWing] + PrintStmts(ss) + [RWing] + rest;
    assert ts[1..] == PrintStmts(ss) + ([RWing] + rest);
    StmtsRT(ss, [RWing] + rest);
  }

  // --------------------------------
  // Programs
  // --------------------------------

  /** `( t )` after a word reads as the one-argument list `t`. */
  lemma {:induction false} OneArgRT(t: Expr, rest: seq<Token>)
    requires WfExpr(t)
    ensures ParenList([LPar] + PrintExpr(t) + [RPar] + rest) == Ok([DesugarExpr(t)], rest)
  {
    var ts := [LPar] + PrintExpr(t) + [RPar] + rest;
    assert ts[1..] == PrintExpr(t) + ([RPar] + rest);
    ExprRT(t, [RPar] + rest);
    assert ExprListTail([RPar] + rest) == Ok([], [RPar] + rest);
    assert [DesugarExpr(t)] + [] == [DesugarExpr(t)];
    assert ExprList(ts[1..]) == Ok([DesugarExpr(t)], [RPar] + rest);
  }

  /** The text of a statement other than a bare block, followed by
      anything, is not a whole expression. */
  lemma {:induction false} StmtNotWholeExpr(s: Stmt, more: seq<Token>)
    requires WfStmt(s) && !s.SBlock?
    ensures WholeExpression(PrintStmt(s) + more) == Fail
  {
    var ts := PrintStmt(s) + more;
    match s
    case SEmpty =>
      ExprFailsAt(ts);
    case SExpr(e) =>
      ExprStmtNotWholeExpr(s, more);
    case SDef(name, _) =>
      WordNotWholeExpr(ts);
    case SDefn(name, _, _) =>
      WordNotWholeExpr(ts);
    case SIf(test, body) =>
      IfNotWholeExpr(s, more);
    case SWhen(test, body) =>
      WhenNotWholeExpr(s, more);
    case SIfElse(test, ifBody, elseBody) =>
      IfElseNotWholeExpr(s, more);
  }

  lemma {:induction false} ExprStmtNotWholeExpr(s: Stmt, more: seq<Token>)
    requires WfStmt(s) && s.SExpr?
    ensures WholeExpression(PrintStmt(s) + more) == Fail
  {
    var ts := PrintStmt(s) + more;
    if StartsWithBrace(s.e) {
      assert ts == [LPar] + PrintExpr(s.e) + [RPar] + ([Semi] + more);
      ParenExprRT(s.e, [Semi] + more);
    } else {
      assert ts == PrintExpr(s.e) + ([Semi] + more);
      ExprRT(s.e, [Semi] + more);
    }
  }

  lemma {:induction false} IfNotWholeExpr(s: Stmt, more: seq<Token>)
    requires WfStmt(s) && s.SIf?
    ensures WholeExpression(PrintStmt(s) + more) == Fail
  {
    var y := PrintStmt(s.body) + more;
    StmtHead(s.body);
    TestedNotWholeExpr(IF_KW, s.test, y);
    assert PrintStmt(s) == [IF_KW, LPar] + PrintExpr(s.test) + [RPar] + PrintStmt(s.body);
    RegroupTested(IF_KW, PrintExpr(s.test), PrintStmt(s.body), more);
  }

  lemma {:induction false} WhenNotWholeExpr(s: Stmt, more: seq<Token>)
    requires WfStmt(s) && s.SWhen?
    ensures WholeExpression(PrintStmt(s) + more) == Fail
  {
    var y := PrintStmt(s.body) + more;
    StmtHead(s.body);
    TestedNotWholeExpr(WHEN_KW, s.test, y);
    assert PrintStmt(s) == [WHEN_KW, LPar] + PrintExpr(s.test) + [RPar] + PrintStmt(s.body);
    RegroupTested(WHEN_KW, PrintExpr(s.test), PrintStmt(s.body), more);
  }

  lemma {:induction false} IfElseNotWholeExpr(s: Stmt, more: seq<Token>)
    requires WfStmt(s) && s.SIfElse?
    ensures WholeExpression(PrintStmt(s) + more) == Fail
  {
    var y := [LWing] + PrintStmt(s.ifBody) + [RWing] + ([ELSE_KW] + (PrintStmt(s.elseBody) + more));
    assert PrintStmt(s) == [IF_KW, LPar] + PrintExpr(s.test) + [RPar, LWing] + PrintStmt(s.ifBody) + [RWing, ELSE_KW] + PrintStmt(s.elseBody);
    RegroupIfElse(PrintExpr(s.test), PrintStmt(s.ifBody), PrintStmt(s.elseBody), more);
    TestedNotWholeExpr(IF_KW, s.test, y);
  }

  /** `def name ...` and `defn name ...` read as the bare symbol `def` or
      `defn`, with the name left over. */
  lemma WordNotWholeExpr(ts: seq<Token>)
    requires |ts| > 1 && ts[0] in {DEF_KW, DEFN_KW} && ts[1].Word?
    ensures WholeExpression(ts) == Fail
  {
    PrimaryWord(ts);
    ExprOfPrimary(ts);
  }

  /** `if ( t ) ...` and `when ( t ) ...` read as the call `(if t)` or
      `(when t)`, with the statement body left over. */
  lemma TestedNotWholeExpr(kw: Token, t: Expr, y: seq<Token>)
    requires kw in {IF_KW, WHEN_KW} && WfExpr(t) && |y| > 0 && !y[0].Op?
    ensures WholeExpression([kw] + ([LPar] + PrintExpr(t) + [RPar] + y)) == Fail
  {
    OneArgRT(t, y);
    var ts := [kw] + ([LPar] + PrintExpr(t) + [RPar] + y);
    assert ts[1..] == [LPar] + PrintExpr(t) + [RPar] + y;
    PrimaryWord(ts);
    ExprOfPrimary(ts);
  }

  /** readSyntax reads the printed text of every well-formed program back as
      the program's desugaring. */
  lemma ReadSyntaxRoundTrip(p: Program)
    requires WfProgram(p)
    ensures ReadSyntax(PrintProgram(p)) == Success(DesugarProgram(p))
  {
    var ts := PrintProgram(p);
    match p
    case ExprProgram(e) =>
      assert ts + [] == ts;
      ExprRT(e, []);
    case StmtProgram(ss) =>
      if ss == [] {
        ExprFailsAt(ts);
        StmtFailsAt(ts);
        StmtsRT(ss, []);
        assert [Sym(DO)] + [] == [Sym("do")];
      } else {
        var more := PrintStmts(ss[1..]);
        assert ts == PrintStmt(ss[0]) + more;
        StmtNotWholeExpr(ss[0], more);
        if |ss| == 1 {
          assert more == [];
          assert ts == PrintStmt(ss[0]) + [];
          StmtRT(ss[0], []);
        } else {
          StmtHead(ss[1]);
          assert more == PrintStmt(ss[1]) + PrintStmts(ss[2..]);
          assert ss[1..][1..] == ss[2..];
          StmtRT(ss[0], more);
          assert WholeStatement(ts) == Fail;
          assert ts + [] == ts;
          StmtsRT(ss, []);
        }
      }
  }
}
