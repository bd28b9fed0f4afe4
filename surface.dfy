/**
 * The surface syntax of Scrypt as an abstract tree, with
 *   - Desugar*: the core form each construct stands for, written out
 *     independently of the parser (the reference definition), and
 *   - Print*: a token rendering of the tree that the grammar reads back
 *     (parentheses and braces are added where the grammar would otherwise
 *     read the tokens differently).
 */
module Surface {
  import opened Forms
  import opened Tokens

  datatype Expr =
    | ESym(name: string)
    | ELit(atom: Atom)
    | EDo(body: seq<Stmt>)
    | ECall(callee: Expr, args: seq<Expr>)
    | EFn(params: seq<string>, body: seq<Stmt>)
    | ELambda(params: seq<string>, result: Expr)
    | EVector(elems: seq<Expr>)
    | EMap(items: seq<MapItem>)
    | EInfix(op: InfixOp, left: Expr, right: Expr)

  datatype MapItem = MapItem(key: Expr, val: Expr)

  datatype Stmt =
    | SIf(test: Expr, body: Stmt)
    | SIfElse(test: Expr, ifBody: Stmt, elseBody: Stmt)
    | SWhen(test: Expr, body: Stmt)
    | SDef(name: string, value: Expr)
    | SDefn(name: string, params: seq<string>, stmts: seq<Stmt>)
    | SBlock(stmts: seq<Stmt>)
    | SEmpty
    | SExpr(e: Expr)

  datatype Program = ExprProgram(e: Expr) | StmtProgram(stmts: seq<Stmt>)

  // --------------------------------
  // Well-formedness
  // --------------------------------

  /** Names are words that are not reserved. */
  predicate ValidName(name: string)
  {
    !IsReserved(name)
  }

  predicate ValidNames(names: seq<string>)
  {
    forall i :: 0 <= i < |names| ==> ValidName(names[i])
  }

  /** What the Callable rule or a symbol can put in front of an argument list. */
  predicate IsCallee(e: Expr)
  {
    e.ESym? || e.EFn? || e.EVector? || e.EMap?
  }

  predicate WfExpr(e: Expr)
  {
    match e
    case ESym(name) => ValidName(name)
    case ELit(_) => true
    case EDo(body) => WfStmts(body)
    case ECall(callee, args) => IsCallee(callee) && WfExpr(callee) && WfExprs(args)
    case EFn(params, body) => ValidNames(params) && WfStmts(body)
    case ELambda(params, result) => ValidNames(params) && WfExpr(result)
    case EVector(elems) => WfExprs(elems)
    case EMap(items) => WfItems(items)
    case EInfix(_, left, right) => WfExpr(left) && WfExpr(right)
  }

  predicate WfExprs(es: seq<Expr>)
  {
    es == [] || (WfExpr(es[0]) && WfExprs(es[1..]))
  }

  predicate WfItem(item: MapItem)
  {
    WfExpr(item.key) && WfExpr(item.val)
  }

  predicate WfItems(items: seq<MapItem>)
  {
    items == [] ||
    (WfItem(items[0]) && WfItems(items[1..]))
  }

  /** The statement's text ends with a bare block statement, which the
      grammar does not accept directly before a `;`. */
  predicate EndsWithBlock(s: Stmt)
  {
    match s
    case SBlock(_) => true
    case SIf(_, body) => EndsWithBlock(body)
    case SIfElse(_, _, elseBody) => EndsWithBlock(elseBody)
    case SWhen(_, body) => EndsWithBlock(body)
    case _ => false
  }

  predicate WfStmt(s: Stmt)
  {
    match s
    case SIf(test, body) => WfExpr(test) && WfStmt(body)
    case SIfElse(test, ifBody, elseBody) => WfExpr(test) && WfStmt(ifBody) && WfStmt(elseBody)
    case SWhen(test, body) => WfExpr(test) && WfStmt(body)
    case SDef(name, value) => ValidName(name) && WfExpr(value)
    case SDefn(name, params, body) => ValidName(name) && ValidNames(params) && WfStmts(body)
    case SBlock(body) => WfStmts(body)
    case SEmpty => true
    case SExpr(e) => WfExpr(e)
  }

  /** Every statement is well formed, and no statement ending in a block is
      followed by an empty statement. */
  predicate WfStmts(ss: seq<Stmt>)
  {
    ss == [] ||
    (WfStmt(ss[0]) &&
     (|ss| > 1 && EndsWithBlock(ss[0]) ==> !ss[1].SEmpty?) &&
     WfStmts(ss[1..]))
  }

  /** A statement program does not open with a bare block: the grammar first
      tries the whole input as an expression, where `{` opens a map. */
  predicate WfProgram(p: Program)
  {
    match p
    case ExprProgram(e) => WfExpr(e)
    case StmtProgram(ss) => WfStmts(ss) && (|ss| > 0 ==> !ss[0].SBlock?)
  }

  // --------------------------------
  // Desugaring: the reference definition of what each construct means
  // --------------------------------

  function Syms(names: seq<string>): (r: seq<Form>)
    ensures |r| == |names|
    ensures forall i :: 0 <= i < |names| ==> r[i] == Sym(names[i])
  {
    if names == [] then [] else [Sym(names[0])] + Syms(names[1..])
  }

  function DesugarExpr(e: Expr): Form
  {
    match e
    case ESym(name) => Sym(name)
    case ELit(atom) => Lit(atom)
    case EDo(body) => DesugarBlock(body)
    case ECall(callee, args) => List([DesugarExpr(callee)] + DesugarExprs(args))
    case EFn(params, body) => List([Sym("fn"), Vector(Syms(params))] + DesugarStmts(body))
    case ELambda(params, result) => List([Sym("fn"), Vector(Syms(params)), DesugarExpr(result)])
    case EVector(elems) => Vector(DesugarExprs(elems))
    case EMap(items) => MapOf(DesugarItems(items))
    case EInfix(op, left, right) => List([Sym(OpName(op)), DesugarExpr(left), DesugarExpr(right)])
  }

  function DesugarExprs(es: seq<Expr>): (r: seq<Form>)
    ensures |r| == |es|
  {
    if es == [] then [] else [DesugarExpr(es[0])] + DesugarExprs(es[1..])
  }

  /** A map item means the entry of its key and value. */
  function DesugarItem(item: MapItem): Form
  {
    Entry(DesugarExpr(item.key), DesugarExpr(item.val))
  }

  function DesugarItems(items: seq<MapItem>): (r: seq<Form>)
    ensures |r| == |items|
  {
    if items == [] then []
    else [DesugarItem(items[0])] + DesugarItems(items[1..])
  }

  /** A block means nil when empty, its statement when it has one, and
      `(do ...)` otherwise. */
  function DesugarBlock(ss: seq<Stmt>): Form
    decreases ss, 1
  {
    if |ss| == 0 then Nil
    else if |ss| == 1 then DesugarStmt(ss[0])
    else List([Sym("do")] + DesugarStmts(ss))
  }

  function DesugarStmt(s: Stmt): Form
  {
    match s
    case SIf(test, body) => List([Sym("cond"), DesugarExpr(test), DesugarStmt(body)])
    case SIfElse(test, ifBody, elseBody) =>
      List([Sym("cond"), DesugarExpr(test), DesugarStmt(ifBody), DesugarStmt(elseBody)])
    case SWhen(test, body) => List([Sym("cond"), DesugarExpr(test), DesugarStmt(body)])
    case SDef(name, value) => List([Sym("def"), Sym(name), DesugarExpr(value)])
    case SDefn(name, params, body) =>
      List([Sym("def"), Sym(name), List([Sym("fn"), Vector(Syms(params))] + DesugarStmts(body))])
    case SBlock(body) => DesugarBlock(body)
    case SEmpty => Nil
    case SExpr(e) => DesugarExpr(e)
  }

  function DesugarStmts(ss: seq<Stmt>): (r: seq<Form>)
    ensures |r| == |ss|
    decreases ss, 0
  {
    if ss == [] then [] else [DesugarStmt(ss[0])] + DesugarStmts(ss[1..])
  }

  /** A program of one statement means that statement; otherwise `(do ...)`. */
  function DesugarProgram(p: Program): Form
  {
    match p
    case ExprProgram(e) => DesugarExpr(e)
    case StmtProgram(ss) =>
      if |ss| == 1 then DesugarStmt(ss[0]) else List([Sym("do")] + DesugarStmts(ss))
  }

  // --------------------------------
  // Printing
  // --------------------------------

  /** An expression whose text opens with `{`. */
  predicate StartsWithBrace(e: Expr)
  {
    e.EMap? || (e.ECall? && e.callee.EMap?)
  }

  /** The left operand of an infix expression is always parenthesised and
      the right one never is, since the grammar has no precedence and reads
      the right operand as a whole expression. */
  function PrintExpr(e: Expr): seq<Token>
  {
    match e
    case ESym(name) => [Word(name)]
    case ELit(atom) => [Literal(atom)]
    case EDo(body) => [DO_KW, LWing] + PrintStmts(body) + [RWing]
    case ECall(callee, args) => PrintExpr(callee) + [LPar] + PrintList(args) + [RPar]
    case EFn(params, body) =>
      [FN_KW, LPar] + PrintParams(params) + [RPar, LWing] + PrintStmts(body) + [RWing]
    case ELambda(params, result) => [LPar] + PrintParams(params) + [RPar, Arrow] + PrintExpr(result)
    case EVector(elems) => [LBrk] + PrintList(elems) + [RBrk]
    case EMap(items) => [LWing] + PrintItems(items) + [RWing]
    case EInfix(op, left, right) => [LPar] + PrintExpr(left) + [RPar, Op(op)] + PrintExpr(right)
  }

  /** `e1 , e2 , ... , en`. */
  function PrintList(es: seq<Expr>): seq<Token>
  {
    if es == [] then [] else PrintExpr(es[0]) + PrintListTail(es[1..])
  }

  /** `, e1 , ... , en`. */
  function PrintListTail(es: seq<Expr>): seq<Token>
  {
    if es == [] then [] else [Comma] + PrintExpr(es[0]) + PrintListTail(es[1..])
  }

  function PrintParams(names: seq<string>): seq<Token>
  {
    if names == [] then [] else [Word(names[0])] + PrintParamsTail(names[1..])
  }

  function PrintParamsTail(names: seq<string>): seq<Token>
  {
    if names == [] then [] else [Comma, Word(names[0])] + PrintParamsTail(names[1..])
  }

  /** A map item as `( key ) ( value )`. */
  function PrintItem(item: MapItem): seq<Token>
  {
    [LPar] + PrintExpr(item.key) + [RPar, LPar] + PrintExpr(item.val) + [RPar]
  }

  function PrintItems(items: seq<MapItem>): seq<Token>
  {
    if items == [] then [] else PrintItem(items[0]) + PrintItemsTail(items[1..])
  }

  function PrintItemsTail(items: seq<MapItem>): seq<Token>
  {
    if items == [] then [] else [Comma] + PrintItem(items[0]) + PrintItemsTail(items[1..])
  }

  /** The if-branch of a two-armed `if` is braced, so that an `else` after
      it cannot be taken by an inner one-armed `if`; an expression statement
      opening with `{` is parenthesised, so that it cannot be read as a
      block. */
  function PrintStmt(s: Stmt): seq<Token>
  {
    match s
    case SIf(test, body) => [IF_KW, LPar] + PrintExpr(test) + [RPar] + PrintStmt(body)
    case SIfElse(test, ifBody, elseBody) =>
      [IF_KW, LPar] + PrintExpr(test) + [RPar, LWing] + PrintStmt(ifBody) + [RWing, ELSE_KW] + PrintStmt(elseBody)
    case SWhen(test, body) => [WHEN_KW, LPar] + PrintExpr(test) + [RPar] + PrintStmt(body)
    case SDef(name, value) => [DEF_KW, Word(name), Equ] + PrintExpr(value) + [Semi]
    case SDefn(name, params, body) =>
      [DEFN_KW, Word(name), LPar] + PrintParams(params) + [RPar, LWing] + PrintStmts(body) + [RWing]
    case SBlock(body) => [LWing] + PrintStmts(body) + [RWing]
    case SEmpty => [Semi]
    case SExpr(e) =>
      if StartsWithBrace(e) then [LPar] + PrintExpr(e) + [RPar, Semi] else PrintExpr(e) + [Semi]
  }

  function PrintStmts(ss: seq<Stmt>): seq<Token>
  {
    if ss == [] then [] else PrintStmt(ss[0]) + PrintStmts(ss[1..])
  }

  function PrintProgram(p: Program): seq<Token>
  {
    match p
    case ExprProgram(e) => PrintExpr(e)
    case StmtProgram(ss) => PrintStmts(ss)
  }
}
