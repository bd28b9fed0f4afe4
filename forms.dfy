/**
 * The core list forms that the Scrypt reader produces, and the shapes its
 * semantic actions build from the values they pop.
 *
 * Source positions and other syntax-node metadata are not modelled: a
 * `prepare`d value and the bare value are the same `Form` here.
 */
module Forms {

  /** A literal as read by the Reader's literal rules (string, number, nil,
      boolean, keyword); its content is opaque to this model. */
  datatype Atom = Atom(text: string)

  datatype Form =
    | Nil
    | Sym(name: string)
    | Lit(atom: Atom)
    | List(elems: seq<Form>)
    | Vector(elems: seq<Form>)
    | Entry(key: Form, val: Form)
    | MapOf(entries: seq<Form>)

  /** The infix operators of the grammar, in the order they are tried. */
  datatype InfixOp = Plus | Minus | Times | Divide | Equals | Le | Lt | Ge | Gt

  /** Names of the special-form symbols the actions insert. */
  const COND := "cond"
  const DEF := "def"
  const FN := "fn"
  const DO := "do"

  /** The name of the symbol an infix operator pushes. */
  function OpName(op: InfixOp): string
  {
    match op
    case Plus => "+"
    case Minus => "-"
    case Times => "*"
    case Divide => "/"
    case Equals => "="
    case Le => "<="
    case Lt => "<"
    case Ge => ">="
    case Gt => ">"
  }

  lemma OpNameInjective(a: InfixOp, b: InfixOp)
    ensures OpName(a) == OpName(b) <==> a == b
  {
  }

  // ---- Shapes built by the semantic actions ----

  /** `(cond test body)`: the one-armed `if` and `when`. */
  function CondForm(test: Form, body: Form): Form
  {
    List([Sym(COND), test, body])
  }

  /** `(cond test ifBody elseBody)`. */
  function CondElseForm(test: Form, ifBody: Form, elseBody: Form): Form
  {
    List([Sym(COND), test, ifBody, elseBody])
  }

  /** `(def sym expr)`. */
  function DefForm(sym: Form, expr: Form): Form
  {
    List([Sym(DEF), sym, expr])
  }

  /** `(fn [params] body...)`: the statements are spliced in, not wrapped. */
  function FnForm(params: seq<Form>, body: seq<Form>): Form
  {
    List([Sym(FN), Vector(params)] + body)
  }

  /** `(def name (fn [params] body...))`. */
  function DefnForm(name: Form, params: seq<Form>, body: seq<Form>): Form
  {
    List([Sym(DEF), name, FnForm(params, body)])
  }

  /** A block: nothing is nil, one statement is itself, more are `(do ...)`. */
  function BlockForm(statements: seq<Form>): Form
  {
    if |statements| == 0 then Nil
    else if |statements| == 1 then statements[0]
    else List([Sym(DO)] + statements)
  }

  /** `(callee args...)`. */
  function CallForm(callee: Form, args: seq<Form>): Form
  {
    List([callee] + args)
  }

  /** `(fn [params] body)`. */
  function LambdaForm(params: seq<Form>, body: Form): Form
  {
    List([Sym(FN), Vector(params), body])
  }

  /** `(op operand1 operand2)`. */
  function InfixForm(op: InfixOp, operand1: Form, operand2: Form): Form
  {
    List([Sym(OpName(op)), operand1, operand2])
  }

  /** `(do s1 ... sn)`: a program of several statements. */
  function DoForm(statements: seq<Form>): Form
  {
    List([Sym(DO)] + statements)
  }
}
