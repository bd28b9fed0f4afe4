/**
 * The semantic actions of the Scrypt grammar as methods over the parser's
 * mutable value stack. Each action pops its operands in the order the source
 * pops them and pushes the form it builds; the `Read...` methods replay what
 * a whole grammar rule does to the stack (push each part in source order,
 * then run the action) and show that the rule's net effect is one push of
 * the value the Grammar module gives for that rule.
 */
module ValueStack {
  import opened Forms

  /** The parser's value stack; the top is the last element. */
  class Stack {
    var items: seq<Form>

    constructor ()
      ensures items == []
    {
      items := [];
    }

    /** The value `k` places below the top (`Peek(0)` is the top). */
    function Peek(k: nat): Form
      reads this
      requires k < |items|
    {
      items[|items| - 1 - k]
    }

    /** The stack without its top `k` values. */
    function Below(k: nat): seq<Form>
      reads this
      requires k <= |items|
    {
      items[..|items| - k]
    }

    method Push(f: Form)
      modifies this
      ensures items == old(items) + [f]
    {
      items := items + [f];
    }

    method Pop() returns (f: Form)
      requires |items| > 0
      modifies this
      ensures f == old(Peek(0))
      ensures items == old(Below(1))
    {
      f := items[|items| - 1];
      items := items[..|items| - 1];
    }

    /** Pops a value pushed by one of the list collectors and gives its
        elements. */
    method PopNodeList() returns (fs: seq<Form>)
      requires |items| > 0 && Peek(0).List?
      modifies this
      ensures fs == old(Peek(0)).elems
      ensures items == old(Below(1))
    {
      var f := Pop();
      fs := f.elems;
    }

    // --------------------------------
    // Actions
    // --------------------------------

    /** ifStatement: pops the body, then the test. */
    method IfStatement()
      requires |items| >= 2
      modifies this
      ensures items == old(Below(2)) + [CondForm(old(Peek(1)), old(Peek(0)))]
    {
      var body := Pop();
      var test := Pop();
      Push(CondForm(test, body));
    }

    /** ifElseStatement: pops the else body, the if body, then the test. */
    method IfElseStatement()
      requires |items| >= 3
      modifies this
      ensures items == old(Below(3)) + [CondElseForm(old(Peek(2)), old(Peek(1)), old(Peek(0)))]
    {
      var elseBody := Pop();
      var ifBody := Pop();
      var test := Pop();
      Push(CondElseForm(test, ifBody, elseBody));
    }

    /** whenStatement: pops the body, then the test. */
    method WhenStatement()
      requires |items| >= 2
      modifies this
      ensures items == old(Below(2)) + [CondForm(old(Peek(1)), old(Peek(0)))]
    {
      var body := Pop();
      var test := Pop();
      Push(CondForm(test, body));
    }

    /** defStatement: its first argument is popped first, so it is the
        expression and the second is the symbol. */
    method DefStatement()
      requires |items| >= 2
      modifies this
      ensures items == old(Below(2)) + [DefForm(old(Peek(1)), old(Peek(0)))]
    {
      var expr := Pop();
      var sym := Pop();
      Push(DefForm(sym, expr));
    }

    /** defnStatement: pops the body list, the parameter list, then the
        name. */
    method DefnStatement()
      requires |items| >= 3 && Peek(0).List? && Peek(1).List?
      modifies this
      ensures items == old(Below(3)) + [DefnForm(old(Peek(2)), old(Peek(1)).elems, old(Peek(0)).elems)]
    {
      var block := PopNodeList();
      var params := PopNodeList();
      var name := Pop();
      Push(DefnForm(name, params, block));
    }

    /** `block(popNodeList())`, for a block statement and a do expression. */
    method Block()
      requires |items| > 0 && Peek(0).List?
      modifies this
      ensures items == old(Below(1)) + [BlockForm(old(Peek(0)).elems)]
    {
      var statements := PopNodeList();
      Push(BlockForm(statements));
    }

    /** EmptyStatement pushes nil. */
    method EmptyStatement()
      modifies this
      ensures items == old(items) + [Nil]
    {
      Push(Nil);
    }

    /** callableExpression: pops the argument list, then the callee, and
        conses the callee onto the arguments. */
    method CallableExpression()
      requires |items| >= 2 && Peek(0).List?
      modifies this
      ensures items == old(Below(2)) + [CallForm(old(Peek(1)), old(Peek(0)).elems)]
    {
      var args := PopNodeList();
      var callee := Pop();
      Push(CallForm(callee, args));
    }

    /** fnExpression: pops the body list, then the parameter list. */
    method FnExpression()
      requires |items| >= 2 && Peek(0).List? && Peek(1).List?
      modifies this
      ensures items == old(Below(2)) + [FnForm(old(Peek(1)).elems, old(Peek(0)).elems)]
    {
      var block := PopNodeList();
      var params := PopNodeList();
      Push(FnForm(params, block));
    }

    /** lambdaExpression: pops the body, then the parameter list. */
    method LambdaExpression()
      requires |items| >= 2 && Peek(1).List?
      modifies this
      ensures items == old(Below(2)) + [LambdaForm(old(Peek(1)).elems, old(Peek(0)))]
    {
      var body := Pop();
      var args := PopNodeList();
      Push(LambdaForm(args, body));
    }

    /** InfixOperator pushes the operator's symbol. */
    method InfixOperator(op: InfixOp)
      modifies this
      ensures items == old(items) + [Sym(OpName(op))]
    {
      Push(Sym(OpName(op)));
    }

    /** infixExpression: pops the right operand, the operator, then the left
        operand. */
    method InfixExpression()
      requires |items| >= 3
      modifies this
      ensures items == old(Below(3)) + [List([old(Peek(1)), old(Peek(2)), old(Peek(0))])]
    {
      var operand2 := Pop();
      var operator := Pop();
      var operand1 := Pop();
      Push(List([operator, operand1, operand2]));
    }

    /** buildMapEntry: its first argument is popped first, so it is the
        value and the second is the key. */
    method BuildMapEntry()
      requires |items| >= 2
      modifies this
      ensures items == old(Below(2)) + [Entry(old(Peek(1)), old(Peek(0)))]
    {
      var v := Pop();
      var k := Pop();
      Push(Entry(k, v));
    }

    /** VectorExpression's action. */
    method VectorExpression()
      requires |items| > 0 && Peek(0).List?
      modifies this
      ensures items == old(Below(1)) + [Vector(old(Peek(0)).elems)]
    {
      var es := PopNodeList();
      Push(Vector(es));
    }

    /** MapExpression's action (Maps.create is taken to keep the entries). */
    method MapExpression()
      requires |items| > 0 && Peek(0).List?
      modifies this
      ensures items == old(Below(1)) + [MapOf(old(Peek(0)).elems)]
    {
      var entries := PopNodeList();
      Push(MapOf(entries));
    }

    /** CompilationUnit's third alternative: conses `do` onto the
        statements. */
    method DoStatements()
      requires |items| > 0 && Peek(0).List?
      modifies this
      ensures items == old(Below(1)) + [DoForm(old(Peek(0)).elems)]
    {
      var statements := PopNodeList();
      Push(DoForm(statements));
    }

    // --------------------------------
    // Lists
    // --------------------------------

    /** ZeroOrMoreOf, ZeroOrMoreCommaSeparatedOf and MapEntries: each value
        the repeated rule pushes is moved into a fresh list variable, and at
        the end the list is pushed. The net effect is one push of the values
        in the order they were read. */
    method CollectList(values: seq<Form>)
      modifies this
      ensures items == old(items) + [List(values)]
    {
      var acc := new ListVar();
      var i := 0;
      while i < |values|
        invariant 0 <= i <= |values|
        invariant items == old(items)
        invariant acc.elems == values[..i]
      {
        Push(values[i]);
        acc.Add(this);
        i := i + 1;
      }
      assert values[..|values|] == values;
      Push(List(acc.elems));
    }

    // --------------------------------
    // Whole rules: the parts are pushed in source order, then the action
    // runs; the net effect is a single push of the rule's value.
    // --------------------------------

    /** IF, ParExpression, Statement, ifStatement. */
    method ReadIf(test: Form, body: Form)
      modifies this
      ensures items == old(items) + [CondForm(test, body)]
    {
      Push(test);
      Push(body);
      IfStatement();
    }

    /** IF, ParExpression, Statement, ELSE, Statement, ifElseStatement. */
    method ReadIfElse(test: Form, ifBody: Form, elseBody: Form)
      modifies this
      ensures items == old(items) + [CondElseForm(test, ifBody, elseBody)]
    {
      Push(test);
      Push(ifBody);
      Push(elseBody);
      IfElseStatement();
    }

    /** WHEN, ParExpression, Statement, whenStatement. */
    method ReadWhen(test: Form, body: Form)
      modifies this
      ensures items == old(items) + [CondForm(test, body)]
    {
      Push(test);
      Push(body);
      WhenStatement();
    }

    /** DEF, Symbol, EQU, Expression, SEMI, defStatement. */
    method ReadDef(name: string, expr: Form)
      modifies this
      ensures items == old(items) + [DefForm(Sym(name), expr)]
    {
      Push(Sym(name));
      Push(expr);
      DefStatement();
    }

    /** DEFN, Symbol, parameters, braced statements, defnStatement. */
    method ReadDefn(name: string, params: seq<Form>, body: seq<Form>)
      modifies this
      ensures items == old(items) + [DefnForm(Sym(name), params, body)]
    {
      Push(Sym(name));
      CollectList(params);
      CollectList(body);
      DefnStatement();
    }

    /** A braced block (bare or after DO), then block(). */
    method ReadBlock(statements: seq<Form>)
      modifies this
      ensures items == old(items) + [BlockForm(statements)]
    {
      CollectList(statements);
      Block();
    }

    /** A callee, a parenthesised argument list, callableExpression. */
    method ReadCall(callee: Form, args: seq<Form>)
      modifies this
      ensures items == old(items) + [CallForm(callee, args)]
    {
      Push(callee);
      CollectList(args);
      CallableExpression();
    }

    /** FN, parameters, braced statements, fnExpression. */
    method ReadFn(params: seq<Form>, body: seq<Form>)
      modifies this
      ensures items == old(items) + [FnForm(params, body)]
    {
      CollectList(params);
      CollectList(body);
      FnExpression();
    }

    /** Parameters, RIGHT_ARROW, Expression, lambdaExpression. */
    method ReadLambda(params: seq<Form>, body: Form)
      modifies this
      ensures items == old(items) + [LambdaForm(params, body)]
    {
      CollectList(params);
      Push(body);
      LambdaExpression();
    }

    /** InfixExtension: the left operand is already on the stack; the
        operator and the right operand are pushed, then infixExpression. */
    method ReadInfixExtension(op: InfixOp, operand2: Form)
      requires |items| > 0
      modifies this
      ensures items == old(Below(1)) + [InfixForm(op, old(Peek(0)), operand2)]
    {
      InfixOperator(op);
      Push(operand2);
      InfixExpression();
    }

    /** MapEntry: two expressions, then buildMapEntry. */
    method ReadMapEntry(key: Form, val: Form)
      modifies this
      ensures items == old(items) + [Entry(key, val)]
    {
      Push(key);
      Push(val);
      BuildMapEntry();
    }

    /** LBRK, comma-separated expressions, RBRK. */
    method ReadVector(elems: seq<Form>)
      modifies this
      ensures items == old(items) + [Vector(elems)]
    {
      CollectList(elems);
      VectorExpression();
    }

    /** LWING, map entries, RWING. */
    method ReadMap(entries: seq<Form>)
      modifies this
      ensures items == old(items) + [MapOf(entries)]
    {
      CollectList(entries);
      MapExpression();
    }

    /** CompilationUnit's sequence of statements. */
    method ReadProgram(statements: seq<Form>)
      modifies this
      ensures items == old(items) + [DoForm(statements)]
    {
      CollectList(statements);
      DoStatements();
    }
  }

  /** The `Var<ArrayList<Object>>` a list collector appends into. */
  class ListVar {
    var elems: seq<Form>

    constructor ()
      ensures elems == []
    {
      elems := [];
    }

    /** ListAddAction: moves the top of the value stack to the end of the
        list. */
    method Add(s: Stack)
      requires |s.items| > 0
      modifies this, s
      ensures elems == old(elems) + [old(s.Peek(0))]
      ensures s.items == old(s.Below(1))
    {
      var f := s.Pop();
      elems := elems + [f];
    }
  }
}
