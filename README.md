# Scrypt reader model

This project models the Scrypt surface-syntax reader of Convex, the class
`ScryptNext`. It is a PEG grammar whose semantic actions turn infix,
statement-style source text into the core list forms of Convex Lisp:

- `if (t) s` and `when (t) s` become `(cond t s)`;
- `if (t) s1 else s2` becomes `(cond t s1 s2)`;
- `def x = e;` becomes `(def x e)`;
- `defn f(p...) { s... }` becomes `(def f (fn [p...] s...))`;
- `fn (p...) { s... }` becomes `(fn [p...] s...)`, and `(p...) -> e` becomes `(fn [p...] e)`;
- a call `c(a...)` becomes `(c a...)`;
- a block becomes `nil`, its only statement, or `(do s...)`;
- `a op b` becomes `(op a b)`.

The model has three layers.

- **Lexical** (`lexical.dfy`, `lexical_facts.dfy`) works on characters.
  - It covers Spacing (whitespace, `/* */` and `//` comments), Terminal and Keyword with their "must not follow" test, LetterOrDigit and UnicodeEscape, EQU and InfixOperator.
  - It proves where comments end: they do not nest.
  - It proves that a keyword needs a boundary, so `defn` and `define` are never `def`.
  - It proves that `<=` and `>=` are tried before `<` and `>`.
- **Grammar** (`tokens.dfy`, `grammar.dfy`, `facts.dfy`) is a recursive-descent PEG parser over tokens.
  - Each token stands for one terminal and the spacing after it. For a symbol this takes the Reader's Symbol rule to skip the spacing after it (see "## Left out").
  - Each rule answers `Ok(value, rest)`, `Fail` (the next alternative of an ordered choice is tried) or `Abort(msg)` (the Reader's `error`, which ends the parse).
  - Alternatives are tried in the source's order.
- **Value stack** (`value_stack.dfy`) models the semantic actions as methods of a class holding the parser's value stack.
  - Each action pops in the order the source pops.
  - The `Read...` methods push the parts of a construct in source order and then run its action. They show that the net effect is a single push of the form the grammar gives, with test, branches, key and value in source order although they are popped in reverse.

The main theorem is `RoundTrip.ReadSyntaxRoundTrip`. The surface syntax of a program is written as a tree, `Surface.Program`. Its core form is written out independently of the grammar, as `Surface.DesugarProgram`, and it is printed to tokens by `Surface.PrintProgram`. For every well-formed tree, `ReadSyntax(PrintProgram(p)) == Success(DesugarProgram(p))`.

The printer adds parentheses and braces by fixed rules, some of them in more places than the grammar needs:

- it wraps the left operand of every infix expression in parentheses and never wraps the right one, so `a + b` prints as `( a ) + b`;
- it wraps the key and the value of every map entry in parentheses, so `{ k v }` prints as `{ ( k ) ( v ) }`;
- it braces the first branch of every `if`/`else`;
- it wraps an expression statement in parentheses only when it starts with `{`.

So the theorem covers this over-parenthesised text only. Unwrapped text is covered by separate lemmas:

- infix operands: `RoundTrip.ExprOfInfix`, `GrammarFacts.LiteralInfix`, `GrammarFacts.MinusIsRightAssociative` and `GrammarFacts.TimesDoesNotBindTighter`;
- map entries: `GrammarFacts.LiteralEntry`, for entries of two literals.

Well-formedness excludes:

- reserved words as names;
- a callee that the grammar cannot call;
- `;` directly after a statement that ends in a block, since the grammar refuses `{...};`;
- a program that opens with a bare block, since `{ }` alone reads as an empty map.

`facts.dfy` proves these grammar behaviours for all inputs, or shows them on small examples:

- infix chains associate to the right with no precedence: `a - b - c` is `(- a (- b c))`;
- `else` binds to the nearest `if`;
- `{}` as a whole program is an empty map;
- a block followed by `;` is rejected;
- an unclosed vector is an error.

## Model

| member | source | states |
|---|---|---|
| Forms.OpNameInjective | src/main/java/convex/core/lang/ScryptNext.java:458-474 | distinct infix operators push distinct symbols |
| Forms.OpName | src/main/java/convex/core/lang/ScryptNext.java:461-470 | the symbol each infix operator pushes: `+ - * / = <= < >= >`, with `==` pushing `=`; distinct operators give distinct names (`Forms.OpNameInjective`) |
| Forms.CondForm | src/main/java/convex/core/lang/ScryptNext.java:130-136 | `(cond test body)`, as ifStatement and whenStatement (:175-181) build it; built by `ValueStack.Stack.IfStatement` and read back by `RoundTrip.IfRT` and `RoundTrip.WhenRT` |
| Forms.CondElseForm | src/main/java/convex/core/lang/ScryptNext.java:148-155 | `(cond test ifBody elseBody)`; built by `ValueStack.Stack.IfElseStatement` and read back by `RoundTrip.IfElseRT` |
| Forms.DefForm | src/main/java/convex/core/lang/ScryptNext.java:199-201 | `(def sym expr)`; built by `ValueStack.Stack.DefStatement` and read back by `RoundTrip.DefRT` |
| Forms.DefnForm | src/main/java/convex/core/lang/ScryptNext.java:216-229 | `(def name (fn [params] body...))`; built by `ValueStack.Stack.DefnStatement` and read back by `RoundTrip.DefnRT` |
| Forms.FnForm | src/main/java/convex/core/lang/ScryptNext.java:357-362 | `(fn [params] body...)`; built by `ValueStack.Stack.FnExpression` and read back by `RoundTrip.FnRT` |
| Forms.BlockForm | src/main/java/convex/core/lang/ScryptNext.java:242-257 | nil for no statement, the statement itself for one, `(do s...)` for more; `RoundTrip.BlockAgree` relates it to the independent block desugaring |
| Forms.CallForm | src/main/java/convex/core/lang/ScryptNext.java:338-343 | `(callee args...)`; built by `ValueStack.Stack.CallableExpression` and read back by `RoundTrip.PrimaryCallRT` |
| Forms.LambdaForm | src/main/java/convex/core/lang/ScryptNext.java:376-382 | `(fn [params] body)`; built by `ValueStack.Stack.LambdaExpression` and read back by `RoundTrip.LambdaRT` |
| Forms.InfixForm | src/main/java/convex/core/lang/ScryptNext.java:395-401 | `(op left right)`; built by `ValueStack.Stack.InfixExpression` and read back by `RoundTrip.InfixRT` |
| Forms.DoForm | src/main/java/convex/core/lang/ScryptNext.java:77-80 | `(do s...)` for a whole program; built by `ValueStack.Stack.DoStatements`, stated by `GrammarFacts.ProgramIsDoForm` |
| Grammar.OrElse | src/main/java/convex/core/lang/ScryptNext.java:90-100 | FirstOf of two alternatives: the first one's result unless it fails, in which case the second is tried; an error (`Abort`) is never overridden. The ordered-choice outcomes are stated by `RoundTrip.StmtWhen`, `RoundTrip.StmtDef`, `RoundTrip.StmtEmpty`, `RoundTrip.PrimaryParen` and `RoundTrip.OnlyExpressionStatement` |
| Grammar.Params | src/main/java/convex/core/lang/ScryptNext.java:557-572 | ZeroOrMoreCommaSeparatedOf(Symbol) always matches; it yields at least one parameter exactly when a word comes first, and never consumes more than its input |
| Grammar.ParamsTail | src/main/java/convex/core/lang/ScryptNext.java:562-568 | ZeroOrMore(COMMA, Symbol) never consumes more than its input |
| Grammar.ParenParams | src/main/java/convex/core/lang/ScryptNext.java:529-535 | a parenthesised parameter list consumes input when it matches and never raises an error |
| Grammar.ExprList | src/main/java/convex/core/lang/ScryptNext.java:557-572 | ZeroOrMoreCommaSeparatedOf(Expression) never fails (it can only match or pass on an error) and never consumes more than its input |
| Grammar.ExprListTail | src/main/java/convex/core/lang/ScryptNext.java:562-568 | the repeated comma-expression part never fails and never consumes more than its input |
| Grammar.ParenList | src/main/java/convex/core/lang/ScryptNext.java:326-336 | the parenthesised argument list consumes input when it matches |
| Grammar.Statements | src/main/java/convex/core/lang/ScryptNext.java:545-555 | ZeroOrMoreOf(Statement) never fails and never consumes more than its input |
| Grammar.Braced | src/main/java/convex/core/lang/ScryptNext.java:537-543 | WrapInCurlyBraces(ZeroOrMoreOf(Statement)) consumes input when it matches |
| Grammar.Expression | src/main/java/convex/core/lang/ScryptNext.java:280-301 | an expression consumes at least one token when it matches (what ZeroOrMore relies on) |
| Grammar.Primary | src/main/java/convex/core/lang/ScryptNext.java:282-297 | the ordered choice of primaries consumes input when it matches |
| Grammar.InfixChain | src/main/java/convex/core/lang/ScryptNext.java:299 | ZeroOrMore(InfixExtension) never fails and never consumes more than its input |
| Grammar.InfixExtension | src/main/java/convex/core/lang/ScryptNext.java:387-401 | an infix extension consumes input when it matches |
| Grammar.DoExpression | src/main/java/convex/core/lang/ScryptNext.java:306-312 | a do expression consumes input when it matches |
| Grammar.Callable | src/main/java/convex/core/lang/ScryptNext.java:317-324 | a callable consumes input when it matches |
| Grammar.CallableExpression | src/main/java/convex/core/lang/ScryptNext.java:326-343 | a call consumes input when it matches |
| Grammar.FnExpression | src/main/java/convex/core/lang/ScryptNext.java:348-362 | an fn expression consumes input when it matches |
| Grammar.LambdaExpression | src/main/java/convex/core/lang/ScryptNext.java:367-382 | a lambda consumes input when it matches |
| Grammar.ParExpression | src/main/java/convex/core/lang/ScryptNext.java:525-527 | a parenthesised expression consumes input when it matches |
| Grammar.VectorExpression | src/main/java/convex/core/lang/ScryptNext.java:403-416 | a vector consumes input when it matches |
| Grammar.MapExpression | src/main/java/convex/core/lang/ScryptNext.java:418-429 | a map consumes input when it matches |
| Grammar.MapEntries | src/main/java/convex/core/lang/ScryptNext.java:431-443 | the map entry list never fails and never consumes more than its input |
| Grammar.MapEntriesTail | src/main/java/convex/core/lang/ScryptNext.java:436-440 | the repeated comma-entry part never fails and never consumes more than its input |
| Grammar.MapEntry | src/main/java/convex/core/lang/ScryptNext.java:445-456 | a map entry consumes input when it matches |
| Grammar.Statement | src/main/java/convex/core/lang/ScryptNext.java:90-100 | a statement consumes input when it matches |
| Grammar.IfElseStatement | src/main/java/convex/core/lang/ScryptNext.java:105-122 | an if statement consumes input when it matches |
| Grammar.IfElseArms | src/main/java/convex/core/lang/ScryptNext.java:107-114 | the two-armed if consumes input when it matches |
| Grammar.IfArm | src/main/java/convex/core/lang/ScryptNext.java:115-120 | the one-armed if consumes input when it matches |
| Grammar.WhenStatement | src/main/java/convex/core/lang/ScryptNext.java:161-168 | a when statement consumes input when it matches |
| Grammar.DefStatement | src/main/java/convex/core/lang/ScryptNext.java:187-197 | a def statement consumes input when it matches |
| Grammar.DefnStatement | src/main/java/convex/core/lang/ScryptNext.java:206-214 | a defn statement consumes input when it matches |
| Grammar.BlockStatement | src/main/java/convex/core/lang/ScryptNext.java:234-240 | a block statement consumes input when it matches |
| Grammar.ExpressionStatement | src/main/java/convex/core/lang/ScryptNext.java:262-264 | an expression statement consumes input when it matches |
| Grammar.WholeExpression | src/main/java/convex/core/lang/ScryptNext.java:75 | a lone expression matches only when it reaches the end of input |
| Grammar.WholeStatement | src/main/java/convex/core/lang/ScryptNext.java:76 | a lone statement matches only when it reaches the end of input |
| Grammar.WholeProgram | src/main/java/convex/core/lang/ScryptNext.java:77-80 | a statement sequence matches only when it reaches the end of input |
| Grammar.CompilationUnit | src/main/java/convex/core/lang/ScryptNext.java:70-85 | the compilation unit never fails: it matches the whole input or raises an error |
| Grammar.ReadSyntax | src/main/java/convex/core/lang/ScryptNext.java:53-65 | readSyntax returns a form exactly when the compilation unit matched |
| RoundTrip.ExprHead | src/main/java/convex/core/lang/ScryptNext.java:280-301 | the first token of a printed expression is one an expression can start with; it is `{` exactly for brace-starting expressions |
| RoundTrip.StmtHead | src/main/java/convex/core/lang/ScryptNext.java:90-100 | a printed statement never starts with `else` or an operator, and starts with `;` exactly when it is the empty statement |
| RoundTrip.ExprFailsAt | src/main/java/convex/core/lang/ScryptNext.java:280-301 | no expression starts at end of input, at a closing bracket, comma, `;`, `=`, `->` or an operator |
| RoundTrip.StmtFailsAt | src/main/java/convex/core/lang/ScryptNext.java:90-100 | no statement starts at end of input or at `}` |
| RoundTrip.OnlyExpressionStatement | src/main/java/convex/core/lang/ScryptNext.java:90-100 | when the first token opens no other statement kind, a statement is an expression statement |
| RoundTrip.ParamsTailRT | src/main/java/convex/core/lang/ScryptNext.java:562-568 | the comma-separated tail of a parameter list reads back as its symbols in order |
| RoundTrip.ParamsRT | src/main/java/convex/core/lang/ScryptNext.java:557-572 | a printed parameter list reads back as its symbols in order |
| RoundTrip.LambdaFailsOnParen | src/main/java/convex/core/lang/ScryptNext.java:367-374 | a parenthesised expression not followed by `->` is no lambda |
| RoundTrip.PrimaryWord | src/main/java/convex/core/lang/ScryptNext.java:282-297 | a word is a call when an argument list follows and a symbol otherwise |
| RoundTrip.PrimaryLiteral | src/main/java/convex/core/lang/ScryptNext.java:288-291 | a literal token is a literal primary |
| RoundTrip.PrimaryCallable | src/main/java/convex/core/lang/ScryptNext.java:317-336 | a function, vector or map is a call when an argument list follows and itself otherwise |
| RoundTrip.PrimaryParen | src/main/java/convex/core/lang/ScryptNext.java:285-287 | at `(`, a lambda is tried before a parenthesised expression |
| RoundTrip.LambdaShape | src/main/java/convex/core/lang/ScryptNext.java:367-382 | parameters, `->` and an expression give `(fn [params] e)` |
| RoundTrip.ExprOfPrimary | src/main/java/convex/core/lang/ScryptNext.java:280-301 | a primary with no operator after it is the whole expression |
| RoundTrip.ExprOfInfix | src/main/java/convex/core/lang/ScryptNext.java:387-401 | a primary, an operator and an expression give `(op left right)` |
| RoundTrip.IfShape | src/main/java/convex/core/lang/ScryptNext.java:105-156 | the two-armed form is taken when `else` and a statement follow the first branch, the one-armed `(cond test body)` when no `else` follows |
| RoundTrip.WhenShape | src/main/java/convex/core/lang/ScryptNext.java:161-182 | `when` gives `(cond test body)` |
| RoundTrip.DefnShape | src/main/java/convex/core/lang/ScryptNext.java:206-229 | `defn` gives `(def name (fn [params] body...))` |
| RoundTrip.StmtWhen | src/main/java/convex/core/lang/ScryptNext.java:90-100 | at `when`, the statement is the when statement |
| RoundTrip.StmtDef | src/main/java/convex/core/lang/ScryptNext.java:90-100 | at `def`, the statement is the def statement |
| RoundTrip.StmtDefn | src/main/java/convex/core/lang/ScryptNext.java:90-100 | at `defn`, the statement is the defn statement |
| RoundTrip.StmtBlock | src/main/java/convex/core/lang/ScryptNext.java:90-100 | at `{`, a matching block statement is the statement |
| RoundTrip.StmtEmpty | src/main/java/convex/core/lang/ScryptNext.java:90-100 | at `;` no earlier Statement alternative matches, so the empty statement decides: the statement is nil and the `;` is consumed (ScryptNext.java:269-271) |
| RoundTrip.ExprRT | src/main/java/convex/core/lang/ScryptNext.java:280-301 | every printed well-formed expression reads back as its desugaring |
| RoundTrip.InfixRT | src/main/java/convex/core/lang/ScryptNext.java:280-301 | a printed infix expression reads back as `(op left right)` |
| RoundTrip.PrimaryRT | src/main/java/convex/core/lang/ScryptNext.java:282-297 | every printed non-infix expression reads back as a primary |
| RoundTrip.DoRT | src/main/java/convex/core/lang/ScryptNext.java:306-312 | a printed `do` block reads back as its block form: nil, its one statement, or `(do stmts...)` |
| RoundTrip.CallArgsRT | src/main/java/convex/core/lang/ScryptNext.java:326-343 | a printed argument list reads back as its desugared arguments |
| RoundTrip.PrimaryCallRT | src/main/java/convex/core/lang/ScryptNext.java:326-343 | a printed call reads back as `(callee args...)` |
| RoundTrip.PrimaryLambdaRT | src/main/java/convex/core/lang/ScryptNext.java:367-382 | a printed lambda reads back as a primary |
| RoundTrip.LambdaRT | src/main/java/convex/core/lang/ScryptNext.java:367-382 | a printed lambda reads back as `(fn [params] e)` |
| RoundTrip.FnRT | src/main/java/convex/core/lang/ScryptNext.java:348-362 | a printed fn expression reads back as `(fn [params] body...)` |
| RoundTrip.VectorRT | src/main/java/convex/core/lang/ScryptNext.java:403-416 | a printed vector reads back with its elements in order |
| RoundTrip.MapRT | src/main/java/convex/core/lang/ScryptNext.java:418-429 | a printed map reads back with its entries in order |
| RoundTrip.ParTestRT | src/main/java/convex/core/lang/ScryptNext.java:525-527 | a parenthesised expression reads back as the inner expression |
| RoundTrip.ParenPrimaryRT | src/main/java/convex/core/lang/ScryptNext.java:285-287 | a parenthesised expression not followed by `->` reads back as a primary |
| RoundTrip.ParenExprRT | src/main/java/convex/core/lang/ScryptNext.java:280-301 | a parenthesised expression reads back as an expression |
| RoundTrip.ListRT | src/main/java/convex/core/lang/ScryptNext.java:557-572 | comma-separated expressions read back in source order |
| RoundTrip.ListTailRT | src/main/java/convex/core/lang/ScryptNext.java:562-568 | the comma-separated tail reads back in source order |
| RoundTrip.ItemRT | src/main/java/convex/core/lang/ScryptNext.java:445-456 | a printed key and value read back as the entry, key first |
| RoundTrip.ItemsRT | src/main/java/convex/core/lang/ScryptNext.java:431-443 | printed entries read back in source order |
| RoundTrip.ItemsTailRT | src/main/java/convex/core/lang/ScryptNext.java:436-440 | the comma-separated entry tail reads back in source order |
| RoundTrip.BlockAgree | src/main/java/convex/core/lang/ScryptNext.java:242-257 | block() over the desugared statements is the block's desugaring: nil, the one statement, or `(do ...)` |
| RoundTrip.StmtRT | src/main/java/convex/core/lang/ScryptNext.java:90-100 | every printed well-formed statement reads back as its desugaring |
| RoundTrip.IfRT | src/main/java/convex/core/lang/ScryptNext.java:115-137 | a printed one-armed `if` reads back as `(cond test body)` |
| RoundTrip.IfElseRT | src/main/java/convex/core/lang/ScryptNext.java:105-156 | a printed `if`/`else` reads back as `(cond test ifBody elseBody)` |
| RoundTrip.WhenRT | src/main/java/convex/core/lang/ScryptNext.java:161-182 | a printed `when` reads back as `(cond test body)` |
| RoundTrip.DefRT | src/main/java/convex/core/lang/ScryptNext.java:187-201 | a printed `def` reads back as `(def sym expr)` |
| RoundTrip.DefnRT | src/main/java/convex/core/lang/ScryptNext.java:206-229 | a printed `defn` reads back as `(def name (fn [params] body...))` |
| RoundTrip.ExprStmtRT | src/main/java/convex/core/lang/ScryptNext.java:262-264 | a printed expression statement reads back as its expression |
| RoundTrip.BracedOneRT | src/main/java/convex/core/lang/ScryptNext.java:234-257 | a braced single statement reads back as that statement unchanged |
| RoundTrip.OneStatementBlock | src/main/java/convex/core/lang/ScryptNext.java:234-257 | a block holding one statement, not followed by `;`, reads as that statement |
| RoundTrip.StmtsRT | src/main/java/convex/core/lang/ScryptNext.java:545-555 | printed statements read back in source order |
| RoundTrip.BracedRT | src/main/java/convex/core/lang/ScryptNext.java:537-543 | printed braced statements read back in source order |
| RoundTrip.OneArgRT | src/main/java/convex/core/lang/ScryptNext.java:326-336 | a single parenthesised argument reads back as a one-element list |
| RoundTrip.StmtNotWholeExpr | src/main/java/convex/core/lang/ScryptNext.java:75 | a printed statement other than a block is never read as a lone expression |
| RoundTrip.ExprStmtNotWholeExpr | src/main/java/convex/core/lang/ScryptNext.java:75 | an expression statement ends in `;`, so it is no lone expression |
| RoundTrip.IfNotWholeExpr | src/main/java/convex/core/lang/ScryptNext.java:75 | a one-armed `if` is no lone expression |
| RoundTrip.WhenNotWholeExpr | src/main/java/convex/core/lang/ScryptNext.java:75 | a `when` is no lone expression |
| RoundTrip.IfElseNotWholeExpr | src/main/java/convex/core/lang/ScryptNext.java:75 | an `if`/`else` is no lone expression |
| RoundTrip.WordNotWholeExpr | src/main/java/convex/core/lang/ScryptNext.java:75 | `def x` and `defn x` do not start a lone expression |
| RoundTrip.TestedNotWholeExpr | src/main/java/convex/core/lang/ScryptNext.java:75 | `if (t)` or `when (t)` followed by more than an operator is no lone expression |
| RoundTrip.ReadSyntaxRoundTrip | src/main/java/convex/core/lang/ScryptNext.java:53-85 | readSyntax reads the printed text of every well-formed program back as its desugaring: a lone expression or statement unchanged, several statements as `(do ...)` |
| GrammarFacts.ExtensionIgnoresOperand | src/main/java/convex/core/lang/ScryptNext.java:387-393 | whether an infix extension matches does not depend on the left operand |
| GrammarFacts.ChainIsMaximal | src/main/java/convex/core/lang/ScryptNext.java:299 | ZeroOrMore(InfixExtension) stops only where no extension matches |
| GrammarFacts.ExpressionIsMaximal | src/main/java/convex/core/lang/ScryptNext.java:280-301 | after an expression no infix extension matches |
| GrammarFacts.InfixAtMostOnce | src/main/java/convex/core/lang/ScryptNext.java:387-393 | the infix repetition matches at most once, because the right operand absorbs every further operator |
| GrammarFacts.LiteralInfix | src/main/java/convex/core/lang/ScryptNext.java:387-401 | a literal, an operator and an expression give `(op lit e)` |
| GrammarFacts.LiteralAlone | src/main/java/convex/core/lang/ScryptNext.java:280-301 | a literal with no operator after it is the expression |
| GrammarFacts.LiteralEntry | src/main/java/convex/core/lang/ScryptNext.java:445-451 | an unwrapped entry `k v` of two literals, with no operator after it, reads as the entry, key first |
| GrammarFacts.MinusIsRightAssociative | src/main/java/convex/core/lang/ScryptNext.java:387-401 | `a - b - c` reads as `(- a (- b c))` |
| GrammarFacts.TimesDoesNotBindTighter | src/main/java/convex/core/lang/ScryptNext.java:387-401 | `a * b + c` reads as `(* a (+ b c))`: there is no precedence |
| GrammarFacts.CompilationUnitOrder | src/main/java/convex/core/lang/ScryptNext.java:70-85 | lone expression, then lone statement, then a statement sequence, each to end of input; otherwise "Invalid program." |
| GrammarFacts.ProgramIsDoForm | src/main/java/convex/core/lang/ScryptNext.java:77-80 | a statement sequence that reaches the end is `(do s...)` in source order |
| GrammarFacts.EmptyProgram | src/main/java/convex/core/lang/ScryptNext.java:70-85 | the empty program is `(do)` |
| GrammarFacts.EmptyBracesAreAMap | src/main/java/convex/core/lang/ScryptNext.java:75 | `{}` as a program is the empty map, since the expression alternative comes first |
| GrammarFacts.PrimaryAtBrace | src/main/java/convex/core/lang/ScryptNext.java:282-297 | at `{` only a map can be a primary |
| GrammarFacts.BlockBeforeSemicolonIsRejected | src/main/java/convex/core/lang/ScryptNext.java:234-240 | `{ x; };` is an invalid program |
| GrammarFacts.BraceIsNoMap | src/main/java/convex/core/lang/ScryptNext.java:418-429 | `{ x; ...` is not a map expression |
| GrammarFacts.BlockThenSemicolon | src/main/java/convex/core/lang/ScryptNext.java:234-240 | the block `{ x; }` directly followed by `;` is no statement |
| GrammarFacts.BracedWord | src/main/java/convex/core/lang/ScryptNext.java:234-257 | `{ x; }` is a braced body holding the statement `x` |
| GrammarFacts.WordStatement | src/main/java/convex/core/lang/ScryptNext.java:262-264 | `x;` is the expression statement `x` |
| GrammarFacts.DanglingElse | src/main/java/convex/core/lang/ScryptNext.java:105-122 | `else` belongs to the nearest `if` |
| GrammarFacts.InnerIfElse | src/main/java/convex/core/lang/ScryptNext.java:105-156 | an `if` with both arms takes its `else` |
| GrammarFacts.LitTest | src/main/java/convex/core/lang/ScryptNext.java:525-527 | a parenthesised literal is that literal |
| GrammarFacts.LitStatement | src/main/java/convex/core/lang/ScryptNext.java:262-264 | a literal and `;` is an expression statement |
| GrammarFacts.UnclosedVectorIsAnError | src/main/java/convex/core/lang/ScryptNext.java:403-416 | a vector left open at end of input raises "Expected closing ']'" |
| ValueStack.Stack.constructor | src/main/java/convex/core/lang/ScryptNext.java:53-58 | a parse starts with an empty value stack |
| ValueStack.Stack.Push | src/main/java/convex/core/lang/ScryptNext.java:79 | push puts the value on top |
| ValueStack.Stack.Pop | src/main/java/convex/core/lang/ScryptNext.java:127-130 | pop gives the top and removes it |
| ValueStack.Stack.PopNodeList | src/main/java/convex/core/lang/ScryptNext.java:217 | popNodeList gives the elements of the list on top and removes it |
| ValueStack.Stack.IfStatement | src/main/java/convex/core/lang/ScryptNext.java:125-137 | ifStatement pops body then test and pushes `(cond test body)` |
| ValueStack.Stack.IfElseStatement | src/main/java/convex/core/lang/ScryptNext.java:140-156 | ifElseStatement pops else body, if body, test and pushes `(cond test ifBody elseBody)` |
| ValueStack.Stack.WhenStatement | src/main/java/convex/core/lang/ScryptNext.java:170-182 | whenStatement pops body then test and pushes `(cond test body)` |
| ValueStack.Stack.DefStatement | src/main/java/convex/core/lang/ScryptNext.java:194-201 | the first pop is the expression and the second the symbol; pushes `(def sym expr)` |
| ValueStack.Stack.DefnStatement | src/main/java/convex/core/lang/ScryptNext.java:216-229 | pops body list, parameter list, name; pushes `(def name (fn [params] body...))` |
| ValueStack.Stack.Block | src/main/java/convex/core/lang/ScryptNext.java:234-257 | pops the statement list and pushes nil, the one statement, or `(do s...)` |
| ValueStack.Stack.EmptyStatement | src/main/java/convex/core/lang/ScryptNext.java:269-271 | the empty statement pushes nil |
| ValueStack.Stack.CallableExpression | src/main/java/convex/core/lang/ScryptNext.java:338-343 | pops arguments, then callee; pushes `(callee args...)` |
| ValueStack.Stack.FnExpression | src/main/java/convex/core/lang/ScryptNext.java:357-362 | pops body list, then parameter list; pushes `(fn [params] body...)` |
| ValueStack.Stack.LambdaExpression | src/main/java/convex/core/lang/ScryptNext.java:376-382 | pops body, then parameter list; pushes `(fn [params] body)` |
| ValueStack.Stack.InfixOperator | src/main/java/convex/core/lang/ScryptNext.java:458-474 | an operator pushes its symbol |
| ValueStack.Stack.InfixExpression | src/main/java/convex/core/lang/ScryptNext.java:395-401 | pops right operand, operator, left operand; pushes `(op left right)` |
| ValueStack.Stack.BuildMapEntry | src/main/java/convex/core/lang/ScryptNext.java:445-456 | the first pop is the value and the second the key; pushes the entry key first |
| ValueStack.Stack.VectorExpression | src/main/java/convex/core/lang/ScryptNext.java:415 | pops the element list and pushes the vector |
| ValueStack.Stack.MapExpression | src/main/java/convex/core/lang/ScryptNext.java:428 | pops the entry list and pushes the map |
| ValueStack.Stack.DoStatements | src/main/java/convex/core/lang/ScryptNext.java:79 | pops the statement list and pushes `(do s...)` |
| ValueStack.Stack.CollectList | src/main/java/convex/core/lang/ScryptNext.java:545-572 | the list collectors move each value into the list in order and push the list: one push, source order |
| ValueStack.Stack.ReadIf | src/main/java/convex/core/lang/ScryptNext.java:115-137 | the one-armed if adds exactly `(cond test body)`, test and body in source order |
| ValueStack.Stack.ReadIfElse | src/main/java/convex/core/lang/ScryptNext.java:107-156 | the two-armed if adds exactly `(cond test ifBody elseBody)` in source order |
| ValueStack.Stack.ReadWhen | src/main/java/convex/core/lang/ScryptNext.java:161-182 | when adds exactly `(cond test body)` |
| ValueStack.Stack.ReadDef | src/main/java/convex/core/lang/ScryptNext.java:187-201 | def adds exactly `(def sym expr)` |
| ValueStack.Stack.ReadDefn | src/main/java/convex/core/lang/ScryptNext.java:206-229 | defn adds exactly `(def name (fn [params] body...))`, parameters in order |
| ValueStack.Stack.ReadBlock | src/main/java/convex/core/lang/ScryptNext.java:234-257 | a block adds exactly nil, its one statement, or `(do s...)` |
| ValueStack.Stack.ReadCall | src/main/java/convex/core/lang/ScryptNext.java:326-343 | a call adds exactly `(callee args...)`, arguments in order |
| ValueStack.Stack.ReadFn | src/main/java/convex/core/lang/ScryptNext.java:348-362 | fn adds exactly `(fn [params] body...)` |
| ValueStack.Stack.ReadLambda | src/main/java/convex/core/lang/ScryptNext.java:367-382 | a lambda adds exactly `(fn [params] body)` |
| ValueStack.Stack.ReadInfixExtension | src/main/java/convex/core/lang/ScryptNext.java:387-401 | an infix extension replaces the left operand on top by `(op left right)` |
| ValueStack.Stack.ReadMapEntry | src/main/java/convex/core/lang/ScryptNext.java:445-456 | a map entry adds exactly the entry, key first |
| ValueStack.Stack.ReadVector | src/main/java/convex/core/lang/ScryptNext.java:403-416 | a vector adds exactly the vector of its elements in order |
| ValueStack.Stack.ReadMap | src/main/java/convex/core/lang/ScryptNext.java:418-443 | a map adds exactly the map of its entries in order |
| ValueStack.Stack.ReadProgram | src/main/java/convex/core/lang/ScryptNext.java:77-80 | a statement sequence adds exactly `(do s...)` |
| ValueStack.ListVar.constructor | src/main/java/convex/core/lang/ScryptNext.java:546 | a collector starts empty |
| ValueStack.ListVar.Add | src/main/java/convex/core/lang/ScryptNext.java:551 | the list add action moves the top of the stack to the end of the list |
| Lexical.SkipWhitespace | src/main/java/convex/core/lang/ScryptNext.java:511 | a whitespace run consumes only whitespace and stops at a non-whitespace character |
| Lexical.BlockCommentRest | src/main/java/convex/core/lang/ScryptNext.java:514 | a traditional comment, when closed, leaves a suffix of its input |
| Lexical.LineCommentRest | src/main/java/convex/core/lang/ScryptNext.java:519-520 | an end-of-line comment leaves a suffix of its input |
| Lexical.SpaceItem | src/main/java/convex/core/lang/ScryptNext.java:508-522 | each spacing alternative consumes at least one character and leaves a suffix |
| Lexical.Spacing | src/main/java/convex/core/lang/ScryptNext.java:507-523 | Spacing leaves a suffix of its input |
| Lexical.SkipUs | src/main/java/convex/core/lang/ScryptNext.java:481 | OneOrMore('u') never grows the input |
| Lexical.FirstMatch | src/main/java/convex/core/lang/ScryptNext.java:460-471 | the operator alternative chosen is the first whose spelling starts the input, and none before it matches |
| Lexical.Terminal | src/main/java/convex/core/lang/ScryptNext.java:495-499 | matches exactly when the input starts with the string; what is left is a suffix of the input after the string (the spacing skipped) |
| Lexical.TerminalNot | src/main/java/convex/core/lang/ScryptNext.java:501-505 | matches exactly when the input starts with the string and the "must not follow" rule does not match right after it; what is left is a suffix after the string |
| Lexical.Keyword | src/main/java/convex/core/lang/ScryptNext.java:489-493 | matches exactly when the input starts with the keyword and no letter, digit or Unicode escape follows; what is left is a suffix after it (`LexicalFacts.KeywordBoundary`) |
| Lexical.UnicodeEscape | src/main/java/convex/core/lang/ScryptNext.java:480-482 | one or more `u`, then four hex digits; `LexicalFacts.EscapeEndsNoKeyword` uses it |
| Lexical.LetterOrDigit | src/main/java/convex/core/lang/ScryptNext.java:484-487 | a backslash and a Unicode escape, else a character the letter-or-digit matcher accepts; `LexicalFacts.KeywordBoundary` and `LexicalFacts.EscapeEndsNoKeyword` state its effect on keywords |
| Lexical.Equ | src/main/java/convex/core/lang/ScryptNext.java:28 | EQU matches exactly a `=` not followed by another `=`, and consumes at least that character |
| Lexical.InfixOperator | src/main/java/convex/core/lang/ScryptNext.java:458-474 | reads no operator exactly when none of the ten alternatives (`INFIX_OPERATORS`, `==` listed twice) starts the input; an operator read has its spelling at the start of the input |
| LexicalFacts.SpacingIsMaximal | src/main/java/convex/core/lang/ScryptNext.java:507-523 | Spacing stops only where no alternative matches |
| LexicalFacts.SpacingIsIdempotent | src/main/java/convex/core/lang/ScryptNext.java:507-523 | skipping spacing twice is skipping it once |
| LexicalFacts.SpacingFixedPoint | src/main/java/convex/core/lang/ScryptNext.java:507-523 | Spacing consumes nothing exactly when no alternative matches |
| LexicalFacts.BlockCommentCloses | src/main/java/convex/core/lang/ScryptNext.java:514 | a traditional comment matches exactly when a `*/` follows the opener |
| LexicalFacts.BlockCommentEndsAtFirstClose | src/main/java/convex/core/lang/ScryptNext.java:514 | a traditional comment ends at the first `*/`, even with `/*` inside |
| LexicalFacts.CommentsDoNotNest | src/main/java/convex/core/lang/ScryptNext.java:514 | `/*/**/` is one whole comment: an inner opener does not nest |
| LexicalFacts.UnclosedCommentIsNotSkipped | src/main/java/convex/core/lang/ScryptNext.java:514 | an unclosed traditional comment is not skipped |
| LexicalFacts.LineCommentEndsAtLineBreak | src/main/java/convex/core/lang/ScryptNext.java:519-520 | an end-of-line comment ends at the first `\r\n`, `\n` or `\r` and takes it |
| LexicalFacts.LineCommentEndsAtEndOfInput | src/main/java/convex/core/lang/ScryptNext.java:520 | an end-of-line comment with no line break runs to the end of input |
| LexicalFacts.LineCommentIsSpacing | src/main/java/convex/core/lang/ScryptNext.java:507-523 | Spacing skips an end-of-line comment and goes on after it |
| LexicalFacts.KeywordBoundary | src/main/java/convex/core/lang/ScryptNext.java:491-505 | a keyword matches exactly when no letter, digit or Unicode escape follows, and skips spacing after it |
| LexicalFacts.KeywordNeedsItsSpelling | src/main/java/convex/core/lang/ScryptNext.java:491-505 | a matched keyword starts the input and is not followed by a letter or digit |
| LexicalFacts.DefnIsNotDef | src/main/java/convex/core/lang/ScryptNext.java:491-493 | `defn` is never the keyword `def` |
| LexicalFacts.DefineIsNotDef | src/main/java/convex/core/lang/ScryptNext.java:491-493 | `define` is never the keyword `def` |
| LexicalFacts.LetterFollows | src/main/java/convex/core/lang/ScryptNext.java:491-493 | a keyword directly followed by a letter or digit is not read |
| LexicalFacts.EscapeEndsNoKeyword | src/main/java/convex/core/lang/ScryptNext.java:480-487 | a Unicode escape after a keyword counts as a letter |
| LexicalFacts.EquIsSingle | src/main/java/convex/core/lang/ScryptNext.java:28 | EQU reads `=` but not `==` |
| LexicalFacts.ReadsAt | src/main/java/convex/core/lang/ScryptNext.java:458-474 | the first matching alternative decides the operator read |
| LexicalFacts.DuplicateEqualsIsDead | src/main/java/convex/core/lang/ScryptNext.java:465-466 | the second `==` alternative is never the one chosen |
| LexicalFacts.OperatorRoundTrip | src/main/java/convex/core/lang/ScryptNext.java:458-474 | each operator's spelling reads back as that operator |
| LexicalFacts.LeBeforeLt | src/main/java/convex/core/lang/ScryptNext.java:467-468 | `<=` is tried before `<` |
| LexicalFacts.GeBeforeGt | src/main/java/convex/core/lang/ScryptNext.java:469-470 | `>=` is tried before `>` |
| LexicalFacts.SingleEqualsIsNoOperator | src/main/java/convex/core/lang/ScryptNext.java:458-474 | a lone `=` is no infix operator |

## Left out

- The parboiled machinery is not modelled: the parse runner, memoisation, parse-tree building and the thread-local parser cache. The grammar is a plain recursive-descent parser with the same ordered choices.
- The `tempSource` field that readSyntax sets is not modelled.
- The rules inherited from the Reader superclass (string, number, nil, boolean and keyword literals, Symbol and Set) are not part of this model.
  - Literals are opaque `Literal` tokens, and a symbol is any `Word` token.
  - The operators `+ - * / == <= < >= >` are always `Op` tokens and never symbols. If the Reader's Symbol rule accepts operator characters, input such as `+(1, 2)` (a call to `+`) or `a-b` (one symbol) lies outside the model.
  - The Set alternative is left out of Expression and Callable.
  - The letter-or-digit matcher is a parameter.
- `prepare`, syntax-node metadata and source positions are not modelled: a prepared value and the bare value are the same form.
- `Maps.create` is taken to keep the entries as read. Key deduplication and ordering inside the map are not modelled.
- The Reader's `error` is modelled as ending the parse with its message (`Abort`). readSyntax's exception is modelled as `Failure`.
- `Symbols.EQUALS` is taken to be the symbol `=`.
- A `Word` token includes any spacing after the symbol. This assumes the Reader's Symbol rule, which is not part of this model, skips trailing spacing. The source calls `Spacing()` after `Symbol()` in DefStatement, Expression and CallableExpression (src/main/java/convex/core/lang/ScryptNext.java:191, :298, :332). It does not where the `defn` name is followed directly by LPAR, or where a parameter is followed by COMMA or RPAR inside `ZeroOrMoreCommaSeparatedOf(Symbol())` (:209-210, :351, :369). `Terminal` skips no spacing in front of its string (:497-505). If Symbol does not skip trailing spacing, the source rejects `defn f (x) {}`, `fn (a , b) {}` and `(x ) -> x`, which the model accepts.
- The character-level rules and the token grammar are not composed. The lexical layer stops at the token boundary, because splitting symbols and literals is the Reader's job, and the Reader is not part of this model.
- The `Var`/`ArrayList` framing of the list collectors (one fresh list per rule invocation, restored on backtracking) is modelled by a fresh `ListVar` per `CollectList` call. Parboiled's restoring of the value stack on a failed alternative is implicit in the pure grammar.
- Block comments do not nest: Spacing ends a comment at the first `*/` (src/main/java/convex/core/lang/ScryptNext.java:514; `LexicalFacts.CommentsDoNotNest`).
- RoundTrip.ReadSyntaxRoundTrip: stated only for well-formed trees. Bare blocks at the start of a program and `;` after a block are excluded, because the grammar reads those differently (see `GrammarFacts.EmptyBracesAreAMap` and `GrammarFacts.BlockBeforeSemicolonIsRejected`).
- Grammar.Expression and the other rule functions: their own contracts state only progress and the shape of their result (whether they can fail, what they consume). What each rule yields is stated by the RoundTrip and GrammarFacts lemmas.
