/**
 * The tokens the Scrypt grammar is modelled over. Each stands for what one
 * terminal rule of the grammar matches together with the spacing after it:
 * the punctuation terminals (`=`, `,`, `(`, `)`, `{`, `}`, `[`, `]`, `;`,
 * `->`), the infix operators, a word (what the Reader's Symbol rule
 * matches; the reserved words `def`, `defn`, `fn`, `if`, `else`, `when` and
 * `do` are words too, and the Keyword rule matches the word that is spelt
 * like it), and a literal (what the Reader's literal rules match).
 */
module Tokens {
  import opened Forms

  datatype Token =
    | Word(name: string)
    | Literal(atom: Atom)
    | Op(op: InfixOp)
    | Equ
    | Comma
    | LPar
    | RPar
    | LWing
    | RWing
    | LBrk
    | RBrk
    | Semi
    | Arrow

  const DEF_KW := Word("def")
  const DEFN_KW := Word("defn")
  const FN_KW := Word("fn")
  const IF_KW := Word("if")
  const ELSE_KW := Word("else")
  const WHEN_KW := Word("when")
  const DO_KW := Word("do")

  /** The words the grammar reserves as keywords. */
  predicate IsReserved(name: string)
  {
    name in {"def", "defn", "fn", "if", "else", "when", "do"}
  }

  /** The token sequence starts with `t`. */
  predicate At(ts: seq<Token>, t: Token)
  {
    |ts| > 0 && ts[0] == t
  }
}
