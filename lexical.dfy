/**
 * The character-level rules of the Scrypt grammar: Spacing (whitespace,
 * traditional and end-of-line comments), the Terminal and Keyword rules with
 * their "must not follow" test, LetterOrDigit and UnicodeEscape, the EQU
 * terminal and InfixOperator. Each rule takes the remaining input and gives
 * the input left after it, or None when it does not match.
 *
 * Whether a character is a letter or a digit is decided by a matcher that is
 * not part of this model; it is a parameter `isLetterOrDigit` here.
 */
module Lexical {
  import opened Forms

  datatype Option<+T> = None | Some(value: T)

  // --------------------------------
  // Spacing
  // --------------------------------

  /** AnyOf(" \t\r\n\f"). */
  predicate IsWhitespace(c: char)
  {
    c == ' ' || c == '\t' || c == '\r' || c == '\n' || c == '\U{000C}'
  }

  /** The rest of the input after a run of whitespace. */
  function SkipWhitespace(s: string): (r: string)
    ensures |r| <= |s| && r == s[|s| - |r|..]
    ensures |r| > 0 ==> !IsWhitespace(r[0])
    ensures forall i :: 0 <= i < |s| - |r| ==> IsWhitespace(s[i])
  {
    if |s| > 0 && IsWhitespace(s[0]) then SkipWhitespace(s[1..]) else s
  }

  /** `*` followed by `/` occurs somewhere in `s`. */
  predicate HasClose(s: string)
  {
    exists i :: 0 <= i < |s| - 1 && s[i] == '*' && s[i + 1] == '/'
  }

  /** ZeroOrMore(TestNot("*\/"), ANY), "*\/": the rest after the first
      closing `*\/`, or None when the comment is never closed. */
  function BlockCommentRest(s: string): (r: Option<string>)
    ensures r.Some? ==> |r.value| + 2 <= |s| && r.value == s[|s| - |r.value|..]
  {
    if |s| < 2 then None
    else if s[0] == '*' && s[1] == '/' then Some(s[2..])
    else BlockCommentRest(s[1..])
  }

  /** ZeroOrMore(TestNot(AnyOf("\r\n")), ANY), then "\r\n", '\r', '\n' or
      the end of input. */
  function LineCommentRest(s: string): (r: string)
    ensures |r| <= |s| && r == s[|s| - |r|..]
  {
    if |s| == 0 then s
    else if s[0] == '\r' then (if |s| > 1 && s[1] == '\n' then s[2..] else s[1..])
    else if s[0] == '\n' then s[1..]
    else LineCommentRest(s[1..])
  }

  /** One alternative of Spacing's FirstOf: a whitespace run, a traditional
      comment, or an end-of-line comment, tried in that order. Each consumes
      at least one character. */
  function SpaceItem(s: string): (r: Option<string>)
    ensures r.Some? ==> |r.value| < |s| && r.value == s[|s| - |r.value|..]
  {
    if |s| > 0 && IsWhitespace(s[0]) then Some(SkipWhitespace(s))
    else if "/*" <= s && BlockCommentRest(s[2..]).Some? then BlockCommentRest(s[2..])
    else if "//" <= s then Some(LineCommentRest(s[2..]))
    else None
  }

  /** Spacing: ZeroOrMore of the alternatives above. */
  function Spacing(s: string): (r: string)
    ensures |r| <= |s| && r == s[|s| - |r|..]
  {
    match SpaceItem(s)
    case Some(rest) => Spacing(rest)
    case None => s
  }

  // --------------------------------
  // Terminals and keywords
  // --------------------------------

  /** Terminal(string): the string, then Spacing. */
  function Terminal(str: string, s: string): (r: Option<string>)
    ensures r.Some? <==> str <= s
    ensures r.Some? ==> |r.value| <= |s| - |str| && r.value == s[|s| - |r.value|..]
  {
    if str <= s then Some(Spacing(s[|str|..])) else None
  }

  /** Terminal(string, mustNotFollow): the string, not followed by what
      `mustNotFollow` matches, then Spacing. */
  function TerminalNot(str: string, mustNotFollow: string -> bool, s: string): (r: Option<string>)
    ensures r.Some? <==> str <= s && !mustNotFollow(s[|str|..])
    ensures r.Some? ==> |r.value| <= |s| - |str| && r.value == s[|s| - |r.value|..]
  {
    if str <= s && !mustNotFollow(s[|str|..]) then Some(Spacing(s[|str|..])) else None
  }

  /** HexDigit. */
  predicate IsHexDigit(c: char)
  {
    ('a' <= c <= 'f') || ('A' <= c <= 'F') || ('0' <= c <= '9')
  }

  /** The rest after OneOrMore('u') has taken every `u`. */
  function SkipUs(s: string): (r: string)
    ensures |r| <= |s|
  {
    if |s| > 0 && s[0] == 'u' then SkipUs(s[1..]) else s
  }

  /** UnicodeEscape: one or more `u`, then four hex digits. */
  predicate UnicodeEscape(s: string)
  {
    var t := SkipUs(s);
    |s| > 0 && s[0] == 'u' &&
    |t| >= 4 && IsHexDigit(t[0]) && IsHexDigit(t[1]) && IsHexDigit(t[2]) && IsHexDigit(t[3])
  }

  /** LetterOrDigit: a backslash and a Unicode escape, or a character the
      letter-or-digit matcher accepts. */
  predicate LetterOrDigit(s: string, isLetterOrDigit: char -> bool)
  {
    (|s| > 0 && s[0] == '\\' && UnicodeEscape(s[1..])) ||
    (|s| > 0 && isLetterOrDigit(s[0]))
  }

  /** Keyword(keyword) = Terminal(keyword, LetterOrDigit()). */
  function Keyword(k: string, isLetterOrDigit: char -> bool, s: string): (r: Option<string>)
    ensures r.Some? <==> k <= s && !LetterOrDigit(s[|k|..], isLetterOrDigit)
    ensures r.Some? ==> |r.value| <= |s| - |k| && r.value == s[|s| - |r.value|..]
  {
    TerminalNot(k, t => LetterOrDigit(t, isLetterOrDigit), s)
  }

  /** EQU = Terminal("=", Ch('=')): `=` not followed by `=`. */
  function Equ(s: string): (r: Option<string>)
    ensures r.Some? <==> |s| > 0 && s[0] == '=' && !(|s| > 1 && s[1] == '=')
    ensures r.Some? ==> |r.value| < |s| && r.value == s[|s| - |r.value|..]
  {
    assert "=" <= s <==> |s| > 0 && s[0] == '=';
    assert |s| > 0 ==> ("=" <= s[1..] <==> |s| > 1 && s[1] == '=');
    TerminalNot("=", t => "=" <= t, s)
  }

  // --------------------------------
  // Infix operators
  // --------------------------------

  /** InfixOperator's alternatives in the order they are tried; the source
      lists `==` twice. */
  const INFIX_OPERATORS: seq<(string, InfixOp)> :=
    [("+", Plus), ("-", Minus), ("*", Times), ("/", Divide), ("==", Equals),
     ("==", Equals), ("<=", Le), ("<", Lt), (">=", Ge), (">", Gt)]

  /** FirstOf over the alternatives from index `k` on: the index of the
      first alternative whose spelling starts the input, or the number of
      alternatives when none does. */
  function FirstMatch(alts: seq<(string, InfixOp)>, s: string, k: nat): (i: nat)
    requires k <= |alts|
    ensures k <= i <= |alts|
    ensures i < |alts| ==> alts[i].0 <= s
    ensures forall j :: k <= j < i ==> !(alts[j].0 <= s)
    decreases |alts| - k
  {
    if k == |alts| then k
    else if alts[k].0 <= s then k
    else FirstMatch(alts, s, k + 1)
  }

  /** InfixOperator: the first matching alternative's operator, then
      Spacing. */
  function InfixOperator(s: string): (r: Option<(InfixOp, string)>)
    ensures r.None? <==> forall j :: 0 <= j < |INFIX_OPERATORS| ==> !(INFIX_OPERATORS[j].0 <= s)
    ensures r.Some? ==> OpSpelling(r.value.0) <= s && |r.value.1| <= |s| - |OpSpelling(r.value.0)|
  {
    assert forall j :: 0 <= j < |INFIX_OPERATORS| ==> INFIX_OPERATORS[j].0 == OpSpelling(INFIX_OPERATORS[j].1);
    var i := FirstMatch(INFIX_OPERATORS, s, 0);
    if i < |INFIX_OPERATORS| then
      Some((INFIX_OPERATORS[i].1, Spacing(s[|INFIX_OPERATORS[i].0|..])))
    else
      None
  }

  /** How each operator is written in source text. */
  function OpSpelling(op: InfixOp): string
  {
    match op
    case Plus => "+"
    case Minus => "-"
    case Times => "*"
    case Divide => "/"
    case Equals => "=="
    case Le => "<="
    case Lt => "<"
    case Ge => ">="
    case Gt => ">"
  }
}
