/** Tokens as produced by the line tokenizer (the `Token` record of
    pyasm6502/package/datastructures.py). */
module Tokens {
  import opened Wrappers

  /** The token types the tokenizer produces, named after the source's
      type strings. */
  datatype Kind =
    | Label | Function | Instruction | Identifier | Directive | AcmeDirective | MacroCall
    | HexNumber | BinNumber | OctNumber | DecNumber | Char | String
    | And | Or | Xor | Not | Div | Mod | Modulo
    | Plus | Minus | Power | Star | Divide
    | EqualEqual | Equals | NotEqual
    | LeftShift | RightShift | LogicalRightShift
    | LessThan | LessEqual | GreaterThan | GreaterEqual
    | Caret | Immediate | Comma | LParen | RParen | LBrace | RBrace | Dot | Unknown

  datatype Token = Token(kind: Kind, value: string, line: int, column: nat)

  /** Value-class token types: after one of these, `AND`/`OR`/`XOR`, `%` and
      `&` are read as binary operators (pyasm6502/package/tokenizer.py:13-16). */
  predicate IsValueKind(k: Kind)
  {
    k in {Identifier, HexNumber, BinNumber, OctNumber, DecNumber, Char, RParen, Star}
  }

  /** `_is_operator_context`: the last token so far is value-class. */
  predicate OperatorContext(last: Option<Kind>)
  {
    last.Some? && IsValueKind(last.value)
  }

  /** The type of the last token of a list, if any. */
  function LastKind(tokens: seq<Token>): (k: Option<Kind>)
    ensures k.Some? <==> |tokens| > 0
    ensures k.Some? ==> k.value == tokens[|tokens| - 1].kind
  {
    if |tokens| == 0 then None else Some(tokens[|tokens| - 1].kind)
  }
}
