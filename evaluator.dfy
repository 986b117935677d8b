/** The expression evaluator (pyasm6502/package/evaluator.py:92-374): a
    recursive-descent precedence ladder over a token list that returns the
    value and the number of tokens consumed. Each `_parse_*` level is a pure
    function here; the levels whose source is a `while` loop are written as a
    recursive `...Rest` function over the loop state (left value and
    consumed count), which the methods in EvaluatorLoops implement with the
    loop itself. Values are Python integers. */
module Evaluator {
  import opened Wrappers
  import opened Bits
  import opened Tokens
  import opened Symbols
  import opened Numbers

  /** What an expression can see of the assembler: the program counter, the
      loop variables and the symbol store. */
  datatype Ctx = Ctx(pc: int, vars: map<string, int>, store: Store)

  /** `(value, tokens_consumed)`. */
  datatype Parsed = Parsed(value: int, consumed: nat)

  /** The argument values of a function call and the tokens the call consumed. */
  datatype Args = Args(values: seq<int>, consumed: nat)

  /** Tokens left from `pos` on: the first component of every termination
      measure below. */
  function Remaining(t: seq<Token>, pos: nat): nat
  {
    if pos < |t| then |t| - pos else 0
  }

  /** A successful parse starting at `start` lies inside the token list and
      consumes at least one token. */
  predicate Fits(r: Result<Parsed>, t: seq<Token>, start: nat)
  {
    r.Ok? ==> start < |t| && 1 <= r.value.consumed <= |t| - start
  }

  /** The token at `pos`, if any, is not `^`. */
  predicate NoCaretAt(t: seq<Token>, pos: nat)
  {
    pos < |t| ==> t[pos].kind != Caret
  }

  /** A successful parse is not followed by a `^` token. */
  predicate NoCaretAfter(r: Result<Parsed>, t: seq<Token>, start: nat)
  {
    r.Ok? ==> NoCaretAt(t, start + r.value.consumed)
  }

  predicate At(t: seq<Token>, pos: nat, k: Kind)
  {
    pos < |t| && t[pos].kind == k
  }

  /** `PLUS`, or an anonymous-label identifier spelled `+` (likewise `-`). */
  predicate IsPlus(t: seq<Token>, pos: nat)
  {
    pos < |t| && (t[pos].kind == Plus || (t[pos].kind == Identifier && t[pos].value == "+"))
  }

  predicate IsMinus(t: seq<Token>, pos: nat)
  {
    pos < |t| && (t[pos].kind == Minus || (t[pos].kind == Identifier && t[pos].value == "-"))
  }

  predicate IsComparison(k: Kind)
  {
    k in {LessThan, LessEqual, GreaterThan, GreaterEqual}
  }

  /** One comparison operator, as a truth value 1 or 0. */
  function Compare(k: Kind, left: int, right: int): (v: int)
    requires IsComparison(k)
    ensures v in {0, 1}
    ensures v == 1 <==> (k == LessThan && left < right) || (k == LessEqual && left <= right) ||
                        (k == GreaterThan && left > right) || (k == GreaterEqual && left >= right)
  {
    if k == LessThan then B(left < right)
    else if k == LessEqual then B(left <= right)
    else if k == GreaterThan then B(left > right)
    else B(left >= right)
  }

  /** `_is_binary_caret_context` (evaluator.py:287-290). The source's list
      also names `NUMBER` and `BINARY_NUMBER`, which no token carries. */
  predicate IsBinaryCaretContext(t: seq<Token>, pos: nat)
  {
    0 < pos <= |t| && t[pos - 1].kind in {DecNumber, HexNumber, Identifier, RParen}
  }

  /** A `<`, `>` or prefix `^` at `pos`. */
  predicate IsBytePrefix(t: seq<Token>, pos: nat)
  {
    At(t, pos, LessThan) || At(t, pos, GreaterThan) || (At(t, pos, Caret) && !IsBinaryCaretContext(t, pos))
  }

  function B(b: bool): int { if b then 1 else 0 }

  /** The built-in functions of evaluator.py:41-55 and the two that read the
      symbol table. */
  const BuiltinNames: set<string> :=
    {"sin", "cos", "tan", "arcsin", "arccos", "arctan", "int", "float",
     "is_number", "is_list", "is_string", "len"}
  const AddressNames: set<string> := {"address", "addr"}

  /** Applying a function to integer arguments (evaluator.py:331-349).
      Python's TypeError for a wrong argument count becomes InvalidArguments;
      results that would be floats are not modelled. */
  function ApplyFunction(name: string, args: seq<int>): (r: Result<int>)
    requires name in BuiltinNames || name in AddressNames
    ensures name in AddressNames ==> (r.Ok? <==> |args| == 1)
    ensures name in AddressNames && |args| == 1 ==> r == Ok(args[0])
    ensures name == "int" ==> (r.Ok? <==> |args| <= 1)
    ensures name in {"is_number", "is_list", "is_string"} ==> (r.Ok? <==> |args| == 1)
    ensures r.Ok? && name in {"is_number", "is_list", "is_string"} ==> r.value == B(name == "is_number")
    ensures name in {"sin", "cos", "tan", "arcsin", "arccos", "arctan", "float", "len"} ==> r.Err?
  {
    if name in AddressNames then (if |args| == 1 then Ok(args[0]) else Err(WrongArgumentCount(name)))
    else if name == "int" then
      (if |args| == 0 then Ok(0) else if |args| == 1 then Ok(args[0]) else Err(InvalidArguments(name)))
    else if name == "is_number" then (if |args| == 1 then Ok(1) else Err(InvalidArguments(name)))
    else if name == "is_list" || name == "is_string" then (if |args| == 1 then Ok(0) else Err(InvalidArguments(name)))
    else if name == "len" then (if |args| == 1 then Err(NoLength) else Err(InvalidArguments(name)))
    else if name == "float" then (if |args| <= 1 then Err(NotModelled("float")) else Err(InvalidArguments(name)))
    else (if |args| == 1 then Err(NotModelled("float")) else Err(InvalidArguments(name)))
  }

  /** `evaluate_expression` (evaluator.py:92-94). */
  function Evaluate(t: seq<Token>, start: nat, c: Ctx): (r: Result<Parsed>)
    requires c.store.Valid()
    ensures Fits(r, t, start) && NoCaretAfter(r, t, start)
    decreases Remaining(t, start), 27
  {
    OrExpr(t, start, c)
  }

  /** `_parse_or_expression` (evaluator.py:96-102). */
  function OrExpr(t: seq<Token>, start: nat, c: Ctx): (r: Result<Parsed>)
    requires c.store.Valid()
    ensures Fits(r, t, start) && NoCaretAfter(r, t, start)
    decreases Remaining(t, start), 26
  {
    var first :- XorExpr(t, start, c);
    OrRest(t, start, first.value, first.consumed, c)
  }

  function OrRest(t: seq<Token>, start: nat, left: int, consumed: nat, c: Ctx): (r: Result<Parsed>)
    requires c.store.Valid() && 1 <= consumed && start + consumed <= |t| && NoCaretAt(t, start + consumed)
    ensures Fits(r, t, start) && NoCaretAfter(r, t, start)
    decreases Remaining(t, start), 25, Remaining(t, start + consumed)
  {
    if At(t, start + consumed, Or) then
      var right :- XorExpr(t, start + consumed + 1, c);
      OrRest(t, start, BitOr(left, right.value), consumed + 1 + right.consumed, c)
    else Ok(Parsed(left, consumed))
  }

  /** `_parse_xor_expression` (evaluator.py:104-115). */
  function XorExpr(t: seq<Token>, start: nat, c: Ctx): (r: Result<Parsed>)
    requires c.store.Valid()
    ensures Fits(r, t, start) && NoCaretAfter(r, t, start)
    decreases Remaining(t, start), 24
  {
    var first :- AndExpr(t, start, c);
    XorRest(t, start, first.value, first.consumed, c)
  }

  /** The source accepts `XOR` and `^` here; the precondition records that an
      AND-level operand is never followed by `^`, so only `XOR` ever applies. */
  function XorRest(t: seq<Token>, start: nat, left: int, consumed: nat, c: Ctx): (r: Result<Parsed>)
    requires c.store.Valid() && 1 <= consumed && start + consumed <= |t| && NoCaretAt(t, start + consumed)
    ensures Fits(r, t, start) && NoCaretAfter(r, t, start)
    decreases Remaining(t, start), 23, Remaining(t, start + consumed)
  {
    if At(t, start + consumed, Xor) || At(t, start + consumed, Caret) then
      var right :- AndExpr(t, start + consumed + 1, c);
      XorRest(t, start, BitXor(left, right.value), consumed + 1 + right.consumed, c)
    else Ok(Parsed(left, consumed))
  }

  /** `_parse_and_expression` (evaluator.py:117-123). */
  function AndExpr(t: seq<Token>, start: nat, c: Ctx): (r: Result<Parsed>)
    requires c.store.Valid()
    ensures Fits(r, t, start) && NoCaretAfter(r, t, start)
    decreases Remaining(t, start), 22
  {
    var first :- EqualityExpr(t, start, c);
    AndRest(t, start, first.value, first.consumed, c)
  }

  function AndRest(t: seq<Token>, start: nat, left: int, consumed: nat, c: Ctx): (r: Result<Parsed>)
    requires c.store.Valid() && 1 <= consumed && start + consumed <= |t| && NoCaretAt(t, start + consumed)
    ensures Fits(r, t, start) && NoCaretAfter(r, t, start)
    decreases Remaining(t, start), 21, Remaining(t, start + consumed)
  {
    if At(t, start + consumed, And) then
      var right :- EqualityExpr(t, start + consumed + 1, c);
      AndRest(t, start, BitAnd(left, right.value), consumed + 1 + right.consumed, c)
    else Ok(Parsed(left, consumed))
  }

  /** `_parse_equality_expression` (evaluator.py:125-139): one comparison-level
      operand, then optionally `==`/`=`/`!=` and a whole equality expression as
      the right operand (right-associative). The result is either the plain
      operand or a truth value. */
  function EqualityExpr(t: seq<Token>, start: nat, c: Ctx): (r: Result<Parsed>)
    requires c.store.Valid()
    ensures Fits(r, t, start) && NoCaretAfter(r, t, start)
    decreases Remaining(t, start), 20
  {
    var left :- ComparisonExpr(t, start, c);
    EqualityTail(t, start, left, c)
  }

  /** The optional equality operator after the first operand. */
  function EqualityTail(t: seq<Token>, start: nat, left: Parsed, c: Ctx): (r: Result<Parsed>)
    requires c.store.Valid() && 1 <= left.consumed && start + left.consumed <= |t|
    requires NoCaretAt(t, start + left.consumed)
    ensures Fits(r, t, start) && NoCaretAfter(r, t, start)
    decreases Remaining(t, start), 19
  {
    var pos := start + left.consumed;
    if pos < |t| && t[pos].kind in {EqualEqual, Equals, NotEqual} then
      var right :- EqualityExpr(t, pos + 1, c);
      var equal := left.value == right.value;
      Ok(Parsed(B(if t[pos].kind == NotEqual then !equal else equal), left.consumed + 1 + right.consumed))
    else Ok(left)
  }

  /** `_parse_comparison_expression` (evaluator.py:141-163). */
  function ComparisonExpr(t: seq<Token>, start: nat, c: Ctx): (r: Result<Parsed>)
    requires c.store.Valid()
    ensures Fits(r, t, start) && NoCaretAfter(r, t, start)
    decreases Remaining(t, start), 18
  {
    var first :- ByteUnaryExpr(t, start, c);
    ComparisonRest(t, start, first.value, first.consumed, c)
  }

  /** The loop of `_parse_comparison_expression`: once an operator has been
      applied the value is a truth value. */
  function ComparisonRest(t: seq<Token>, start: nat, left: int, consumed: nat, c: Ctx): (r: Result<Parsed>)
    requires c.store.Valid() && 1 <= consumed && start + consumed <= |t| && NoCaretAt(t, start + consumed)
    ensures Fits(r, t, start) && NoCaretAfter(r, t, start)
    ensures r.Ok? && start + consumed < |t| && IsComparison(t[start + consumed].kind) ==> r.value.value in {0, 1}
    decreases Remaining(t, start), 17, Remaining(t, start + consumed)
  {
    var pos := start + consumed;
    if pos < |t| && IsComparison(t[pos].kind) then
      var right :- ByteUnaryExpr(t, pos + 1, c);
      var v := Compare(t[pos].kind, left, right.value);
      ComparisonRest(t, start, v, consumed + 1 + right.consumed, c)
    else Ok(Parsed(left, consumed))
  }

  /** `_parse_byte_unary_expression` (evaluator.py:165-183): `<v`, `>v` and a
      prefix `^v` select byte 0, 1 and 2 of a shift-level operand. */
  function ByteUnaryExpr(t: seq<Token>, start: nat, c: Ctx): (r: Result<Parsed>)
    requires c.store.Valid()
    ensures Fits(r, t, start) && NoCaretAfter(r, t, start)
    ensures start >= |t| ==> r == Err(ExpectedExpression)
    ensures r.Ok? && IsBytePrefix(t, start) ==> 0 <= r.value.value < 256
    decreases Remaining(t, start), 17
  {
    if start >= |t| then Err(ExpectedExpression)
    else if IsBytePrefix(t, start) then
      var v :- ShiftExpr(t, start + 1, c);
      Ok(Parsed(SelectByte(v.value, ByteIndex(t[start].kind)), v.consumed + 1))
    else ShiftExpr(t, start, c)
  }

  /** The byte a prefix operator selects: 0 for `<`, 1 for `>`, 2 for `^`. */
  function ByteIndex(k: Kind): nat
  {
    if k == LessThan then 0 else if k == GreaterThan then 1 else 2
  }

  /** `(v >> 8*i) & 0xFF`: byte i of the two's-complement value. */
  function SelectByte(v: int, i: nat): (b: int)
    ensures 0 <= b < 256 && b == (v / Pow2(8 * i)) % 256
  {
    LowByte(Shr(v, 8 * i));
    BitAnd(Shr(v, 8 * i), 255)
  }

  /** `_parse_shift_expression` (evaluator.py:185-213). */
  function ShiftExpr(t: seq<Token>, start: nat, c: Ctx): (r: Result<Parsed>)
    requires c.store.Valid()
    ensures Fits(r, t, start) && NoCaretAfter(r, t, start)
    decreases Remaining(t, start), 16
  {
    var first :- AdditiveExpr(t, start, c);
    ShiftRest(t, start, first.value, first.consumed, c)
  }

  /** One shift: `<<`, `>>`, or `>>>`, which first reduces the left operand
      modulo 2^32. A negative count raises ValueError. */
  function ShiftOp(k: Kind, left: int, right: int): (r: Result<int>)
    requires k in {LeftShift, RightShift, LogicalRightShift}
    ensures r.Err? <==> right < 0
    ensures r.Ok? && k == LogicalRightShift ==> 0 <= r.value < 0x1_0000_0000
  {
    if k == LeftShift then ShiftLeft(left, right)
    else if k == RightShift then ShiftRight(left, right)
    else if right < 0 then ShiftRight(left % 0x1_0000_0000, right)
    else
      UnsignedShiftBound(left % 0x1_0000_0000, Pow2(right));
      ShiftRight(left % 0x1_0000_0000, right)
  }

  /** The value of a shift: `<<` multiplies by 2^count, `>>` is the floored
      division by 2^count, and `>>>` the floored division of the operand
      reduced modulo 2^32. */
  lemma ShiftOpValues(k: Kind, left: int, right: nat)
    requires k in {LeftShift, RightShift, LogicalRightShift}
    ensures k == LeftShift ==> ShiftOp(k, left, right) == Ok(left * Pow2(right))
    ensures k == RightShift ==> ShiftOp(k, left, right) == Ok(FloorDiv(left, Pow2(right)))
    ensures k == LogicalRightShift ==> ShiftOp(k, left, right) == Ok(FloorDiv(left % 0x1_0000_0000, Pow2(right)))
  {
  }

  lemma UnsignedShiftBound(x: int, p: int)
    requires 0 <= x < 0x1_0000_0000 && p >= 1
    ensures 0 <= x / p <= x
  {
  }

  function ShiftRest(t: seq<Token>, start: nat, left: int, consumed: nat, c: Ctx): (r: Result<Parsed>)
    requires c.store.Valid() && 1 <= consumed && start + consumed <= |t| && NoCaretAt(t, start + consumed)
    ensures Fits(r, t, start) && NoCaretAfter(r, t, start)
    decreases Remaining(t, start), 15, Remaining(t, start + consumed)
  {
    var pos := start + consumed;
    if pos < |t| && t[pos].kind in {LeftShift, RightShift, LogicalRightShift} then
      var right :- AdditiveExpr(t, pos + 1, c);
      var v :- ShiftOp(t[pos].kind, left, right.value);
      ShiftRest(t, start, v, consumed + 1 + right.consumed, c)
    else Ok(Parsed(left, consumed))
  }

  /** `_parse_additive_expression` (evaluator.py:215-229). */
  function AdditiveExpr(t: seq<Token>, start: nat, c: Ctx): (r: Result<Parsed>)
    requires c.store.Valid()
    ensures Fits(r, t, start) && NoCaretAfter(r, t, start)
    decreases Remaining(t, start), 14
  {
    var first :- MultiplicativeExpr(t, start, c);
    AdditiveRest(t, start, first.value, first.consumed, c)
  }

  function AdditiveRest(t: seq<Token>, start: nat, left: int, consumed: nat, c: Ctx): (r: Result<Parsed>)
    requires c.store.Valid() && 1 <= consumed && start + consumed <= |t| && NoCaretAt(t, start + consumed)
    ensures Fits(r, t, start) && NoCaretAfter(r, t, start)
    decreases Remaining(t, start), 13, Remaining(t, start + consumed)
  {
    var pos := start + consumed;
    if IsPlus(t, pos) then
      var right := MultiplicativeExpr(t, pos + 1, c);
      if right.Err? then Err(right.error)
      else AdditiveRest(t, start, left + right.value.value, consumed + 1 + right.value.consumed, c)
    else if IsMinus(t, pos) then
      var right := MultiplicativeExpr(t, pos + 1, c);
      if right.Err? then Err(right.error)
      else AdditiveRest(t, start, left - right.value.value, consumed + 1 + right.value.consumed, c)
    else Ok(Parsed(left, consumed))
  }

  /** `_parse_multiplicative_expression` (evaluator.py:231-257). */
  function MultiplicativeExpr(t: seq<Token>, start: nat, c: Ctx): (r: Result<Parsed>)
    requires c.store.Valid()
    ensures Fits(r, t, start) && NoCaretAfter(r, t, start)
    decreases Remaining(t, start), 12
  {
    var first :- PowerExpr(t, start, c);
    MultiplicativeRest(t, start, first.value, first.consumed, c)
  }

  /** One multiplicative operator: `*`, `/` and `DIV` are floor division on
      integers, `%` and `MOD` floor modulo; a zero divisor raises. */
  function MulOp(k: Kind, left: int, right: int): (r: Result<int>)
    requires k in {Star, Divide, Div, Modulo, Mod}
    ensures r.Err? <==> k != Star && right == 0
    ensures r.Ok? && k in {Divide, Div} ==> r.value == FloorDiv(left, right)
    ensures r.Ok? && k in {Modulo, Mod} ==> r.value == FloorMod(left, right)
  {
    if k == Star then Ok(left * right)
    else if right == 0 then Err(DivisionByZero)
    else if k == Divide || k == Div then Ok(FloorDiv(left, right))
    else Ok(FloorMod(left, right))
  }

  function MultiplicativeRest(t: seq<Token>, start: nat, left: int, consumed: nat, c: Ctx): (r: Result<Parsed>)
    requires c.store.Valid() && 1 <= consumed && start + consumed <= |t| && NoCaretAt(t, start + consumed)
    ensures Fits(r, t, start) && NoCaretAfter(r, t, start)
    decreases Remaining(t, start), 11, Remaining(t, start + consumed)
  {
    var pos := start + consumed;
    if pos < |t| && t[pos].kind in {Star, Divide, Div, Modulo, Mod} then
      var right :- PowerExpr(t, pos + 1, c);
      var v :- MulOp(t[pos].kind, left, right.value);
      MultiplicativeRest(t, start, v, consumed + 1 + right.consumed, c)
    else Ok(Parsed(left, consumed))
  }

  /** `_parse_power_expression` (evaluator.py:275-285): a unary operand, then
      optionally `**` or `^` and a whole power expression (right-associative).
      This is where every binary `^` ends up. */
  function PowerExpr(t: seq<Token>, start: nat, c: Ctx): (r: Result<Parsed>)
    requires c.store.Valid()
    ensures Fits(r, t, start) && NoCaretAfter(r, t, start)
    decreases Remaining(t, start), 10
  {
    var left :- UnaryExpr(t, start, c);
    PowerTail(t, start, left, c)
  }

  /** The optional `**` or `^` after the first operand. */
  function PowerTail(t: seq<Token>, start: nat, left: Parsed, c: Ctx): (r: Result<Parsed>)
    requires c.store.Valid() && 1 <= left.consumed && start + left.consumed <= |t|
    ensures Fits(r, t, start) && NoCaretAfter(r, t, start)
    decreases Remaining(t, start), 9
  {
    var pos := start + left.consumed;
    if At(t, pos, Power) || At(t, pos, Caret) then
      var right :- PowerExpr(t, pos + 1, c);
      var v :- Bits.Power(left.value, right.value);
      Ok(Parsed(v, left.consumed + 1 + right.consumed))
    else Ok(left)
  }

  /** `_parse_unary_expression` (evaluator.py:259-273). */
  function UnaryExpr(t: seq<Token>, start: nat, c: Ctx): (r: Result<Parsed>)
    requires c.store.Valid()
    ensures Fits(r, t, start)
    ensures start >= |t| ==> r == Err(ExpectedExpression)
    decreases Remaining(t, start), 9
  {
    if start >= |t| then Err(ExpectedExpression)
    else if IsMinus(t, start) || IsPlus(t, start) || t[start].kind == Not then UnaryOp(t, start, c)
    else PrimaryExpr(t, start, c)
  }

  /** The operator branches of `_parse_unary_expression`: `-` and `+` take a
      power-level operand, `NOT` a primary one. */
  function UnaryOp(t: seq<Token>, start: nat, c: Ctx): (r: Result<Parsed>)
    requires c.store.Valid() && (IsMinus(t, start) || IsPlus(t, start) || At(t, start, Not))
    ensures Fits(r, t, start)
    decreases Remaining(t, start), 5
  {
    if IsMinus(t, start) then
      var v :- PowerExpr(t, start + 1, c);
      Ok(Parsed(-v.value, v.consumed + 1))
    else if IsPlus(t, start) then
      var v :- PowerExpr(t, start + 1, c);
      Ok(Parsed(v.value, v.consumed + 1))
    else
      var v :- PrimaryExpr(t, start + 1, c);
      Ok(Parsed(Bits.Not(v.value), v.consumed + 1))
  }

  /** `_parse_primary_expression` (evaluator.py:292-374). The fallback for
      `<`, `>` and `^` hands the same position back to the unary level, which
      hands it back here: an unbounded recursion in the source, which ends in
      Python's RecursionError. */
  function PrimaryExpr(t: seq<Token>, start: nat, c: Ctx): (r: Result<Parsed>)
    requires c.store.Valid()
    ensures Fits(r, t, start)
    ensures start >= |t| ==> r == Err(ExpectedExpression)
    decreases Remaining(t, start), 8
  {
    if start >= |t| then Err(ExpectedExpression)
    else
      var tok := t[start];
      match tok.kind
      case Function => FunctionCall(t, start, c)
      case HexNumber | BinNumber | OctNumber | DecNumber | Char => var v :- ParseNumber(tok); Ok(Parsed(v, 1))
      case Star => Ok(Parsed(c.pc, 1))
      case Identifier =>
        if tok.value in c.vars then Ok(Parsed(c.vars[tok.value], 1))
        else
          var sym :- Resolve(c.store, tok.value);
          Ok(Parsed(sym.value, 1))
      case LParen => Parenthesised(t, start, c)
      case Not | Minus | Plus => UnaryOp(t, start, c)
      case LessThan | GreaterThan | Caret => Err(Recursion)
      case _ => Err(InvalidExpression(tok.value))
  }

  /** A parenthesised expression (evaluator.py:363-369). */
  function Parenthesised(t: seq<Token>, start: nat, c: Ctx): (r: Result<Parsed>)
    requires c.store.Valid() && At(t, start, LParen)
    ensures Fits(r, t, start)
    decreases Remaining(t, start), 7
  {
    var inner :- OrExpr(t, start + 1, c);
    if At(t, start + 1 + inner.consumed, RParen) then Ok(Parsed(inner.value, inner.consumed + 2))
    else Err(MissingClosingParen)
  }

  /** A function call (evaluator.py:297-349): a known name, `(`, then no
      argument or a comma-separated list of expressions, then `)`. */
  function FunctionCall(t: seq<Token>, start: nat, c: Ctx): (r: Result<Parsed>)
    requires c.store.Valid() && At(t, start, Function)
    ensures Fits(r, t, start)
    decreases Remaining(t, start), 7
  {
    var name := t[start].value;
    if name !in BuiltinNames && name !in AddressNames then Err(UnknownFunction(name))
    else if !At(t, start + 1, LParen) then Err(ExpectedParenAfterFunction(name))
    else if start + 2 >= |t| then Err(FunctionArgumentIndex)
    else if t[start + 2].kind == RParen then
      var v :- ApplyFunction(name, []);
      Ok(Parsed(v, 3))
    else
      var args :- ArgumentList(t, start, start + 2, [], c);
      var v :- ApplyFunction(name, args.values);
      Ok(Parsed(v, args.consumed))
  }

  /** The argument loop of a function call (evaluator.py:309-329), from the
      argument starting at `pos`; `fstart` is the position of the function
      name. */
  function ArgumentList(t: seq<Token>, fstart: nat, pos: nat, args: seq<int>, c: Ctx): (r: Result<Args>)
    requires c.store.Valid() && fstart + 2 <= pos <= |t|
    ensures r.Ok? ==> fstart + 3 <= fstart + r.value.consumed <= |t| && |r.value.values| > |args|
    ensures r.Ok? ==> t[fstart + r.value.consumed - 1].kind == RParen
    decreases Remaining(t, fstart), 6, Remaining(t, pos)
  {
    var a :- OrExpr(t, pos, c);
    var p := pos + a.consumed;
    if p >= |t| then Err(MissingClosingParen)
    else if t[p].kind == RParen then Ok(Args(args + [a.value], p - fstart + 1))
    else if t[p].kind == Comma then ArgumentList(t, fstart, p + 1, args + [a.value], c)
    else Err(ExpectedCommaOrParen)
  }
}
