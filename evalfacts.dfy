/** What the precedence ladder of the expression evaluator guarantees
    (pyasm6502/package/evaluator.py:92-374). */
module EvaluatorFacts {
  import opened Wrappers
  import opened Bits
  import opened Tokens
  import opened Symbols
  import opened Numbers
  import opened Evaluator
  import opened EvaluatorLoops

  /** `a == b` and `a = b` are 1 when the operands are equal and 0 otherwise;
      the right operand is the whole rest of the equality chain, so
      `1 == 2 == 2` compares 1 with `2 == 2`. */
  lemma EqualIsTruthValue(t: seq<Token>, start: nat, left: Parsed, right: Parsed, c: Ctx)
    requires c.store.Valid() && 1 <= left.consumed && start + left.consumed < |t|
    requires t[start + left.consumed].kind == EqualEqual || t[start + left.consumed].kind == Equals
    requires EqualityExpr(t, start + left.consumed + 1, c) == Ok(right)
    ensures var r := EqualityTail(t, start, left, c);
      r.Ok? && r.value == Parsed(B(left.value == right.value), left.consumed + 1 + right.consumed)
  {
  }

  /** `a != b` is 1 when the operands differ and 0 otherwise. */
  lemma NotEqualIsTruthValue(t: seq<Token>, start: nat, left: Parsed, right: Parsed, c: Ctx)
    requires c.store.Valid() && 1 <= left.consumed && start + left.consumed < |t|
    requires t[start + left.consumed].kind == NotEqual
    requires EqualityExpr(t, start + left.consumed + 1, c) == Ok(right)
    ensures var r := EqualityTail(t, start, left, c);
      r.Ok? && r.value == Parsed(B(left.value != right.value), left.consumed + 1 + right.consumed)
  {
  }

  /** A `>>>` step shifts the left operand reduced modulo 2^32, so the value
      it passes on lies in 0..2^32-1 whatever the sign of the operand. */
  lemma LogicalShiftIsUnsigned(t: seq<Token>, start: nat, left: int, consumed: nat, right: Parsed, c: Ctx)
    requires c.store.Valid() && 1 <= consumed && start + consumed < |t| && NoCaretAt(t, start + consumed)
    requires t[start + consumed].kind == LogicalRightShift && AdditiveExpr(t, start + consumed + 1, c) == Ok(right)
    requires right.value >= 0
    ensures var v := FloorDiv(left % 0x1_0000_0000, Pow2(right.value));
      0 <= v < 0x1_0000_0000 &&
      ShiftRest(t, start, left, consumed, c) == ShiftRest(t, start, v, consumed + 1 + right.consumed, c)
  {
    ShiftOpValues(LogicalRightShift, left, right.value);
    ShiftRestStep(t, start, left, consumed, right, ShiftOp(LogicalRightShift, left, right.value).value, c);
  }

  /** `-1 >>> 0` is 0xFFFFFFFF where `-1 >> 0` is -1, and `-16 >>> 2` is
      0x3FFFFFFC where `-16 >> 2` is -4. */
  lemma LogicalAndArithmeticShiftDiffer()
    ensures ShiftOp(LogicalRightShift, -1, 0) == Ok(0xFFFF_FFFF) && ShiftOp(RightShift, -1, 0) == Ok(-1)
    ensures ShiftOp(LogicalRightShift, -16, 2) == Ok(0x3FFF_FFFC) && ShiftOp(RightShift, -16, 2) == Ok(-4)
  {
    assert Pow2(2) == 4;
  }

  /** A byte prefix selects its byte of the shift-level operand after it. */
  lemma ByteSelection(t: seq<Token>, start: nat, v: Parsed, c: Ctx)
    requires c.store.Valid() && IsBytePrefix(t, start) && ShiftExpr(t, start + 1, c) == Ok(v)
    ensures ByteUnaryExpr(t, start, c) == Ok(Parsed(SelectByte(v.value, ByteIndex(t[start].kind)), v.consumed + 1))
  {
  }

  /** Bytes 0, 1 and 2 of a value, by arithmetic. */
  lemma ByteValues(v: int)
    ensures SelectByte(v, 0) == v % 256
    ensures SelectByte(v, 1) == (v / 256) % 256
    ensures SelectByte(v, 2) == (v / 65536) % 256
  {
    assert Pow2(0) == 1 && Pow2(8) == 256 && Pow2(16) == 65536;
  }

  /** `<v`, `>v` and a prefix `^v` are byte 0, 1 and 2 of the shift-level
      operand `v`, for negative `v` too. */
  lemma ByteSelectors(t: seq<Token>, start: nat, v: Parsed, c: Ctx)
    requires c.store.Valid() && IsBytePrefix(t, start) && ShiftExpr(t, start + 1, c) == Ok(v)
    ensures t[start].kind == LessThan ==> ByteUnaryExpr(t, start, c) == Ok(Parsed(v.value % 256, v.consumed + 1))
    ensures t[start].kind == GreaterThan ==>
      ByteUnaryExpr(t, start, c) == Ok(Parsed((v.value / 256) % 256, v.consumed + 1))
    ensures t[start].kind == Caret ==>
      ByteUnaryExpr(t, start, c) == Ok(Parsed((v.value / 65536) % 256, v.consumed + 1))
  {
    ByteSelection(t, start, v, c);
    ByteValues(v.value);
  }

  /** A binary `^` is exponentiation, right-associative like `**`. No
      AND-level operand is ever followed by `^` (the postcondition of AndExpr),
      so the `^` alternative of the XOR level is never taken. */
  lemma CaretIsPower(t: seq<Token>, start: nat, a: Parsed, b: Parsed, c: Ctx)
    requires c.store.Valid() && UnaryExpr(t, start, c) == Ok(a)
    requires At(t, start + a.consumed, Caret) && PowerExpr(t, start + a.consumed + 1, c) == Ok(b)
    requires b.value >= 0
    ensures PowerExpr(t, start, c) == Ok(Parsed(IntPow(a.value, b.value), a.consumed + 1 + b.consumed))
  {
    PowerOperator(t, start, a, b, c);
  }

  lemma PowerOperator(t: seq<Token>, start: nat, a: Parsed, b: Parsed, c: Ctx)
    requires c.store.Valid() && 1 <= a.consumed && start + a.consumed < |t|
    requires t[start + a.consumed].kind == Caret && PowerExpr(t, start + a.consumed + 1, c) == Ok(b)
    requires b.value >= 0
    ensures PowerTail(t, start, a, c) == Ok(Parsed(IntPow(a.value, b.value), a.consumed + 1 + b.consumed))
  {
  }

  /** Unary minus applies to a whole power expression: `-2^2` is -4. */
  lemma MinusBindsLooserThanPower(t: seq<Token>, start: nat, p: Parsed, c: Ctx)
    requires c.store.Valid() && IsMinus(t, start) && PowerExpr(t, start + 1, c) == Ok(p)
    ensures UnaryExpr(t, start, c) == Ok(Parsed(-p.value, p.consumed + 1))
  {
  }

  /** A parenthesised expression has the value of its contents and consumes
      both parentheses; without the `)` it is an error. */
  lemma Parentheses(t: seq<Token>, start: nat, inner: Parsed, c: Ctx)
    requires c.store.Valid() && At(t, start, LParen) && OrExpr(t, start + 1, c) == Ok(inner)
    ensures At(t, start + 1 + inner.consumed, RParen) ==>
      PrimaryExpr(t, start, c) == Ok(Parsed(inner.value, inner.consumed + 2))
    ensures !At(t, start + 1 + inner.consumed, RParen) ==> PrimaryExpr(t, start, c) == Err(MissingClosingParen)
  {
    PrimaryOfParen(t, start, c);
  }

  lemma PrimaryOfParen(t: seq<Token>, start: nat, c: Ctx)
    requires c.store.Valid() && At(t, start, LParen)
    ensures PrimaryExpr(t, start, c) == Parenthesised(t, start, c)
  {
  }

  /** A loop variable hides a symbol of the same name. */
  lemma LoopVariableShadowsSymbol(t: seq<Token>, start: nat, c: Ctx)
    requires c.store.Valid() && start < |t| && t[start].kind == Identifier && t[start].value in c.vars
    ensures PrimaryExpr(t, start, c) == Ok(Parsed(c.vars[t[start].value], 1))
  {
  }

  /** A one-argument call list: the argument, then `)`. */
  lemma SingleArgument(t: seq<Token>, fstart: nat, arg: Parsed, c: Ctx)
    requires c.store.Valid() && fstart + 2 <= |t|
    requires OrExpr(t, fstart + 2, c) == Ok(arg) && At(t, fstart + 2 + arg.consumed, RParen)
    ensures ArgumentList(t, fstart, fstart + 2, [], c) == Ok(Args([arg.value], arg.consumed + 3))
  {
    assert [] + [arg.value] == [arg.value];
  }

  /** `address(e)` and `addr(e)` are the value of `e`. */
  lemma AddressOfValue(t: seq<Token>, fstart: nat, arg: Parsed, c: Ctx)
    requires c.store.Valid() && fstart + 2 < |t| && t[fstart].kind == Function && t[fstart].value in AddressNames
    requires t[fstart + 1].kind == LParen && t[fstart + 2].kind != RParen
    requires OrExpr(t, fstart + 2, c) == Ok(arg) && At(t, fstart + 2 + arg.consumed, RParen)
    ensures PrimaryExpr(t, fstart, c) == Ok(Parsed(arg.value, arg.consumed + 3))
  {
    SingleArgument(t, fstart, arg, c);
    assert FunctionCall(t, fstart, c) == Ok(Parsed(arg.value, arg.consumed + 3));
  }

  /** A `<`, `>` or `^` that reaches the primary level is handed back and
      forth between the unary and primary levels without end. */
  lemma BytePrefixAtPrimaryLevel(t: seq<Token>, start: nat, c: Ctx)
    requires c.store.Valid() && start < |t| && t[start].kind in {LessThan, GreaterThan, Caret}
    ensures UnaryExpr(t, start, c) == Err(Recursion)
  {
  }

  /** An expression that is one operand token has that operand's value. */
  lemma {:induction false} SingleOperand(t: seq<Token>, v: int, c: Ctx)
    requires c.store.Valid() && |t| == 1
    requires t[0].kind !in {Minus, Plus, Not, LessThan, GreaterThan, Caret}
    requires !(t[0].kind == Identifier && t[0].value in {"+", "-"})
    requires PrimaryExpr(t, 0, c) == Ok(Parsed(v, 1))
    ensures Evaluate(t, 0, c) == Ok(Parsed(v, 1))
  {
    var p := Ok(Parsed(v, 1));
    assert UnaryExpr(t, 0, c) == p;
    assert PowerTail(t, 0, Parsed(v, 1), c) == p;
    assert PowerExpr(t, 0, c) == p;
    assert MultiplicativeRest(t, 0, v, 1, c) == p;
    assert MultiplicativeExpr(t, 0, c) == p;
    assert AdditiveRest(t, 0, v, 1, c) == p;
    assert AdditiveExpr(t, 0, c) == p;
    assert ShiftRest(t, 0, v, 1, c) == p;
    assert ShiftExpr(t, 0, c) == p;
    assert ByteUnaryExpr(t, 0, c) == p;
    assert ComparisonRest(t, 0, v, 1, c) == p;
    assert ComparisonExpr(t, 0, c) == p;
    assert EqualityTail(t, 0, Parsed(v, 1), c) == p;
    assert EqualityExpr(t, 0, c) == p;
    assert AndRest(t, 0, v, 1, c) == p;
    assert AndExpr(t, 0, c) == p;
    assert XorRest(t, 0, v, 1, c) == p;
    assert XorExpr(t, 0, c) == p;
    assert OrRest(t, 0, v, 1, c) == p;
  }

  /** A decimal literal evaluates to its number. */
  lemma DecimalLiteral(n: nat, line: int, col: nat, c: Ctx)
    requires c.store.Valid()
    ensures Evaluate([Token(DecNumber, ToDigits(n, 10), line, col)], 0, c) == Ok(Parsed(n, 1))
  {
    var t := [Token(DecNumber, ToDigits(n, 10), line, col)];
    OctalAndDecimalLiterals(n, line, col);
    assert PrimaryExpr(t, 0, c) == Ok(Parsed(n, 1));
    SingleOperand(t, n, c);
  }

  /** `*` alone is the program counter. */
  lemma ProgramCounter(line: int, col: nat, c: Ctx)
    requires c.store.Valid()
    ensures Evaluate([Token(Star, "*", line, col)], 0, c) == Ok(Parsed(c.pc, 1))
  {
    var t := [Token(Star, "*", line, col)];
    assert PrimaryExpr(t, 0, c) == Ok(Parsed(c.pc, 1));
    SingleOperand(t, c.pc, c);
  }
}
