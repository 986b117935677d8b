/** The `while` loops of the expression evaluator
    (pyasm6502/package/evaluator.py:96-257, 309-329) as methods. Each level
    folds its operators from left to right and is proved equal to the
    level's function in Evaluator; one pass of each loop is a method of its
    own. The operands come from the next level's method where that level is
    a loop too, and from its function otherwise. */
module EvaluatorLoops {
  import opened Wrappers
  import opened Bits
  import opened Tokens
  import opened Symbols
  import opened Evaluator

  /** `evaluate_expression`. */
  method EvaluateExpression(t: seq<Token>, start: nat, c: Ctx) returns (r: Result<Parsed>)
    requires c.store.Valid()
    ensures r == Evaluate(t, start, c)
  {
    r := ParseOr(t, start, c);
  }

  /** `_parse_or_expression`: the first XOR-level operand, then each `OR`/`|` in turn. */
  method ParseOr(t: seq<Token>, start: nat, c: Ctx) returns (r: Result<Parsed>)
    requires c.store.Valid()
    ensures r == OrExpr(t, start, c)
  {
    var first := ParseXor(t, start, c);
    if first.Err? {
      return Err(first.error);
    }
    var left, consumed := first.value.value, first.value.consumed;
    while start + consumed < |t| && t[start + consumed].kind == Or
      invariant 1 <= consumed && start + consumed <= |t| && NoCaretAt(t, start + consumed)
      invariant OrRest(t, start, left, consumed, c) == OrExpr(t, start, c)
      decreases |t| - consumed
    {
      var next := OrOperand(t, start, left, consumed, c);
      if next.Err? {
        return Err(next.error);
      }
      left, consumed := next.value.value, next.value.consumed;
    }
    return Ok(Parsed(left, consumed));
  }

  /** One pass of the loop of `_parse_or_expression`: the XOR-level operand after the
      `OR`/`|` at `start + consumed`, OR-ed in. */
  method OrOperand(t: seq<Token>, start: nat, left: int, consumed: nat, c: Ctx) returns (r: Result<Parsed>)
    requires c.store.Valid() && 1 <= consumed && start + consumed < |t| && NoCaretAt(t, start + consumed)
    requires t[start + consumed].kind == Or
    ensures r.Err? ==> OrRest(t, start, left, consumed, c) == Err(r.error)
    ensures r.Ok? ==> consumed < r.value.consumed && start + r.value.consumed <= |t| && NoCaretAt(t, start + r.value.consumed)
    ensures r.Ok? ==> OrRest(t, start, left, consumed, c) == OrRest(t, start, r.value.value, r.value.consumed, c)
  {
    var right := ParseXor(t, start + consumed + 1, c);
    if right.Err? {
      return Err(right.error);
    }
    return Ok(Parsed(BitOr(left, right.value.value), consumed + 1 + right.value.consumed));
  }

  /** `_parse_xor_expression`: the first AND-level operand, then each `XOR` in turn. */
  method ParseXor(t: seq<Token>, start: nat, c: Ctx) returns (r: Result<Parsed>)
    requires c.store.Valid()
    ensures r == XorExpr(t, start, c)
  {
    var first := ParseAnd(t, start, c);
    if first.Err? {
      return Err(first.error);
    }
    var left, consumed := first.value.value, first.value.consumed;
    while start + consumed < |t| && t[start + consumed].kind in {Xor, Caret}
      invariant 1 <= consumed && start + consumed <= |t| && NoCaretAt(t, start + consumed)
      invariant XorRest(t, start, left, consumed, c) == XorExpr(t, start, c)
      decreases |t| - consumed
    {
      var next := XorOperand(t, start, left, consumed, c);
      if next.Err? {
        return Err(next.error);
      }
      left, consumed := next.value.value, next.value.consumed;
    }
    return Ok(Parsed(left, consumed));
  }

  /** One pass of the loop of `_parse_xor_expression`: the AND-level operand after the
      `XOR` at `start + consumed`, XOR-ed in. */
  method XorOperand(t: seq<Token>, start: nat, left: int, consumed: nat, c: Ctx) returns (r: Result<Parsed>)
    requires c.store.Valid() && 1 <= consumed && start + consumed < |t| && NoCaretAt(t, start + consumed)
    requires t[start + consumed].kind in {Xor, Caret}
    ensures r.Err? ==> XorRest(t, start, left, consumed, c) == Err(r.error)
    ensures r.Ok? ==> consumed < r.value.consumed && start + r.value.consumed <= |t| && NoCaretAt(t, start + r.value.consumed)
    ensures r.Ok? ==> XorRest(t, start, left, consumed, c) == XorRest(t, start, r.value.value, r.value.consumed, c)
  {
    var right := ParseAnd(t, start + consumed + 1, c);
    if right.Err? {
      return Err(right.error);
    }
    return Ok(Parsed(BitXor(left, right.value.value), consumed + 1 + right.value.consumed));
  }

  /** `_parse_and_expression`: the first equality-level operand, then each `AND`/`&` in turn. */
  method ParseAnd(t: seq<Token>, start: nat, c: Ctx) returns (r: Result<Parsed>)
    requires c.store.Valid()
    ensures r == AndExpr(t, start, c)
  {
    var first := EqualityExpr(t, start, c);
    if first.Err? {
      return Err(first.error);
    }
    var left, consumed := first.value.value, first.value.consumed;
    while start + consumed < |t| && t[start + consumed].kind == And
      invariant 1 <= consumed && start + consumed <= |t| && NoCaretAt(t, start + consumed)
      invariant AndRest(t, start, left, consumed, c) == AndExpr(t, start, c)
      decreases |t| - consumed
    {
      var next := AndOperand(t, start, left, consumed, c);
      if next.Err? {
        return Err(next.error);
      }
      left, consumed := next.value.value, next.value.consumed;
    }
    return Ok(Parsed(left, consumed));
  }

  /** One pass of the loop of `_parse_and_expression`: the equality-level operand after the
      `AND`/`&` at `start + consumed`, AND-ed in. */
  method AndOperand(t: seq<Token>, start: nat, left: int, consumed: nat, c: Ctx) returns (r: Result<Parsed>)
    requires c.store.Valid() && 1 <= consumed && start + consumed < |t| && NoCaretAt(t, start + consumed)
    requires t[start + consumed].kind == And
    ensures r.Err? ==> AndRest(t, start, left, consumed, c) == Err(r.error)
    ensures r.Ok? ==> consumed < r.value.consumed && start + r.value.consumed <= |t| && NoCaretAt(t, start + r.value.consumed)
    ensures r.Ok? ==> AndRest(t, start, left, consumed, c) == AndRest(t, start, r.value.value, r.value.consumed, c)
  {
    var right := EqualityExpr(t, start + consumed + 1, c);
    if right.Err? {
      return Err(right.error);
    }
    return Ok(Parsed(BitAnd(left, right.value.value), consumed + 1 + right.value.consumed));
  }

  /** `_parse_comparison_expression`: the first byte-level operand, then each comparison operator in turn. */
  method ParseComparison(t: seq<Token>, start: nat, c: Ctx) returns (r: Result<Parsed>)
    requires c.store.Valid()
    ensures r == ComparisonExpr(t, start, c)
  {
    var first := ByteUnaryExpr(t, start, c);
    if first.Err? {
      return Err(first.error);
    }
    var left, consumed := first.value.value, first.value.consumed;
    while start + consumed < |t| && IsComparison(t[start + consumed].kind)
      invariant 1 <= consumed && start + consumed <= |t| && NoCaretAt(t, start + consumed)
      invariant ComparisonRest(t, start, left, consumed, c) == ComparisonExpr(t, start, c)
      decreases |t| - consumed
    {
      var next := ComparisonOperand(t, start, left, consumed, c);
      if next.Err? {
        return Err(next.error);
      }
      left, consumed := next.value.value, next.value.consumed;
    }
    return Ok(Parsed(left, consumed));
  }

  /** One pass of the loop of `_parse_comparison_expression`: the byte-level operand after the
      comparison operator at `start + consumed`, compared with the value so far. */
  method ComparisonOperand(t: seq<Token>, start: nat, left: int, consumed: nat, c: Ctx) returns (r: Result<Parsed>)
    requires c.store.Valid() && 1 <= consumed && start + consumed < |t| && NoCaretAt(t, start + consumed)
    requires IsComparison(t[start + consumed].kind)
    ensures r.Err? ==> ComparisonRest(t, start, left, consumed, c) == Err(r.error)
    ensures r.Ok? ==> consumed < r.value.consumed && start + r.value.consumed <= |t| && NoCaretAt(t, start + r.value.consumed)
    ensures r.Ok? ==> ComparisonRest(t, start, left, consumed, c) == ComparisonRest(t, start, r.value.value, r.value.consumed, c)
  {
    var right := ByteUnaryExpr(t, start + consumed + 1, c);
    if right.Err? {
      return Err(right.error);
    }
    return Ok(Parsed(Compare(t[start + consumed].kind, left, right.value.value), consumed + 1 + right.value.consumed));
  }

  /** `_parse_shift_expression`: the first additive-level operand, then each shift operator in turn. */
  method ParseShift(t: seq<Token>, start: nat, c: Ctx) returns (r: Result<Parsed>)
    requires c.store.Valid()
    ensures r == ShiftExpr(t, start, c)
  {
    var first := ParseAdditive(t, start, c);
    if first.Err? {
      return Err(first.error);
    }
    var left, consumed := first.value.value, first.value.consumed;
    while start + consumed < |t| && t[start + consumed].kind in {LeftShift, RightShift, LogicalRightShift}
      invariant 1 <= consumed && start + consumed <= |t| && NoCaretAt(t, start + consumed)
      invariant ShiftRest(t, start, left, consumed, c) == ShiftExpr(t, start, c)
      decreases |t| - consumed
    {
      var next := ShiftOperand(t, start, left, consumed, c);
      if next.Err? {
        return Err(next.error);
      }
      left, consumed := next.value.value, next.value.consumed;
    }
    return Ok(Parsed(left, consumed));
  }

  /** One pass of the loop of `_parse_shift_expression`: the additive-level operand after the
      shift operator at `start + consumed`, used as the shift count. */
  method ShiftOperand(t: seq<Token>, start: nat, left: int, consumed: nat, c: Ctx) returns (r: Result<Parsed>)
    requires c.store.Valid() && 1 <= consumed && start + consumed < |t| && NoCaretAt(t, start + consumed)
    requires t[start + consumed].kind in {LeftShift, RightShift, LogicalRightShift}
    ensures r.Err? ==> ShiftRest(t, start, left, consumed, c) == Err(r.error)
    ensures r.Ok? ==> consumed < r.value.consumed && start + r.value.consumed <= |t| && NoCaretAt(t, start + r.value.consumed)
    ensures r.Ok? ==> ShiftRest(t, start, left, consumed, c) == ShiftRest(t, start, r.value.value, r.value.consumed, c)
  {
    var right := ParseAdditive(t, start + consumed + 1, c);
    if right.Err? {
      return Err(right.error);
    }
    var v := ShiftOp(t[start + consumed].kind, left, right.value.value);
    if v.Err? {
      return Err(v.error);
    }
    return Ok(Parsed(v.value, consumed + 1 + right.value.consumed));
  }

  /** A shift step whose count parses to `right` and whose shift yields `v`. */
  lemma ShiftRestStep(t: seq<Token>, start: nat, left: int, consumed: nat, right: Parsed, v: int, c: Ctx)
    requires c.store.Valid() && 1 <= consumed && start + consumed < |t| && NoCaretAt(t, start + consumed)
    requires t[start + consumed].kind in {LeftShift, RightShift, LogicalRightShift}
    requires AdditiveExpr(t, start + consumed + 1, c) == Ok(right)
    requires ShiftOp(t[start + consumed].kind, left, right.value) == Ok(v)
    ensures ShiftRest(t, start, left, consumed, c) == ShiftRest(t, start, v, consumed + 1 + right.consumed, c)
  {
  }

  /** `_parse_additive_expression`: the first multiplicative-level operand, then each `+` or `-` in turn. */
  method ParseAdditive(t: seq<Token>, start: nat, c: Ctx) returns (r: Result<Parsed>)
    requires c.store.Valid()
    ensures r == AdditiveExpr(t, start, c)
  {
    var first := ParseMultiplicative(t, start, c);
    if first.Err? {
      return Err(first.error);
    }
    var left, consumed := first.value.value, first.value.consumed;
    while IsPlus(t, start + consumed) || IsMinus(t, start + consumed)
      invariant 1 <= consumed && start + consumed <= |t| && NoCaretAt(t, start + consumed)
      invariant AdditiveRest(t, start, left, consumed, c) == AdditiveExpr(t, start, c)
      decreases |t| - consumed
    {
      var next := AdditiveOperand(t, start, left, consumed, c);
      if next.Err? {
        return Err(next.error);
      }
      left, consumed := next.value.value, next.value.consumed;
    }
    return Ok(Parsed(left, consumed));
  }

  /** One pass of the loop of `_parse_additive_expression`: the multiplicative-level operand after the
      `+` or `-` at `start + consumed`, added or subtracted. */
  method AdditiveOperand(t: seq<Token>, start: nat, left: int, consumed: nat, c: Ctx) returns (r: Result<Parsed>)
    requires c.store.Valid() && 1 <= consumed && start + consumed < |t| && NoCaretAt(t, start + consumed)
    requires IsPlus(t, start + consumed) || IsMinus(t, start + consumed)
    ensures r.Err? ==> AdditiveRest(t, start, left, consumed, c) == Err(r.error)
    ensures r.Ok? ==> consumed < r.value.consumed && start + r.value.consumed <= |t| && NoCaretAt(t, start + r.value.consumed)
    ensures r.Ok? ==> AdditiveRest(t, start, left, consumed, c) == AdditiveRest(t, start, r.value.value, r.value.consumed, c)
  {
    var right := ParseMultiplicative(t, start + consumed + 1, c);
    AdditiveRestStep(t, start, left, consumed, c, right);
    if right.Err? {
      return Err(right.error);
    }
    return Ok(Parsed(if IsPlus(t, start + consumed) then left + right.value.value else left - right.value.value, consumed + 1 + right.value.consumed));
  }

  /** One pass of the additive loop whose operand parses to `right`. */
  lemma AdditiveRestStep(t: seq<Token>, start: nat, left: int, consumed: nat, c: Ctx, right: Result<Parsed>)
    requires c.store.Valid() && 1 <= consumed && start + consumed < |t| && NoCaretAt(t, start + consumed)
    requires IsPlus(t, start + consumed) || IsMinus(t, start + consumed)
    requires MultiplicativeExpr(t, start + consumed + 1, c) == right
    ensures right.Err? ==> AdditiveRest(t, start, left, consumed, c) == Err(right.error)
    ensures right.Ok? ==> start + consumed + 1 + right.value.consumed <= |t| && NoCaretAt(t, start + consumed + 1 + right.value.consumed)
    ensures right.Ok? ==>
              AdditiveRest(t, start, left, consumed, c)
              == AdditiveRest(t, start, if IsPlus(t, start + consumed) then left + right.value.value else left - right.value.value,
                              consumed + 1 + right.value.consumed, c)
  {
    if right.Err? {
      AdditiveRestFails(t, start, left, consumed, c, right.error);
    } else if IsPlus(t, start + consumed) {
      AdditiveRestPlus(t, start, left, consumed, c, right.value);
    } else {
      AdditiveRestMinus(t, start, left, consumed, c, right.value);
    }
  }

  lemma AdditiveRestFails(t: seq<Token>, start: nat, left: int, consumed: nat, c: Ctx, e: Error)
    requires c.store.Valid() && 1 <= consumed && start + consumed < |t| && NoCaretAt(t, start + consumed)
    requires IsPlus(t, start + consumed) || IsMinus(t, start + consumed)
    requires MultiplicativeExpr(t, start + consumed + 1, c) == Err(e)
    ensures AdditiveRest(t, start, left, consumed, c) == Err(e)
  {
  }

  lemma AdditiveRestPlus(t: seq<Token>, start: nat, left: int, consumed: nat, c: Ctx, right: Parsed)
    requires c.store.Valid() && 1 <= consumed && start + consumed < |t| && NoCaretAt(t, start + consumed)
    requires IsPlus(t, start + consumed)
    requires MultiplicativeExpr(t, start + consumed + 1, c) == Ok(right)
    ensures AdditiveRest(t, start, left, consumed, c) == AdditiveRest(t, start, left + right.value, consumed + 1 + right.consumed, c)
  {
  }

  lemma AdditiveRestMinus(t: seq<Token>, start: nat, left: int, consumed: nat, c: Ctx, right: Parsed)
    requires c.store.Valid() && 1 <= consumed && start + consumed < |t| && NoCaretAt(t, start + consumed)
    requires !IsPlus(t, start + consumed) && IsMinus(t, start + consumed)
    requires MultiplicativeExpr(t, start + consumed + 1, c) == Ok(right)
    ensures AdditiveRest(t, start, left, consumed, c) == AdditiveRest(t, start, left - right.value, consumed + 1 + right.consumed, c)
  {
  }

  /** `_parse_multiplicative_expression`: the first power-level operand, then each `*`, `/`, `DIV`, `%` or `MOD` in turn. */
  method ParseMultiplicative(t: seq<Token>, start: nat, c: Ctx) returns (r: Result<Parsed>)
    requires c.store.Valid()
    ensures r == MultiplicativeExpr(t, start, c)
  {
    var first := PowerExpr(t, start, c);
    if first.Err? {
      return Err(first.error);
    }
    var left, consumed := first.value.value, first.value.consumed;
    while start + consumed < |t| && t[start + consumed].kind in {Star, Divide, Div, Modulo, Mod}
      invariant 1 <= consumed && start + consumed <= |t| && NoCaretAt(t, start + consumed)
      invariant MultiplicativeRest(t, start, left, consumed, c) == MultiplicativeExpr(t, start, c)
      decreases |t| - consumed
    {
      var next := MultiplicativeOperand(t, start, left, consumed, c);
      if next.Err? {
        return Err(next.error);
      }
      left, consumed := next.value.value, next.value.consumed;
    }
    return Ok(Parsed(left, consumed));
  }

  /** One pass of the loop of `_parse_multiplicative_expression`: the power-level operand after the
      `*`, `/`, `DIV`, `%` or `MOD` at `start + consumed`, applied. */
  method MultiplicativeOperand(t: seq<Token>, start: nat, left: int, consumed: nat, c: Ctx) returns (r: Result<Parsed>)
    requires c.store.Valid() && 1 <= consumed && start + consumed < |t| && NoCaretAt(t, start + consumed)
    requires t[start + consumed].kind in {Star, Divide, Div, Modulo, Mod}
    ensures r.Err? ==> MultiplicativeRest(t, start, left, consumed, c) == Err(r.error)
    ensures r.Ok? ==> consumed < r.value.consumed && start + r.value.consumed <= |t| && NoCaretAt(t, start + r.value.consumed)
    ensures r.Ok? ==> MultiplicativeRest(t, start, left, consumed, c) == MultiplicativeRest(t, start, r.value.value, r.value.consumed, c)
  {
    var right := PowerExpr(t, start + consumed + 1, c);
    if right.Err? {
      return Err(right.error);
    }
    var v := MulOp(t[start + consumed].kind, left, right.value.value);
    if v.Err? {
      return Err(v.error);
    }
    return Ok(Parsed(v.value, consumed + 1 + right.value.consumed));
  }

  /** How one pass of the argument loop ends: with the call's result (a
      closing parenthesis or an error), or after a comma with the arguments
      so far and the position of the next one. */
  datatype ArgStep = Finished(result: Result<Args>) | Continue(args: seq<int>, pos: nat)

  /** The argument loop of a function call whose name is at `fstart` and
      whose first argument starts at `fstart + 2`. */
  method ParseArguments(t: seq<Token>, fstart: nat, c: Ctx) returns (r: Result<Args>)
    requires c.store.Valid() && fstart + 2 <= |t|
    ensures r == ArgumentList(t, fstart, fstart + 2, [], c)
  {
    var args: seq<int> := [];
    var pos := fstart + 2;
    while true
      invariant fstart + 2 <= pos <= |t|
      invariant ArgumentList(t, fstart, pos, args, c) == ArgumentList(t, fstart, fstart + 2, [], c)
      decreases |t| - pos
    {
      var step := NextArgument(t, fstart, pos, args, c);
      if step.Finished? {
        return step.result;
      }
      args, pos := step.args, step.pos;
    }
  }

  /** One argument and the `)` or `,` after it. */
  method NextArgument(t: seq<Token>, fstart: nat, pos: nat, args: seq<int>, c: Ctx) returns (s: ArgStep)
    requires c.store.Valid() && fstart + 2 <= pos <= |t|
    ensures s.Finished? ==> s.result == ArgumentList(t, fstart, pos, args, c)
    ensures s.Continue? ==> pos < s.pos <= |t| && |s.args| == |args| + 1
    ensures s.Continue? ==> ArgumentList(t, fstart, pos, args, c) == ArgumentList(t, fstart, s.pos, s.args, c)
  {
    var a := ParseOr(t, pos, c);
    if a.Err? {
      return Finished(Err(a.error));
    }
    var p := pos + a.value.consumed;
    if p >= |t| {
      return Finished(Err(MissingClosingParen));
    }
    if t[p].kind == RParen {
      return Finished(Ok(Args(args + [a.value.value], p - fstart + 1)));
    }
    if t[p].kind != Comma {
      return Finished(Err(ExpectedCommaOrParen));
    }
    return Continue(args + [a.value.value], p + 1);
  }
}
