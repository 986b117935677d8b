/** Conditional assembly: the `!if`/`!ifdef`/`!ifndef`/`!else`/`!fi` block
    stack and the `skip_level` counter of
    pyasm6502/package/conditionals.py, with brace-style blocks closed by `}`. */
module Conditionals {
  import opened Wrappers
  import opened Tokens
  import opened Symbols
  import opened Evaluator

  datatype CondType = IfBlock | IfdefBlock | IfndefBlock

  /** The truth value of an `!if`, or the symbol name of an `!ifdef`/`!ifndef`. */
  datatype Condition = Truth(holds: bool) | SymbolName(name: string)

  /** `ConditionalBlock` (conditionals.py:14-24). Its `end_line` is only
      written on a block already removed from the stack, so it is not kept. */
  datatype Block = Block(
    condType: CondType,
    condition: Condition,
    startLine: int,
    hasElse: bool,
    elseLine: Option<int>,
    isActive: bool,
    usesBraces: bool)

  /** The processor's two fields: the block stack (innermost last) and
      `skip_level`. */
  datatype CondState = CondState(stack: seq<Block>, skip: nat)

  /** What an opening directive returns besides the new state: whether the
      block is assembled, and how many tokens it consumed. */
  datatype Opened = Opened(state: CondState, active: bool, consumed: nat)

  function Empty(): CondState
  {
    CondState([], 0)
  }

  predicate Skipping(s: CondState)
  {
    s.skip > 0
  }

  // ---- the invariant ----

  /** The index of the outermost inactive block, or the depth if every
      block is active. */
  function FirstInactive(stack: seq<Block>): (f: nat)
    ensures f <= |stack|
    ensures forall i :: 0 <= i < f ==> stack[i].isActive
    ensures f < |stack| ==> !stack[f].isActive
  {
    if stack == [] then 0
    else if !stack[0].isActive then 0
    else 1 + FirstInactive(stack[1..])
  }

  /** `skip_level` counts the blocks from the outermost inactive one to the
      top of the stack, and all of those blocks are inactive. */
  predicate Consistent(s: CondState)
  {
    var f := FirstInactive(s.stack);
    s.skip == |s.stack| - f &&
    (forall i :: f <= i < |s.stack| ==> !s.stack[i].isActive)
  }

  lemma {:induction false} FirstInactiveAppend(stack: seq<Block>, b: Block)
    ensures FirstInactive(stack + [b]) ==
      (if FirstInactive(stack) < |stack| then FirstInactive(stack)
       else if b.isActive then |stack| + 1 else |stack|)
    decreases |stack|
  {
    if stack == [] {
      assert [] + [b] == [b];
      assert [b][1..] == [];
    } else {
      assert (stack + [b])[0] == stack[0];
      assert (stack + [b])[1..] == stack[1..] + [b];
      if stack[0].isActive {
        FirstInactiveAppend(stack[1..], b);
      }
    }
  }

  lemma FirstInactiveOfPrefix(stack: seq<Block>)
    requires stack != []
    ensures var pre := stack[..|stack| - 1];
      FirstInactive(pre) == (if FirstInactive(stack) == |stack| then |stack| - 1
                             else if FirstInactive(stack) == |stack| - 1 then |stack| - 1
                             else FirstInactive(stack))
  {
    var pre := stack[..|stack| - 1];
    assert stack == pre + [stack[|stack| - 1]];
    FirstInactiveAppend(pre, stack[|stack| - 1]);
  }

  /** Under the invariant, skipping happens exactly when some open block is
      inactive, and `skip_level` never exceeds the nesting depth. */
  lemma SkippingIffInactiveBlock(s: CondState)
    requires Consistent(s)
    ensures s.skip <= |s.stack|
    ensures Skipping(s) <==> exists i :: 0 <= i < |s.stack| && !s.stack[i].isActive
    ensures !Skipping(s) <==> forall i :: 0 <= i < |s.stack| ==> s.stack[i].isActive
  {
    var f := FirstInactive(s.stack);
    if f < |s.stack| {
      assert !s.stack[f].isActive;
    }
  }

  // ---- the transitions ----

  /** Pushing a block (conditionals.py:63-77): while skipping, an inactive
      block and one more skip level whatever the condition; otherwise the
      block is active exactly when the condition holds, and a false
      condition starts skipping at level 1. */
  function Open(s: CondState, k: CondType, cond: Condition, line: int, holds: bool, braces: bool): (r: Opened)
  {
    if Skipping(s) then
      Opened(CondState(s.stack + [Block(k, cond, line, false, None, false, braces)], s.skip + 1), false, 0)
    else
      Opened(CondState(s.stack + [Block(k, cond, line, false, None, holds, braces)], if holds then s.skip else 1), holds, 0)
  }

  /** `next_token_idx < len(tokens) and tokens[next_token_idx].type == 'LBRACE'`. */
  predicate BraceAt(t: seq<Token>, pos: nat)
  {
    pos < |t| && t[pos].kind == LBrace
  }

  /** `process_if_directive` (conditionals.py:41-78). */
  function IfDirective(s: CondState, t: seq<Token>, start: nat, c: Ctx, line: int): (r: Result<Opened>)
    requires c.store.Valid()
  {
    if start >= |t| then Err(IfRequiresCondition)
    else
      var e := Evaluate(t, start, c);
      if e.Err? then Err(e.error)
      else
        var braces := BraceAt(t, start + e.value.consumed);
        var holds := e.value.value != 0;
        var o := Open(s, IfBlock, Truth(holds), line, holds, braces);
        Ok(o.(consumed := e.value.consumed + (if braces then 1 else 0)))
  }

  /** `_is_symbol_defined` (conditionals.py:229-244): a global, a local of
      the current zone or a cheap local. */
  predicate IsSymbolDefined(st: Store, name: string)
    requires st.Valid()
  {
    name in st.globals || name in st.zones[st.current].locals || name in st.cheap
  }

  /** `process_ifdef_directive` and, with `negate`, `process_ifndef_directive`
      (conditionals.py:80-157). */
  function IfdefDirective(s: CondState, t: seq<Token>, start: nat, st: Store, line: int, negate: bool): (r: Result<Opened>)
    requires st.Valid()
  {
    if start >= |t| || t[start].kind != Identifier then
      Err(if negate then IfndefRequiresSymbol else IfdefRequiresSymbol)
    else
      var name := t[start].value;
      var braces := BraceAt(t, start + 1);
      var holds := if negate then !IsSymbolDefined(st, name) else IsSymbolDefined(st, name);
      var o := Open(s, if negate then IfndefBlock else IfdefBlock, SymbolName(name), line, holds, braces);
      Ok(o.(consumed := 1 + (if braces then 1 else 0)))
  }

  /** `process_else_directive` (conditionals.py:159-190): the new state and
      whether the else branch is assembled. Only a block at depth 1
      switches; a nested `!else` changes nothing but the block's flags. */
  function Else(s: CondState, line: int): (r: Result<(CondState, bool)>)
  {
    if s.stack == [] then Err(ElseWithoutIf)
    else
      var top := s.stack[|s.stack| - 1];
      if top.usesBraces then Err(ElseInBraceBlock)
      else if top.hasElse then Err(MultipleElse)
      else
        var marked := top.(hasElse := true, elseLine := Some(line));
        var rest := s.stack[..|s.stack| - 1];
        if |s.stack| == 1 && s.skip == 1 then Ok((CondState(rest + [marked.(isActive := true)], 0), true))
        else if |s.stack| == 1 && s.skip == 0 then Ok((CondState(rest + [marked.(isActive := false)], 1), false))
        else Ok((CondState(rest + [marked], s.skip), marked.isActive))
  }

  /** Popping the top block (conditionals.py:202-211, 218-227): leaving the
      outermost block stops skipping; otherwise a positive skip level drops
      by one. */
  function Pop(s: CondState): (r: CondState)
    requires s.stack != []
  {
    var rest := s.stack[..|s.stack| - 1];
    CondState(rest, if rest == [] then 0 else if s.skip > 0 then s.skip - 1 else s.skip)
  }

  /** `process_fi_directive` (conditionals.py:192-211). */
  function Fi(s: CondState): (r: Result<CondState>)
  {
    if s.stack == [] then Err(FiWithoutIf)
    else if s.stack[|s.stack| - 1].usesBraces then Err(FiClosesBraceBlock)
    else Ok(Pop(s))
  }

  /** `process_rbrace_directive` (conditionals.py:213-227). */
  function CloseBrace(s: CondState): (r: Result<CondState>)
  {
    if s.stack == [] || !s.stack[|s.stack| - 1].usesBraces then Err(UnexpectedRBrace)
    else Ok(Pop(s))
  }

  /** `validate_nesting` (conditionals.py:246-253). */
  function NestingResult(s: CondState): (r: Outcome)
    ensures r.Fail? <==> s.stack != []
    ensures r.Fail? ==> r.error == UnclosedConditional(s.stack[|s.stack| - 1].startLine)
  {
    if s.stack != [] then Fail(UnclosedConditional(s.stack[|s.stack| - 1].startLine)) else Pass
  }

  // ---- the invariant is preserved ----

  lemma OpenKeepsConsistent(s: CondState, k: CondType, cond: Condition, line: int, holds: bool, braces: bool)
    requires Consistent(s)
    ensures var r := Open(s, k, cond, line, holds, braces);
      Consistent(r.state) && |r.state.stack| == |s.stack| + 1 &&
      r.state.stack[..|s.stack|] == s.stack &&
      (Skipping(r.state) <==> Skipping(s) || !holds) &&
      (r.active <==> !Skipping(r.state))
  {
    var r := Open(s, k, cond, line, holds, braces);
    var b := r.state.stack[|s.stack|];
    assert r.state.stack == s.stack + [b];
    FirstInactiveAppend(s.stack, b);
    SkippingIffInactiveBlock(s);
  }

  lemma PopKeepsConsistent(s: CondState)
    requires Consistent(s) && s.stack != []
    ensures Consistent(Pop(s)) && Pop(s).stack == s.stack[..|s.stack| - 1]
  {
    FirstInactiveOfPrefix(s.stack);
  }

  lemma ElseKeepsConsistent(s: CondState, line: int)
    requires Consistent(s) && Else(s, line).Ok?
    ensures Consistent(Else(s, line).value.0)
    ensures |Else(s, line).value.0.stack| == |s.stack|
  {
    var rest := s.stack[..|s.stack| - 1];
    var r := Else(s, line).value.0;
    var b := r.stack[|rest|];
    assert r.stack == rest + [b];
    assert s.stack == rest + [s.stack[|rest|]];
    FirstInactiveAppend(rest, b);
    FirstInactiveAppend(rest, s.stack[|rest|]);
  }

  lemma FiKeepsConsistent(s: CondState)
    requires Consistent(s) && Fi(s).Ok?
    ensures Consistent(Fi(s).value)
  {
    PopKeepsConsistent(s);
  }

  lemma CloseBraceKeepsConsistent(s: CondState)
    requires Consistent(s) && CloseBrace(s).Ok?
    ensures Consistent(CloseBrace(s).value)
  {
    PopKeepsConsistent(s);
  }

  // ---- properties of whole blocks ----

  /** A block opened and closed again leaves the state as it was, whether
      it is closed by `!fi` or, for a brace block, by `}`. */
  lemma OpenThenCloseRestores(s: CondState, k: CondType, cond: Condition, line: int, holds: bool, braces: bool)
    requires Consistent(s)
    ensures var o := Open(s, k, cond, line, holds, braces).state;
      (if braces then CloseBrace(o) else Fi(o)) == Ok(s)
  {
    var o := Open(s, k, cond, line, holds, braces).state;
    assert o.stack[..|o.stack| - 1] == s.stack;
    SkippingIffInactiveBlock(s);
  }

  /** `!if c` ... `!else` ... `!fi` at the top level: the if branch is
      assembled exactly when `c` holds, the else branch exactly when it
      does not, and afterwards nothing is skipped and no block is open. */
  lemma TopLevelIfElseFi(holds: bool, k: CondType, cond: Condition, line1: int, line2: int)
    ensures var o := Open(Empty(), k, cond, line1, holds, false);
      o.active == holds && (Skipping(o.state) <==> !holds) &&
      Else(o.state, line2).Ok? &&
      var e := Else(o.state, line2).value;
      e.1 == !holds && (Skipping(e.0) <==> holds) &&
      Fi(e.0) == Ok(Empty())
  {
    var o := Open(Empty(), k, cond, line1, holds, false);
    assert |o.state.stack| == 1;
    var e := Else(o.state, line2).value;
    assert e.0.stack[..0] == [];
  }

  /** Inside an enclosing block a `!else` never switches: a false inner
      `!if` under an active outer block keeps skipping through its else
      branch until `!fi`. */
  lemma NestedElseKeepsSkipping(s: CondState, k: CondType, cond: Condition, line1: int, line2: int)
    requires Consistent(s) && s.stack != [] && !Skipping(s)
    ensures var o := Open(s, k, cond, line1, false, false);
      Skipping(o.state) && Else(o.state, line2).Ok? &&
      Else(o.state, line2).value.0.skip == 1 && !Else(o.state, line2).value.1
  {
  }

  /** A brace block cannot take `!else` nor be closed by `!fi`, and a
      `!fi` block cannot be closed by `}`. */
  lemma BraceBlocksRejectElseAndFi(s: CondState, k: CondType, cond: Condition, line: int, holds: bool)
    ensures var b := Open(s, k, cond, line, holds, true).state;
      Else(b, line) == Err(ElseInBraceBlock) && Fi(b) == Err(FiClosesBraceBlock)
    ensures CloseBrace(Open(s, k, cond, line, holds, false).state) == Err(UnexpectedRBrace)
  {
  }

  /** A second `!else` in one block is rejected. */
  lemma SecondElseRejected(s: CondState, line1: int, line2: int)
    requires Else(s, line1).Ok?
    ensures Else(Else(s, line1).value.0, line2) == Err(MultipleElse)
  {
  }

  /** `!if` consumes the condition's tokens plus an optional `{`, and makes
      the block a brace block exactly when that `{` is there. */
  lemma IfConsumesConditionAndBrace(s: CondState, t: seq<Token>, start: nat, c: Ctx, line: int)
    requires c.store.Valid() && IfDirective(s, t, start, c, line).Ok?
    ensures var e := Evaluate(t, start, c);
      var r := IfDirective(s, t, start, c, line).value;
      e.Ok? && r.state.stack[|r.state.stack| - 1].usesBraces == BraceAt(t, start + e.value.consumed) &&
      r.consumed == e.value.consumed + (if BraceAt(t, start + e.value.consumed) then 1 else 0) &&
      r.state.stack[|r.state.stack| - 1].condition == Truth(e.value.value != 0) &&
      (Consistent(s) && !Skipping(s) ==> (r.active <==> e.value.value != 0))
  {
  }

  /** `!ifdef name` and `!ifndef name` assemble complementary branches. */
  lemma IfdefIfndefComplementary(s: CondState, t: seq<Token>, start: nat, st: Store, line: int)
    requires st.Valid() && !Skipping(s)
    requires start < |t| && t[start].kind == Identifier
    ensures var d := IfdefDirective(s, t, start, st, line, false);
      var n := IfdefDirective(s, t, start, st, line, true);
      d.Ok? && n.Ok? && d.value.active == IsSymbolDefined(st, t[start].value) &&
      n.value.active == !d.value.active && d.value.consumed == n.value.consumed
  {
  }

  /** The processor object (conditionals.py:26-31). */
  class ConditionalProcessor {
    var stack: seq<Block>
    var skipLevel: nat

    function State(): CondState
      reads this
    {
      CondState(stack, skipLevel)
    }

    constructor()
      ensures State() == Empty()
    {
      stack := [];
      skipLevel := 0;
    }

    /** `is_skipping` (conditionals.py:33-35). */
    function IsSkipping(): bool
      reads this
    {
      skipLevel > 0
    }

    /** `get_current_depth` (conditionals.py:37-39). */
    function GetCurrentDepth(): nat
      reads this
    {
      |stack|
    }

    method Push(b: Block, skip: nat)
      modifies this
      ensures State() == CondState(old(stack) + [b], skip)
    {
      stack := stack + [b];
      skipLevel := skip;
    }

    /** The block pushed by an opening directive, following conditionals.py:63-77. */
    method OpenBlock(k: CondType, cond: Condition, line: int, holds: bool, braces: bool) returns (active: bool)
      modifies this
      ensures State() == Open(old(State()), k, cond, line, holds, braces).state
      ensures active == Open(old(State()), k, cond, line, holds, braces).active
    {
      var block := Block(k, cond, line, false, None, false, braces);
      if IsSkipping() {
        Push(block, skipLevel + 1);
        active := false;
      } else {
        block := block.(isActive := holds);
        Push(block, if holds then skipLevel else 1);
        active := holds;
      }
    }

    method ProcessIfDirective(t: seq<Token>, start: nat, c: Ctx, line: int) returns (r: Result<(bool, nat)>)
      requires c.store.Valid()
      modifies this
      ensures var spec := IfDirective(old(State()), t, start, c, line);
        if spec.Err? then r == Err(spec.error) && State() == old(State())
        else r == Ok((spec.value.active, spec.value.consumed)) && State() == spec.value.state
    {
      if start >= |t| {
        return Err(IfRequiresCondition);
      }
      var e := Evaluate(t, start, c);
      if e.Err? {
        return Err(e.error);
      }
      var consumed := e.value.consumed;
      var braces := false;
      var braceConsumed := 0;
      var next := start + consumed;
      if next < |t| && t[next].kind == LBrace {
        braces := true;
        braceConsumed := 1;
      }
      var holds := e.value.value != 0;
      var active := OpenBlock(IfBlock, Truth(holds), line, holds, braces);
      return Ok((active, consumed + braceConsumed));
    }

    method ProcessIfdefDirective(t: seq<Token>, start: nat, st: Store, line: int, negate: bool) returns (r: Result<(bool, nat)>)
      requires st.Valid()
      modifies this
      ensures var spec := IfdefDirective(old(State()), t, start, st, line, negate);
        if spec.Err? then r == Err(spec.error) && State() == old(State())
        else r == Ok((spec.value.active, spec.value.consumed)) && State() == spec.value.state
    {
      if start >= |t| || t[start].kind != Identifier {
        return Err(if negate then IfndefRequiresSymbol else IfdefRequiresSymbol);
      }
      var name := t[start].value;
      var braces := false;
      var braceConsumed := 0;
      if start + 1 < |t| && t[start + 1].kind == LBrace {
        braces := true;
        braceConsumed := 1;
      }
      var defined := name in st.globals || name in st.zones[st.current].locals || name in st.cheap;
      var holds := if negate then !defined else defined;
      var active := OpenBlock(if negate then IfndefBlock else IfdefBlock, SymbolName(name), line, holds, braces);
      return Ok((active, 1 + braceConsumed));
    }

    method ProcessElseDirective(line: int) returns (r: Result<bool>)
      modifies this
      ensures var spec := Else(old(State()), line);
        if spec.Err? then r == Err(spec.error) && State() == old(State())
        else r == Ok(spec.value.1) && State() == spec.value.0
    {
      if stack == [] {
        return Err(ElseWithoutIf);
      }
      var top := stack[|stack| - 1];
      if top.usesBraces {
        return Err(ElseInBraceBlock);
      }
      if top.hasElse {
        return Err(MultipleElse);
      }
      top := top.(hasElse := true, elseLine := Some(line));
      if |stack| == 1 {
        if skipLevel == 1 {
          top := top.(isActive := true);
          skipLevel := 0;
        } else if skipLevel == 0 {
          top := top.(isActive := false);
          skipLevel := 1;
        }
      }
      stack := stack[..|stack| - 1] + [top];
      return Ok(top.isActive);
    }

    method PopBlock()
      requires stack != []
      modifies this
      ensures State() == Pop(old(State()))
    {
      stack := stack[..|stack| - 1];
      if |stack| == 0 {
        skipLevel := 0;
      } else if skipLevel > 0 {
        skipLevel := skipLevel - 1;
      }
    }

    method ProcessFiDirective() returns (r: Outcome)
      modifies this
      ensures var spec := Fi(old(State()));
        if spec.Err? then r == Fail(spec.error) && State() == old(State())
        else r == Pass && State() == spec.value
    {
      if stack == [] {
        return Fail(FiWithoutIf);
      }
      if stack[|stack| - 1].usesBraces {
        return Fail(FiClosesBraceBlock);
      }
      PopBlock();
      return Pass;
    }

    method ProcessRBraceDirective() returns (r: Outcome)
      modifies this
      ensures var spec := CloseBrace(old(State()));
        if spec.Err? then r == Fail(spec.error) && State() == old(State())
        else r == Pass && State() == spec.value
    {
      if stack == [] || !stack[|stack| - 1].usesBraces {
        return Fail(UnexpectedRBrace);
      }
      PopBlock();
      return Pass;
    }

    method ValidateNesting() returns (r: Outcome)
      ensures r == NestingResult(State())
    {
      if stack != [] {
        return Fail(UnclosedConditional(stack[|stack| - 1].startLine));
      }
      return Pass;
    }

    /** `reset` (conditionals.py:255-258). */
    method Reset()
      modifies this
      ensures State() == Empty()
    {
      stack := [];
      skipLevel := 0;
    }
  }
}
