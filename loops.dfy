/** The loop processor of pyasm6502/package/loops.py: `!set` variables, the
    `!for`/`!while`/`!do` stacks and the iteration schedules with their
    1000-execution ceiling. The body of a loop is an abstract action that
    processes its lines and may change the assembler state, including the
    loop variables. */
module Loops {
  import opened Wrappers
  import opened Bits
  import opened Tokens
  import opened Symbols
  import opened Strings
  import opened Evaluator

  /** `max_iterations` (loops.py:58). */
  const MaxIterations: nat := 1000

  /** Processing the lines of a loop body (`_execute_loop_body`,
      loops.py:299-311), on the assembler state seen by the evaluator. */
  type Body = (seq<string>, Ctx) -> Result<Ctx>

  /** Processing lines keeps the zone index of the symbol store valid. */
  ghost predicate KeepsValid(run: Body)
  {
    forall lines: seq<string>, c: Ctx :: c.store.Valid() && run(lines, c).Ok? ==> run(lines, c).value.store.Valid()
  }

  /** The state after a loop and the number of body executions so far. */
  datatype Run = Run(ctx: Ctx, executions: nat)

  /** `ForLoop` (loops.py:21-32); `iterable` is `iterable_data` when
      `is_iterable` is set. Only a string literal can be iterable, since
      `!set` variables hold integers. */
  datatype ForLoop = ForLoop(
    variable: string, start: int, end: int, step: int, currentValue: int,
    startLine: int, bodyLines: seq<string>, iterable: Option<string>)

  /** `WhileLoop` (loops.py:34-39). */
  datatype WhileLoop = WhileLoop(conditionTokens: seq<Token>, startLine: int, bodyLines: seq<string>)

  datatype DoType = DoWhile | DoUntil

  /** `DoLoop` (loops.py:41-47). */
  datatype DoLoop = DoLoop(startLine: int, bodyLines: seq<string>,
                           conditionTokens: Option<seq<Token>>, loopType: Option<DoType>)

  // ---- the numeric for schedule ----

  /** The condition of the numeric loop (loops.py:243-244). */
  predicate Continues(cur: int, end: int, step: int)
  {
    (step > 0 && cur <= end) || (step < 0 && cur >= end)
  }

  function Distance(cur: int, end: int, step: int): nat
  {
    if step > 0 && cur <= end then end - cur + 1
    else if step < 0 && cur >= end then cur - end + 1
    else 0
  }

  /** The values `start, start+step, ...` for which the body runs. */
  function Schedule(cur: int, end: int, step: int): seq<int>
    decreases Distance(cur, end, step)
  {
    if Continues(cur, end, step) then [cur] + Schedule(cur + step, end, step) else []
  }

  /** The number of values in the schedule, by arithmetic. */
  function ForCount(start: int, end: int, step: int): nat
  {
    if step > 0 && start <= end then (end - start) / step + 1
    else if step < 0 && start >= end then (start - end) / (-step) + 1
    else 0
  }

  lemma DivOneLess(x: int, d: int)
    requires d > 0 && x >= 0
    ensures x >= d ==> x / d == (x - d) / d + 1
    ensures x < d ==> x / d == 0
  {
    if x >= d {
      DivModUnique(x, d, (x - d) / d + 1, (x - d) % d);
    } else {
      DivModUnique(x, d, 0, x);
    }
  }

  /** The schedule has `ForCount` values, the `k`-th being `start + k*step`,
      each within the end bound; a zero step runs nothing. */
  lemma {:induction false} ScheduleShape(cur: int, end: int, step: int)
    ensures var s := Schedule(cur, end, step);
      |s| == ForCount(cur, end, step) &&
      (forall k :: 0 <= k < |s| ==> s[k] == cur + k * step && Continues(s[k], end, step))
    ensures step == 0 ==> Schedule(cur, end, step) == []
    decreases Distance(cur, end, step)
  {
    if Continues(cur, end, step) {
      ScheduleShape(cur + step, end, step);
      var s := Schedule(cur, end, step);
      var rest := Schedule(cur + step, end, step);
      assert s == [cur] + rest;
      if step > 0 {
        DivOneLess(end - cur, step);
      } else {
        DivOneLess(cur - end, -step);
      }
      forall k | 0 <= k < |s|
        ensures s[k] == cur + k * step && Continues(s[k], end, step)
      {
        if k > 0 {
          assert s[k] == rest[k - 1];
          assert cur + k * step == (cur + step) + (k - 1) * step;
        }
      }
    }
  }

  // ---- executions ----

  /** The numeric loop of `_execute_for_loop` (loops.py:240-256): the limit
      is checked before each body execution. */
  function ForExec(name: string, cur: int, end: int, step: int, count: nat, c: Ctx, lines: seq<string>, run: Body): (r: Result<Run>)
    requires count <= MaxIterations
    ensures r.Ok? ==> count <= r.value.executions <= MaxIterations
    decreases MaxIterations - count
  {
    if !Continues(cur, end, step) then Ok(Run(c, count))
    else if count >= MaxIterations then Err(LoopLimitExceeded)
    else
      var b := run(lines, c.(vars := c.vars[name := cur]));
      if b.Err? then Err(b.error)
      else ForExec(name, cur + step, end, step, count + 1, b.value, lines, run)
  }

  /** A loop over given values, as the iterable loop of `_execute_for_loop`
      (loops.py:224-238). */
  function ValuesExec(name: string, values: seq<int>, count: nat, c: Ctx, lines: seq<string>, run: Body): (r: Result<Run>)
    requires count <= MaxIterations
    ensures r.Ok? ==> r.value.executions == count + |values| <= MaxIterations
    decreases |values|
  {
    if values == [] then Ok(Run(c, count))
    else if count >= MaxIterations then Err(LoopLimitExceeded)
    else
      var b := run(lines, c.(vars := c.vars[name := values[0]]));
      if b.Err? then Err(b.error)
      else ValuesExec(name, values[1..], count + 1, b.value, lines, run)
  }

  /** The numeric loop runs its body once per value of its schedule. */
  lemma {:induction false} ForFollowsSchedule(name: string, cur: int, end: int, step: int, count: nat, c: Ctx, lines: seq<string>, run: Body)
    requires count <= MaxIterations
    ensures ForExec(name, cur, end, step, count, c, lines, run) == ValuesExec(name, Schedule(cur, end, step), count, c, lines, run)
    decreases MaxIterations - count
  {
    var s := Schedule(cur, end, step);
    if Continues(cur, end, step) {
      assert s[0] == cur && s[1..] == Schedule(cur + step, end, step);
      if count < MaxIterations {
        var b := run(lines, c.(vars := c.vars[name := cur]));
        if b.Ok? {
          ForFollowsSchedule(name, cur + step, end, step, count + 1, b.value, lines, run);
        }
      }
    }
  }

  /** The contexts handed to the body, in order, until the loop stops. */
  function BodyInputs(name: string, values: seq<int>, count: nat, c: Ctx, lines: seq<string>, run: Body): seq<Ctx>
    decreases |values|
  {
    if values == [] || count >= MaxIterations then []
    else
      var ci := c.(vars := c.vars[name := values[0]]);
      var b := run(lines, ci);
      [ci] + (if b.Err? then [] else BodyInputs(name, values[1..], count + 1, b.value, lines, run))
  }

  /** The `k`-th body execution sees the loop variable set to the `k`-th
      value, and a loop that completes runs the body once per value. */
  lemma {:induction false} LoopVariableFollowsValues(name: string, values: seq<int>, count: nat, c: Ctx, lines: seq<string>, run: Body)
    requires count <= MaxIterations
    ensures var ins := BodyInputs(name, values, count, c, lines, run);
      |ins| <= |values| &&
      (forall k :: 0 <= k < |ins| ==> name in ins[k].vars && ins[k].vars[name] == values[k])
    ensures ValuesExec(name, values, count, c, lines, run).Ok? ==>
      |BodyInputs(name, values, count, c, lines, run)| == |values|
    decreases |values|
  {
    if values != [] && count < MaxIterations {
      var ci := c.(vars := c.vars[name := values[0]]);
      var b := run(lines, ci);
      var ins := BodyInputs(name, values, count, c, lines, run);
      if b.Ok? {
        LoopVariableFollowsValues(name, values[1..], count + 1, b.value, lines, run);
        var rest := BodyInputs(name, values[1..], count + 1, b.value, lines, run);
        assert ins == [ci] + rest;
        forall k | 0 <= k < |ins|
          ensures name in ins[k].vars && ins[k].vars[name] == values[k]
        {
          if k > 0 {
            assert ins[k] == rest[k - 1];
            assert values[1..][k - 1] == values[k];
          }
        }
      } else {
        assert ins == [ci];
      }
    }
  }

  /** More values than the ceiling allows and a body that never fails: the
      loop stops with the safety-limit error. */
  lemma {:induction false} ValuesCeiling(name: string, values: seq<int>, count: nat, c: Ctx, lines: seq<string>, run: Body)
    requires forall l: seq<string>, x: Ctx :: run(l, x).Ok?
    requires count <= MaxIterations < count + |values|
    ensures ValuesExec(name, values, count, c, lines, run) == Err(LoopLimitExceeded)
    decreases |values|
  {
    if count < MaxIterations {
      var b := run(lines, c.(vars := c.vars[name := values[0]]));
      assert b.Ok?;
      ValuesCeiling(name, values[1..], count + 1, b.value, lines, run);
    }
  }

  /** `_execute_while_loop` (loops.py:258-273): the limit is checked, then
      the condition, before each body execution. */
  function WhileExec(cond: seq<Token>, count: nat, c: Ctx, lines: seq<string>, run: Body): (r: Result<Run>)
    requires c.store.Valid() && KeepsValid(run) && count <= MaxIterations
    ensures r.Ok? ==> count <= r.value.executions < MaxIterations
    decreases MaxIterations - count
  {
    if count >= MaxIterations then Err(LoopLimitExceeded)
    else
      var e := Evaluate(cond, 0, c);
      if e.Err? then Err(e.error)
      else if e.value.value == 0 then Ok(Run(c, count))
      else
        var b := run(lines, c);
        if b.Err? then Err(b.error)
        else WhileExec(cond, count + 1, b.value, lines, run)
  }

  /** A `!while` whose condition is 0 at the start runs its body zero times
      and leaves the state unchanged. */
  lemma WhileFalseRunsZero(cond: seq<Token>, c: Ctx, lines: seq<string>, run: Body)
    requires c.store.Valid() && KeepsValid(run)
    requires Evaluate(cond, 0, c).Ok? && Evaluate(cond, 0, c).value.value == 0
    ensures WhileExec(cond, 0, c, lines, run) == Ok(Run(c, 0))
  {
  }

  /** A `!while` whose body leaves the state as it was and whose condition
      holds never stops: the ceiling ends it with an error. */
  lemma {:induction false} WhileTrueHitsCeiling(cond: seq<Token>, count: nat, c: Ctx, lines: seq<string>, run: Body)
    requires c.store.Valid() && KeepsValid(run) && count <= MaxIterations
    requires run(lines, c) == Ok(c)
    requires Evaluate(cond, 0, c).Ok? && Evaluate(cond, 0, c).value.value != 0
    ensures WhileExec(cond, count, c, lines, run) == Err(LoopLimitExceeded)
    decreases MaxIterations - count
  {
    if count < MaxIterations {
      WhileTrueHitsCeiling(cond, count + 1, c, lines, run);
    }
  }

  /** `_execute_do_loop` (loops.py:275-297): the limit is checked, the body
      runs, then the condition decides. */
  function DoExec(cond: seq<Token>, kind: DoType, count: nat, c: Ctx, lines: seq<string>, run: Body): (r: Result<Run>)
    requires c.store.Valid() && KeepsValid(run) && count <= MaxIterations
    ensures r.Ok? ==> count + 1 <= r.value.executions <= MaxIterations
    decreases MaxIterations - count
  {
    if count >= MaxIterations then Err(LoopLimitExceeded)
    else
      var b := run(lines, c);
      if b.Err? then Err(b.error)
      else
        var e := Evaluate(cond, 0, b.value);
        if e.Err? then Err(e.error)
        else if (kind == DoWhile && e.value.value == 0) || (kind == DoUntil && e.value.value != 0) then
          Ok(Run(b.value, count + 1))
        else DoExec(cond, kind, count + 1, b.value, lines, run)
  }

  /** `!do ... !until c` stops after the first body execution when `c` is
      then non-zero; the `while` form stops when it is then zero. */
  lemma DoStopsAfterOneRun(cond: seq<Token>, kind: DoType, c: Ctx, lines: seq<string>, run: Body)
    requires c.store.Valid() && KeepsValid(run) && run(lines, c).Ok?
    requires var e := Evaluate(cond, 0, run(lines, c).value);
      e.Ok? && (if kind == DoUntil then e.value.value != 0 else e.value.value == 0)
    ensures DoExec(cond, kind, 0, c, lines, run) == Ok(Run(run(lines, c).value, 1))
  {
  }

  /** Everything `_execute_for_loop` does for one loop. */
  function ForSpec(f: ForLoop, c: Ctx, run: Body): Result<Run>
  {
    if f.iterable.Some? then ValuesExec(f.variable, Ords(f.iterable.value), 0, c, f.bodyLines, run)
    else ForExec(f.variable, f.start, f.end, f.step, 0, c, f.bodyLines, run)
  }

  // ---- directives ----

  /** Python `value[1:-1]`. */
  function Unquote(v: string): string
  {
    if |v| >= 2 then v[1..|v| - 1] else ""
  }

  /** `process_set_directive` (loops.py:74-86): the name and value to store. */
  function SetDirective(t: seq<Token>, start: nat, c: Ctx): (r: Result<(string, int)>)
    requires c.store.Valid()
    ensures r.Ok? ==>
      start + 2 < |t| && t[start].kind == Identifier && t[start + 1].kind == Equals &&
      r.value.0 == t[start].value && Evaluate(t, start + 2, c).Ok? && r.value.1 == Evaluate(t, start + 2, c).value.value
  {
    if start >= |t| || t[start].kind != Identifier then Err(SetRequiresName)
    else if start + 1 >= |t| || t[start + 1].kind != Equals then Err(SetRequiresEquals)
    else
      var e := Evaluate(t, start + 2, c);
      if e.Err? then Err(e.error) else Ok((t[start].value, e.value.value))
  }

  /** `process_for_directive` (loops.py:88-156): the loop to push. */
  function ForDirective(t: seq<Token>, start: nat, c: Ctx, line: int): (r: Result<ForLoop>)
    requires c.store.Valid()
  {
    if start >= |t| || t[start].kind != Identifier then Err(ForRequiresName)
    else
      var name := t[start].value;
      if start + 1 < |t| && t[start + 1].kind == Identifier && Lower(t[start + 1].value) == "in" then
        if start + 2 >= |t| then Err(ForInRequiresIterable)
        else if t[start + 2].kind == String then
          var s := Unquote(t[start + 2].value);
          Ok(ForLoop(name, 0, |s| - 1, 1, 0, line, [], Some(s)))
        else if t[start + 2].kind == Identifier then
          // a `!set` variable, or the default 0, is an integer, never a string or list
          Err(NotIterable(t[start + 2].value))
        else Err(ForInRequiresStringOrIdentifier)
      else if start + 1 >= |t| || t[start + 1].kind != Comma then Err(ForRequiresCommaAfterName)
      else
        var a := Evaluate(t, start + 2, c);
        if a.Err? then Err(a.error)
        else
          var pos := start + 2 + a.value.consumed;
          if pos >= |t| || t[pos].kind != Comma then Err(ForRequiresCommaAfterStart)
          else
            var b := Evaluate(t, pos + 1, c);
            if b.Err? then Err(b.error)
            else
              var pos2 := pos + 1 + b.value.consumed;
              if pos2 < |t| && t[pos2].kind == Comma then
                var s := Evaluate(t, pos2 + 1, c);
                if s.Err? then Err(s.error)
                else Ok(ForLoop(name, a.value.value, b.value.value, s.value.value, a.value.value, line, [], None))
              else Ok(ForLoop(name, a.value.value, b.value.value, 1, a.value.value, line, [], None))
  }

  /** `!for v in "text"` loops over the character codes of the text, in order. */
  lemma ForInStringLoopsOverOrds(t: seq<Token>, start: nat, c: Ctx, line: int, c0: Ctx, run: Body)
    requires c.store.Valid()
    requires start + 2 < |t| && t[start].kind == Identifier && t[start + 1].kind == Identifier
    requires t[start + 1].value == "in" && t[start + 2].kind == String
    ensures ForDirective(t, start, c, line).Ok?
    ensures var f := ForDirective(t, start, c, line).value;
      f.variable == t[start].value &&
      ForSpec(f, c0, run) == ValuesExec(f.variable, Ords(Unquote(t[start + 2].value)), 0, c0, [], run)
  {
    assert Lower("in") == "in";
  }

  /** The numeric form defaults its step to 1 and its loop variable starts
      at the start value. */
  lemma ForWithoutStep(t: seq<Token>, start: nat, c: Ctx, line: int)
    requires c.store.Valid()
    requires ForDirective(t, start, c, line).Ok? && ForDirective(t, start, c, line).value.iterable.None?
    ensures var f := ForDirective(t, start, c, line).value;
      var a := Evaluate(t, start + 2, c);
      a.Ok? && f.start == a.value.value && f.currentValue == f.start &&
      var pos := start + 2 + a.value.consumed;
      var b := Evaluate(t, pos + 1, c);
      b.Ok? && f.end == b.value.value &&
      (!(pos + 1 + b.value.consumed < |t| && t[pos + 1 + b.value.consumed].kind == Comma) ==> f.step == 1)
  {
    var name := t[start].value;
    assert !(start + 1 < |t| && t[start + 1].kind == Identifier && Lower(t[start + 1].value) == "in");
  }

  /** The loop processor (loops.py:49-58). */
  class LoopProcessor {
    var variables: map<string, int>
    var forLoops: seq<ForLoop>
    var whileLoops: seq<WhileLoop>
    var doLoops: seq<DoLoop>

    constructor()
      ensures variables == map[] && forLoops == [] && whileLoops == [] && doLoops == []
    {
      variables := map[];
      forLoops := [];
      whileLoops := [];
      doLoops := [];
    }

    /** `set_variable` (loops.py:60-62). */
    method SetVariable(name: string, value: int)
      modifies this
      ensures variables == old(variables)[name := value]
      ensures forLoops == old(forLoops) && whileLoops == old(whileLoops) && doLoops == old(doLoops)
    {
      variables := variables[name := value];
    }

    /** `get_variable` (loops.py:64-66): 0 for a name never set. */
    function GetVariable(name: string): int
      reads this
    {
      if name in variables then variables[name] else 0
    }

    /** `is_in_loop` (loops.py:68-72). */
    predicate IsInLoop()
      reads this
    {
      |forLoops| > 0 || |whileLoops| > 0 || |doLoops| > 0
    }

    method ProcessSetDirective(t: seq<Token>, start: nat, c: Ctx) returns (r: Outcome)
      requires c.store.Valid()
      modifies this
      ensures var spec := SetDirective(t, start, c);
        if spec.Err? then r == Fail(spec.error) && variables == old(variables)
        else r == Pass && variables == old(variables)[spec.value.0 := spec.value.1]
      ensures forLoops == old(forLoops) && whileLoops == old(whileLoops) && doLoops == old(doLoops)
    {
      if start >= |t| || t[start].kind != Identifier {
        return Fail(SetRequiresName);
      }
      var name := t[start].value;
      if start + 1 >= |t| || t[start + 1].kind != Equals {
        return Fail(SetRequiresEquals);
      }
      var e := Evaluate(t, start + 2, c);
      if e.Err? {
        return Fail(e.error);
      }
      SetVariable(name, e.value.value);
      return Pass;
    }

    method ProcessForDirective(t: seq<Token>, start: nat, c: Ctx, line: int) returns (r: Result<ForLoop>)
      requires c.store.Valid()
      modifies this
      ensures r == ForDirective(t, start, c, line)
      ensures r.Err? ==> forLoops == old(forLoops)
      ensures r.Ok? ==> forLoops == old(forLoops) + [r.value]
      ensures variables == old(variables) && whileLoops == old(whileLoops) && doLoops == old(doLoops)
    {
      r := ForDirective(t, start, c, line);
      if r.Ok? {
        forLoops := forLoops + [r.value];
      }
    }

    method ProcessWhileDirective(t: seq<Token>, start: nat, line: int) returns (r: Result<WhileLoop>)
      modifies this
      ensures start >= |t| ==> r == Err(WhileRequiresCondition) && whileLoops == old(whileLoops)
      ensures start < |t| ==> r == Ok(WhileLoop(t[start..], line, [])) && whileLoops == old(whileLoops) + [r.value]
      ensures variables == old(variables) && forLoops == old(forLoops) && doLoops == old(doLoops)
    {
      if start >= |t| {
        return Err(WhileRequiresCondition);
      }
      var w := WhileLoop(t[start..], line, []);
      whileLoops := whileLoops + [w];
      return Ok(w);
    }

    method ProcessDoDirective(line: int) returns (d: DoLoop)
      modifies this
      ensures d == DoLoop(line, [], None, None) && doLoops == old(doLoops) + [d]
      ensures variables == old(variables) && forLoops == old(forLoops) && whileLoops == old(whileLoops)
    {
      d := DoLoop(line, [], None, None);
      doLoops := doLoops + [d];
    }

    /** `_execute_for_loop`: `variables` is the evaluator's view of the
        loop variables, so the body starts from it and leaves its own. */
    method ExecuteForLoop(f: ForLoop, c: Ctx, run: Body) returns (r: Result<Ctx>)
      modifies this
      ensures var spec := ForSpec(f, c.(vars := old(variables)), run);
        (spec.Err? ==> r == Err(spec.error)) &&
        (spec.Ok? ==> r == Ok(spec.value.ctx) && variables == spec.value.ctx.vars)
      ensures forLoops == old(forLoops) && whileLoops == old(whileLoops) && doLoops == old(doLoops)
    {
      var cur := c.(vars := variables);
      ghost var c0 := cur;
      var count := 0;
      if f.iterable.Some? {
        var codes := Ords(f.iterable.value);
        var i := 0;
        while i < |codes|
          invariant 0 <= i <= |codes| && count == i && count <= MaxIterations
          invariant cur.vars == variables
          invariant forLoops == old(forLoops) && whileLoops == old(whileLoops) && doLoops == old(doLoops)
          invariant ValuesExec(f.variable, codes[i..], count, cur, f.bodyLines, run) ==
                    ValuesExec(f.variable, codes, 0, c0, f.bodyLines, run)
        {
          assert codes[i..][0] == codes[i] && codes[i..][1..] == codes[i + 1..];
          if count >= MaxIterations {
            return Err(LoopLimitExceeded);
          }
          SetVariable(f.variable, codes[i]);
          var b := run(f.bodyLines, cur.(vars := variables));
          if b.Err? {
            return Err(b.error);
          }
          cur := b.value;
          variables := cur.vars;
          count := count + 1;
          i := i + 1;
        }
        return Ok(cur);
      }
      var value := f.start;
      while Continues(value, f.end, f.step)
        invariant count <= MaxIterations
        invariant cur.vars == variables
        invariant forLoops == old(forLoops) && whileLoops == old(whileLoops) && doLoops == old(doLoops)
        invariant ForExec(f.variable, value, f.end, f.step, count, cur, f.bodyLines, run) ==
                  ForExec(f.variable, f.start, f.end, f.step, 0, c0, f.bodyLines, run)
        decreases MaxIterations - count
      {
        if count >= MaxIterations {
          return Err(LoopLimitExceeded);
        }
        SetVariable(f.variable, value);
        var b := run(f.bodyLines, cur.(vars := variables));
        if b.Err? {
          return Err(b.error);
        }
        cur := b.value;
        variables := cur.vars;
        value := value + f.step;
        count := count + 1;
      }
      return Ok(cur);
    }

    /** `_execute_while_loop`. */
    method ExecuteWhileLoop(w: WhileLoop, c: Ctx, run: Body) returns (r: Result<Ctx>)
      requires c.store.Valid() && KeepsValid(run)
      modifies this
      ensures var spec := WhileExec(w.conditionTokens, 0, c.(vars := old(variables)), w.bodyLines, run);
        (spec.Err? ==> r == Err(spec.error)) &&
        (spec.Ok? ==> r == Ok(spec.value.ctx) && variables == spec.value.ctx.vars)
      ensures forLoops == old(forLoops) && whileLoops == old(whileLoops) && doLoops == old(doLoops)
    {
      var cur := c.(vars := variables);
      ghost var c0 := cur;
      var count := 0;
      while true
        invariant count <= MaxIterations && cur.store.Valid()
        invariant cur.vars == variables
        invariant forLoops == old(forLoops) && whileLoops == old(whileLoops) && doLoops == old(doLoops)
        invariant WhileExec(w.conditionTokens, count, cur, w.bodyLines, run) ==
                  WhileExec(w.conditionTokens, 0, c0, w.bodyLines, run)
        decreases MaxIterations - count
      {
        if count >= MaxIterations {
          return Err(LoopLimitExceeded);
        }
        var e := Evaluate(w.conditionTokens, 0, cur);
        if e.Err? {
          return Err(e.error);
        }
        if e.value.value == 0 {
          return Ok(cur);
        }
        var b := run(w.bodyLines, cur);
        if b.Err? {
          return Err(b.error);
        }
        cur := b.value;
        variables := cur.vars;
        count := count + 1;
      }
    }

    /** `_execute_do_loop`, for a loop whose condition and form are set. */
    method ExecuteDoLoop(cond: seq<Token>, kind: DoType, lines: seq<string>, c: Ctx, run: Body) returns (r: Result<Ctx>)
      requires c.store.Valid() && KeepsValid(run)
      modifies this
      ensures var spec := DoExec(cond, kind, 0, c.(vars := old(variables)), lines, run);
        (spec.Err? ==> r == Err(spec.error)) &&
        (spec.Ok? ==> r == Ok(spec.value.ctx) && variables == spec.value.ctx.vars)
      ensures forLoops == old(forLoops) && whileLoops == old(whileLoops) && doLoops == old(doLoops)
    {
      var cur := c.(vars := variables);
      ghost var c0 := cur;
      var count := 0;
      while true
        invariant count <= MaxIterations && cur.store.Valid()
        invariant cur.vars == variables
        invariant forLoops == old(forLoops) && whileLoops == old(whileLoops) && doLoops == old(doLoops)
        invariant DoExec(cond, kind, count, cur, lines, run) == DoExec(cond, kind, 0, c0, lines, run)
        decreases MaxIterations - count
      {
        if count >= MaxIterations {
          return Err(LoopLimitExceeded);
        }
        var b := run(lines, cur);
        if b.Err? {
          return Err(b.error);
        }
        cur := b.value;
        variables := cur.vars;
        count := count + 1;
        var e := Evaluate(cond, 0, cur);
        if e.Err? {
          return Err(e.error);
        }
        if kind == DoWhile && e.value.value == 0 {
          return Ok(cur);
        }
        if kind == DoUntil && e.value.value != 0 {
          return Ok(cur);
        }
      }
    }

    /** `process_until_directive` (`DoUntil`) and `process_while_end_directive`
        (`DoWhile`), loops.py:175-205: the innermost `!do` gets its condition
        and form, runs, and is popped once it completes. */
    method ProcessDoEnd(kind: DoType, t: seq<Token>, start: nat, c: Ctx, run: Body) returns (r: Result<Ctx>)
      requires c.store.Valid() && KeepsValid(run)
      modifies this
      ensures old(doLoops) == [] ==> r == Err(if kind == DoUntil then UntilWithoutDo else WhileWithoutDo) && doLoops == old(doLoops)
      ensures old(doLoops) != [] && start >= |t| ==>
        r == Err(if kind == DoUntil then UntilRequiresCondition else WhileRequiresCondition) && doLoops == old(doLoops)
      ensures old(doLoops) != [] && start < |t| ==>
        var top := old(doLoops)[|old(doLoops)| - 1];
        var spec := DoExec(t[start..], kind, 0, c.(vars := old(variables)), top.bodyLines, run);
        (spec.Err? ==>
           r == Err(spec.error) &&
           doLoops == old(doLoops)[..|old(doLoops)| - 1] + [top.(conditionTokens := Some(t[start..]), loopType := Some(kind))]) &&
        (spec.Ok? ==>
           r == Ok(spec.value.ctx) && variables == spec.value.ctx.vars &&
           doLoops == old(doLoops)[..|old(doLoops)| - 1])
      ensures forLoops == old(forLoops) && whileLoops == old(whileLoops)
    {
      if doLoops == [] {
        return Err(if kind == DoUntil then UntilWithoutDo else WhileWithoutDo);
      }
      if start >= |t| {
        return Err(if kind == DoUntil then UntilRequiresCondition else WhileRequiresCondition);
      }
      var n := |doLoops|;
      var top := doLoops[n - 1].(conditionTokens := Some(t[start..]), loopType := Some(kind));
      doLoops := doLoops[..n - 1] + [top];
      r := ExecuteDoLoop(t[start..], kind, top.bodyLines, c, run);
      if r.Ok? {
        doLoops := doLoops[..n - 1];
      }
    }

    /** `process_od_directive` (loops.py:207-218): the innermost for-loop if
        any, else the innermost while-loop, runs and is popped once it
        completes. */
    method ProcessOdDirective(c: Ctx, run: Body) returns (r: Result<Ctx>)
      requires c.store.Valid() && KeepsValid(run)
      modifies this
      ensures old(forLoops) == [] && old(whileLoops) == [] ==> r == Err(OdWithoutLoop)
      ensures old(forLoops) != [] ==>
        var spec := ForSpec(old(forLoops)[|old(forLoops)| - 1], c.(vars := old(variables)), run);
        (spec.Err? ==> r == Err(spec.error) && forLoops == old(forLoops)) &&
        (spec.Ok? ==>
           r == Ok(spec.value.ctx) && variables == spec.value.ctx.vars &&
           forLoops == old(forLoops)[..|old(forLoops)| - 1]) &&
        whileLoops == old(whileLoops)
      ensures old(forLoops) == [] && old(whileLoops) != [] ==>
        var w := old(whileLoops)[|old(whileLoops)| - 1];
        var spec := WhileExec(w.conditionTokens, 0, c.(vars := old(variables)), w.bodyLines, run);
        (spec.Err? ==> r == Err(spec.error) && whileLoops == old(whileLoops)) &&
        (spec.Ok? ==>
           r == Ok(spec.value.ctx) && variables == spec.value.ctx.vars &&
           whileLoops == old(whileLoops)[..|old(whileLoops)| - 1]) &&
        forLoops == old(forLoops)
      ensures doLoops == old(doLoops)
    {
      if forLoops != [] {
        var n := |forLoops|;
        r := ExecuteForLoop(forLoops[n - 1], c, run);
        if r.Ok? {
          forLoops := forLoops[..n - 1];
        }
      } else if whileLoops != [] {
        var n := |whileLoops|;
        r := ExecuteWhileLoop(whileLoops[n - 1], c, run);
        if r.Ok? {
          whileLoops := whileLoops[..n - 1];
        }
      } else {
        r := Err(OdWithoutLoop);
      }
    }

    /** `reset` (loops.py:333-339). */
    method Reset()
      modifies this
      ensures variables == map[] && forLoops == [] && whileLoops == [] && doLoops == []
    {
      variables := map[];
      forLoops := [];
      whileLoops := [];
      doLoops := [];
    }
  }
}
