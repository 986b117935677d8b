/** The line processing of pyasm6502/assembler.py: the gate at the head of
    `process_line` (conditional skipping and macro collection), the scan
    over a line's tokens, and the two-pass loop of `assemble`. Macro calls
    and `!source` hand their lines back instead of re-entering the line
    processor. */
module Assembly {
  import opened Wrappers
  import opened Strings
  import opened Tokens
  import opened Symbols
  import opened Segments
  import opened Evaluator
  import opened Conditionals
  import opened Loops
  import opened Macros
  import opened Assembler
  import opened Directives
  import Opcodes
  import Tokenizer

  /** How a line ends: processed, failed, or handed back as a macro call
      or a `!source` whose lines the caller would process. */
  datatype LineOutcome =
    | Done
    | Failed(error: Error)
    | CallMacro(name: string, arguments: seq<Token>)
    | IncludeSource(arguments: seq<Token>)

  /** The directives `process_line` lets through while skipping (compared
      as written, without lower-casing). */
  predicate IsConditionalLine(t: seq<Token>)
  {
    |t| > 0 && t[0].kind == AcmeDirective && t[0].value in ["!if", "!ifdef", "!ifndef", "!else", "!fi"]
  }

  predicate IsRBraceLine(t: seq<Token>)
  {
    |t| > 0 && t[0].kind == RBrace
  }

  /** Where `process_line` sends a line (assembler.py:537-561). */
  datatype Route = NoTokens | Skipped | Collected | BareLabel | Scanned

  predicate StartsWith(s: string, c: char)
  {
    |s| > 0 && s[0] == c
  }

  function RouteOf(t: seq<Token>, skipping: bool, collecting: bool, mnemonics: set<string>): Route
  {
    if t == [] then NoTokens
    else if skipping && !IsConditionalLine(t) && !IsRBraceLine(t) then Skipped
    else if collecting then Collected
    else if |t| == 1 && t[0].kind == Identifier &&
            (StartsWith(t[0].value, '.') || (Upper(t[0].value) !in mnemonics && !StartsWith(t[0].value, '!')))
    then BareLabel
    else Scanned
  }

  /** While skipping, only the conditional directives and `}` get past the
      gate, and a collected macro body takes every line that does. */
  lemma GateFacts(t: seq<Token>, skipping: bool, collecting: bool, mnemonics: set<string>)
    ensures RouteOf(t, skipping, collecting, mnemonics) == Skipped <==>
      t != [] && skipping && !IsConditionalLine(t) && !IsRBraceLine(t)
    ensures t != [] && (IsConditionalLine(t) || IsRBraceLine(t)) ==>
      RouteOf(t, skipping, collecting, mnemonics) == (if collecting then Collected else Scanned)
    ensures t != [] && !skipping && collecting ==> RouteOf(t, skipping, collecting, mnemonics) == Collected
  {
  }

  /** What the token at `i` starts (the checks of the loop of
      `process_line`, assembler.py:563-679, in their order). */
  datatype StepKind =
    | CloseBrace
    | DefineLabel
    | SetOrigin
    | OriginMissing
    | Assign(at: nat)
    | EquMissing
    | Include
    | Acme
    | TraditionalDir
    | Call
    | AssembleStep
    | UnexpectedStep

  predicate IsNumberKind(k: Kind)
  {
    k in {DecNumber, HexNumber, BinNumber, OctNumber}
  }

  function Step(t: seq<Token>, i: nat): (s: StepKind)
    requires i < |t|
    ensures s.Assign? ==> t[i].kind == Identifier && i + 2 <= s.at <= i + 4
  {
    var k := t[i].kind;
    if k == RBrace then CloseBrace
    else if k == Label then DefineLabel
    else if k == Star && i + 1 < |t| && t[i + 1].kind == Equals then
      (if i + 2 < |t| then SetOrigin else OriginMissing)
    else if k == Identifier && i + 1 < |t| && t[i + 1].kind == Equals then Assign(i + 2)
    else if k == Identifier && i + 3 < |t| && t[i + 1].kind == Plus && IsNumberKind(t[i + 2].kind) && t[i + 3].kind == Equals
    then Assign(i + 4)
    else if k == Identifier && i + 1 < |t| && t[i + 1].kind == Directive && Lower(t[i + 1].value) == ".equ" then
      (if i + 2 < |t| then Assign(i + 2) else EquMissing)
    else if k == AcmeDirective then (if t[i].value == "!source" || t[i].value == "!src" then Include else Acme)
    else if k == Directive then TraditionalDir
    else if k == MacroCall then Call
    else if k == Instruction then AssembleStep
    else UnexpectedStep
  }

  /** Only `}`, labels and ACME directives let the scan go on to later
      tokens; every other step ends the line. */
  predicate Continues(s: StepKind)
  {
    s == CloseBrace || s == DefineLabel || s == Acme
  }

  /** An assignment takes its value from the tokens after `=`: the
      direct form `name = expr`, the flagged form `name + N = expr` and
      `name .equ expr`. */
  lemma AssignForms(t: seq<Token>, i: nat)
    requires i < |t| && Step(t, i).Assign?
    ensures var at := Step(t, i).at;
      (at == i + 2 && t[i + 1].kind == Equals) ||
      (at == i + 4 && t[i + 1].kind == Plus && IsNumberKind(t[i + 2].kind) && t[i + 3].kind == Equals) ||
      (at == i + 2 && t[i + 1].kind == Directive && Lower(t[i + 1].value) == ".equ")
  {
  }

  /** Everything of the assembler and its processors that a line can change. */
  function Snapshot(asm: Assembler6502): (Emitter, Store, Collection, Settings, CondState, map<string, int>,
                                          (seq<ForLoop>, seq<WhileLoop>, seq<DoLoop>), map<string, Macro>, string, map<string, seq<int>>)
    reads asm, asm.segments, asm.conditionals, asm.loops, asm.macros, asm.text
  {
    (asm.EmitterState(), asm.store, asm.Collecting(), asm.CurrentSettings(), asm.conditionals.State(), asm.loops.variables,
     (asm.loops.forLoops, asm.loops.whileLoops, asm.loops.doLoops), asm.macros.macros, asm.text.currentTable, asm.text.customTables)
  }

  datatype StepResult = Continue(next: nat) | Stop(outcome: LineOutcome)

  function LineOf(o: Outcome): LineOutcome
  {
    if o.Fail? then Failed(o.error) else Done
  }

  /** The steps that end the line without touching any state. */
  method ProcessFixedStep(asm: Assembler6502, t: seq<Token>, i: nat) returns (s: StepResult)
    requires i < |t| && Step(t, i) in {OriginMissing, EquMissing, Include, Call, UnexpectedStep}
    ensures Step(t, i) == OriginMissing ==> s == Stop(Failed(ExpectedAddressAfterStar))
    ensures Step(t, i) == EquMissing ==> s == Stop(Failed(ExpectedValueAfterEqu))
    ensures Step(t, i) == Include ==> s == Stop(IncludeSource(t[i + 1..]))
    ensures Step(t, i) == Call ==> s == Stop(CallMacro(t[i].value, t[i + 1..]))
    ensures Step(t, i) == UnexpectedStep ==> s == Stop(Failed(UnexpectedToken(t[i].value)))
  {
    match Step(t, i) {
      case OriginMissing => s := Stop(Failed(ExpectedAddressAfterStar));
      case EquMissing => s := Stop(Failed(ExpectedValueAfterEqu));
      case Include => s := Stop(IncludeSource(t[i + 1..]));
      case Call => s := Stop(CallMacro(t[i].value, t[i + 1..]));
      case UnexpectedStep => s := Stop(Failed(UnexpectedToken(t[i].value)));
    }
  }

  /** What `*= address` and the assignments do: the expression is
      evaluated on the state before the step, then the PC is set or the
      symbol defined; the line ends there, and the output, the settings
      and the macro collection stay as they were. */
  twostate predicate ValueStepEffect(asm: Assembler6502, t: seq<Token>, i: nat, new s: StepResult)
    requires old(asm.Valid()) && i < |t| && (Step(t, i) == SetOrigin || Step(t, i).Assign?)
    reads asm
  {
    var at := if Step(t, i) == SetOrigin then i + 2 else Step(t, i).at;
    var v := Evaluate(t, at, old(asm.Context()));
    s.Stop? &&
    (v.Err? ==> s == Stop(Failed(v.error)) && asm.pc == old(asm.pc) && asm.store == old(asm.store)) &&
    (v.Ok? && Step(t, i) == SetOrigin ==> s == Stop(Done) && asm.pc == v.value.value && asm.store == old(asm.store)) &&
    (v.Ok? && Step(t, i).Assign? ==>
       var d := Define(old(asm.store), t[i].value, v.value.value, false);
       asm.pc == old(asm.pc) &&
       (d.Err? ==> s == Stop(Failed(d.error)) && asm.store == old(asm.store)) &&
       (d.Ok? ==> s == Stop(Done) && asm.store == d.value)) &&
    asm.outputDict == old(asm.outputDict) && asm.CurrentSettings() == old(asm.CurrentSettings()) &&
    asm.Collecting() == old(asm.Collecting())
  }

  /** `*= address` and the assignments (assembler.py:582-623). */
  method ProcessValueStep(asm: Assembler6502, t: seq<Token>, i: nat) returns (s: StepResult)
    requires asm.Valid() && i < |t| && (Step(t, i) == SetOrigin || Step(t, i).Assign?)
    modifies asm
    ensures asm.Valid() && ValueStepEffect(asm, t, i, s)
  {
    var at := if Step(t, i) == SetOrigin then i + 2 else Step(t, i).at;
    var v := Evaluate(t, at, asm.Context());
    if v.Err? {
      return Stop(Failed(v.error));
    }
    if Step(t, i) == SetOrigin {
      asm.pc := v.value.value;
      return Stop(Done);
    }
    var o := asm.DefineSymbol(t[i].value, v.value.value, false);
    return Stop(LineOf(o));
  }

  /** One step of the scan of `process_line` at token `i`. */
  method ProcessStep(asm: Assembler6502, t: seq<Token>, i: nat) returns (s: StepResult)
    requires asm.Valid() && i < |t|
    modifies asm, asm.segments, asm.text, asm.conditionals, asm.loops, asm.macros
    ensures asm.Valid()
    ensures s.Continue? ==> i < s.next && Continues(Step(t, i))
    ensures Step(t, i) in {OriginMissing, EquMissing, Include, Call, UnexpectedStep} ==> Snapshot(asm) == old(Snapshot(asm))
    ensures Step(t, i) == UnexpectedStep ==> s == Stop(Failed(UnexpectedToken(t[i].value)))
    ensures s.Stop? && (s.outcome.CallMacro? || s.outcome.IncludeSource?) ==> Step(t, i) in {Call, Include}
    ensures Step(t, i) == Call ==> s == Stop(CallMacro(t[i].value, t[i + 1..]))
    ensures Step(t, i) == Include ==> s == Stop(IncludeSource(t[i + 1..]))
    ensures Step(t, i) == CloseBrace ==>
      var spec := Conditionals.CloseBrace(old(asm.conditionals.State()));
      (spec.Err? ==> s == Stop(Failed(spec.error))) &&
      (spec.Ok? ==> s == Continue(i + 1) && asm.conditionals.State() == spec.value)
    ensures Step(t, i) == DefineLabel ==>
      var d := Define(old(asm.store), t[i].value, old(asm.pc), false);
      (d.Err? ==> s == Stop(Failed(d.error)) && asm.store == old(asm.store)) &&
      (d.Ok? ==> s == Continue(i + 1) && asm.store == d.value)
    ensures Step(t, i) == AssembleStep ==>
      var spec := Encode(old(asm.cpu), t[i].value, t, i + 1, old(asm.Context()));
      (spec.Ok? && spec.value.Direct? ==>
         s == Stop(Done) && asm.pc == old(asm.pc) + 1 &&
         asm.outputDict == old(asm.outputDict)[old(asm.pc) := spec.value.byte]) &&
      (spec.Ok? && spec.value.Bytes? ==> s == Stop(Done) && asm.EmitterState() == EmitAll(old(asm.EmitterState()), spec.value.values)) &&
      (spec.Err? ==> s == Stop(Failed(spec.error)))
    ensures Continues(Step(t, i)) && s.Stop? ==> s.outcome.Failed?
    ensures Step(t, i) == SetOrigin || Step(t, i).Assign? ==> ValueStepEffect(asm, t, i, s)
    ensures Step(t, i) == Acme ==>
      (s.Continue? || s.outcome.Failed?) && AcmeEffect(asm, t[i].value, t, i + 1, AcmeCount(s, i))
    ensures Step(t, i) == TraditionalDir ==>
      s.Stop? && TraditionalEffect(asm, t[i].value, t, i + 1, LineResult(s.outcome))
  {
    var k := Step(t, i);
    if k in {OriginMissing, EquMissing, Include, Call, UnexpectedStep} {
      s := ProcessFixedStep(asm, t, i);
    } else if k == SetOrigin || k.Assign? {
      s := ProcessValueStep(asm, t, i);
    } else if k == CloseBrace {
      var o := asm.conditionals.ProcessRBraceDirective();
      s := if o.Fail? then Stop(Failed(o.error)) else Continue(i + 1);
    } else if k == DefineLabel {
      var o := asm.DefineSymbol(t[i].value, asm.pc, false);
      s := if o.Fail? then Stop(Failed(o.error)) else Continue(i + 1);
    } else if k == Acme {
      var c := ProcessAcmeDirective(asm, t[i].value, t, i + 1);
      s := if c.Err? then Stop(Failed(c.error)) else Continue(i + 1 + c.value);
      assert AcmeCount(s, i) == c;
    } else if k == TraditionalDir {
      var o := ProcessDirective(asm, t[i].value, t, i + 1);
      s := Stop(LineOf(o));
      assert LineResult(s.outcome) == o;
    } else {
      var o := asm.AssembleInstruction(t[i].value, t, i + 1);
      s := Stop(LineOf(o));
    }
  }

  /** The count of tokens an ACME directive at `i` reports to the scan:
      the distance to the token the scan continues at, or the error that
      stopped the line. */
  function AcmeCount(s: StepResult, i: nat): Result<int>
  {
    match s
    case Continue(next) => Ok(next - (i + 1))
    case Stop(o) => if o.Failed? then Err(o.error) else Ok(0)
  }

  /** The part of a step's contract the scan relies on. */
  method ScanStep(asm: Assembler6502, t: seq<Token>, i: nat) returns (s: StepResult)
    requires asm.Valid() && i < |t|
    modifies asm, asm.segments, asm.text, asm.conditionals, asm.loops, asm.macros
    ensures asm.Valid()
    ensures s.Continue? ==> i < s.next && Continues(Step(t, i))
    ensures Step(t, i) == UnexpectedStep ==> s == Stop(Failed(UnexpectedToken(t[i].value)))
    ensures s.Stop? && (s.outcome.CallMacro? || s.outcome.IncludeSource?) ==> Step(t, i) in {Call, Include}
    ensures Step(t, i) == Call ==> s == Stop(CallMacro(t[i].value, t[i + 1..]))
    ensures Step(t, i) == Include ==> s == Stop(IncludeSource(t[i + 1..]))
    ensures Continues(Step(t, i)) && s.Stop? ==> s.outcome.Failed?
  {
    s := ProcessStep(asm, t, i);
  }

  function Last(s: seq<nat>): nat
    requires s != []
  {
    s[|s| - 1]
  }

  /** The scan of `process_line` (assembler.py:563-679): steps from the
      first token on while they continue. `visited` records the tokens at
      which a step began and `last` what the last of them returned. */
  method ProcessTokens(asm: Assembler6502, t: seq<Token>) returns (r: LineOutcome, ghost visited: seq<nat>, ghost last: StepResult)
    requires asm.Valid()
    modifies asm, asm.segments, asm.text, asm.conditionals, asm.loops, asm.macros
    ensures asm.Valid()
    ensures t == [] <==> visited == []
    ensures t != [] ==> visited[0] == 0
    ensures forall k :: 0 <= k < |visited| ==> visited[k] < |t|
    ensures forall k :: 0 <= k < |visited| - 1 ==> visited[k] < visited[k + 1] && Continues(Step(t, visited[k]))
    ensures visited != [] && Step(t, Last(visited)) == UnexpectedStep ==> r == Failed(UnexpectedToken(t[Last(visited)].value))
    ensures visited != [] && Step(t, Last(visited)) == Call ==> r == CallMacro(t[Last(visited)].value, t[Last(visited) + 1..])
    ensures visited != [] && Step(t, Last(visited)) == Include ==> r == IncludeSource(t[Last(visited) + 1..])
    ensures r.CallMacro? || r.IncludeSource? ==> visited != [] && Step(t, Last(visited)) in {Call, Include}
    ensures visited == [] ==> r == Done
    ensures visited != [] ==> r == (if last.Stop? then last.outcome else Done)
    ensures visited != [] && last.Continue? ==> |t| <= last.next && Continues(Step(t, Last(visited)))
    ensures visited != [] && Continues(Step(t, Last(visited))) && last.Stop? ==> r.Failed?
  {
    var i: nat := 0;
    visited := [];
    r := Done;
    last := Continue(0);
    while i < |t|
      invariant asm.Valid() && ScanSoFar(t, visited, i) && r == Done
      invariant visited != [] ==> last.Continue? && last.next == i
      decreases |t| - i
    {
      var s := ScanStep(asm, t, i);
      if s.Stop? {
        VisitStep(t, visited, i);
        r := s.outcome;
        visited := visited + [i];
        last := s;
        return;
      }
      ContinueScan(t, visited, i, s.next);
      visited := visited + [i];
      i := s.next;
      last := s;
    }
  }

  /** The scan has begun a step at each of `visited`, in increasing order,
      each of them continuing, and now stands at `i`. */
  ghost predicate ScanSoFar(t: seq<Token>, visited: seq<nat>, i: nat)
  {
    (i == 0 <==> visited == []) &&
    (visited != [] ==> visited[0] == 0 && Last(visited) < i) &&
    (forall k :: 0 <= k < |visited| ==> visited[k] < |t|) &&
    (forall k :: 0 <= k < |visited| - 1 ==> visited[k] < visited[k + 1] && Continues(Step(t, visited[k]))) &&
    (visited != [] ==> Continues(Step(t, Last(visited))))
  }

  /** Beginning a step at `i` extends the record of the steps begun. */
  lemma VisitStep(t: seq<Token>, visited: seq<nat>, i: nat)
    requires ScanSoFar(t, visited, i) && i < |t|
    ensures var v := visited + [i];
      v[0] == 0 && Last(v) == i &&
      (forall k :: 0 <= k < |v| ==> v[k] < |t|) &&
      (forall k :: 0 <= k < |v| - 1 ==> v[k] < v[k + 1] && Continues(Step(t, v[k])))
  {
    var v := visited + [i];
    forall k | 0 <= k < |v| - 1
      ensures v[k] < v[k + 1] && Continues(Step(t, v[k]))
    {
      if k < |visited| - 1 {
        assert v[k] == visited[k] && v[k + 1] == visited[k + 1];
      } else {
        assert v[k] == Last(visited) && v[k + 1] == i;
      }
    }
  }

  /** A step at `i` that continues at `next` keeps the invariant of the scan. */
  lemma ContinueScan(t: seq<Token>, visited: seq<nat>, i: nat, next: nat)
    requires ScanSoFar(t, visited, i) && i < |t| && i < next && Continues(Step(t, i))
    ensures ScanSoFar(t, visited + [i], next)
  {
    VisitStep(t, visited, i);
  }

  /** `process_line` (assembler.py:535-679). */
  method ProcessLine(asm: Assembler6502, t: seq<Token>) returns (r: LineOutcome)
    requires asm.Valid()
    modifies asm, asm.segments, asm.text, asm.conditionals, asm.loops, asm.macros
    ensures asm.Valid()
    ensures var route := RouteOf(t, old(asm.conditionals.IsSkipping()), old(asm.collectingMacro), Opcodes.Mnemonics(old(asm.cpu)));
      (route == NoTokens || route == Skipped ==> r == Done && Snapshot(asm) == old(Snapshot(asm))) &&
      (route == Collected ==>
         r == Done && asm.CollectsLine(t) && asm.EmitterState() == old(asm.EmitterState()) && asm.store == old(asm.store) &&
         asm.conditionals.State() == old(asm.conditionals.State())) &&
      (route == BareLabel ==>
         var d := Define(old(asm.store), t[0].value, old(asm.pc), false);
         asm.EmitterState() == old(asm.EmitterState()) &&
         (d.Err? ==> r == Failed(d.error) && asm.store == old(asm.store)) &&
         (d.Ok? ==> r == Done && asm.store == d.value)) &&
      (route == Scanned && Step(t, 0) == Call ==> r == CallMacro(t[0].value, t[1..])) &&
      (route == Scanned && Step(t, 0) == Include ==> r == IncludeSource(t[1..]))
  {
    if t == [] {
      return Done;
    }
    if asm.conditionals.IsSkipping() && !IsConditionalLine(t) && !IsRBraceLine(t) {
      return Done;
    }
    if asm.collectingMacro {
      asm.CollectMacroLine(t);
      return Done;
    }
    if RouteOf(t, false, false, Opcodes.Mnemonics(asm.cpu)) == BareLabel {
      var o := asm.DefineSymbol(t[0].value, asm.pc, false);
      return LineOf(o);
    }
    ghost var visited, last;
    r, visited, last := ProcessTokens(asm, t);
    if Step(t, 0) in {Call, Include} {
      assert |visited| == 1;
    }
  }

  /** What `assemble` makes of a line outcome: macro calls and `!source`
      are not processed here. */
  function LineResult(o: LineOutcome): Outcome
  {
    match o
    case Done => Pass
    case Failed(e) => Fail(e)
    case CallMacro(_, _) => Fail(NotModelled("macro call"))
    case IncludeSource(_) => Fail(NotModelled("!source"))
  }

  /** One pass of `assemble` (assembler.py:690-735): reset, then every
      line tokenized with the current instruction set and processed, then
      the conditional nesting checked. */
  method RunPass(asm: Assembler6502, lines: seq<string>, pass: int) returns (r: Outcome)
    requires asm.Valid()
    modifies asm, asm.segments, asm.text, asm.conditionals, asm.loops, asm.macros
    ensures asm.Valid()
    ensures r.Pass? ==> asm.conditionals.State().stack == []
    ensures lines == [] ==>
      r == Pass && asm.pc == 0 && asm.store == Symbols.BeginPass(old(asm.store), pass) &&
      asm.outputDict == (if pass == 2 then map[] else old(asm.outputDict))
  {
    ghost var st := asm.store;
    ghost var out := asm.outputDict;
    asm.BeginPass(pass);
    for k := 0 to |lines|
      invariant asm.Valid()
      invariant k == 0 ==>
        asm.pc == 0 && asm.store == Symbols.BeginPass(st, pass) && asm.conditionals.State() == Empty() &&
        asm.outputDict == (if pass == 2 then map[] else out)
    {
      asm.currentLine := k + 1;
      var tokens := Tokenizer.Tokenize(lines[k], k + 1, Opcodes.Mnemonics(asm.cpu));
      var o := ProcessLine(asm, tokens);
      if o != Done {
        return LineResult(o);
      }
    }
    r := asm.conditionals.ValidateNesting();
  }

  /** `assemble` (assembler.py:681-742): two passes over the same lines,
      then the output in the selected format. */
  method Assemble(asm: Assembler6502, lines: seq<string>) returns (r: Result<seq<int>>)
    requires asm.Valid()
    modifies asm, asm.segments, asm.text, asm.conditionals, asm.loops, asm.macros
    ensures asm.Valid()
    ensures r.Ok? ==> r.value == Output.OutputBytes(asm.outputFormat, asm.outputDict) && asm.conditionals.State().stack == []
    ensures lines == [] ==> r == Ok([])
  {
    asm.outputDict := map[];
    for pass := 1 to 3
      invariant asm.Valid()
      invariant lines == [] ==> asm.outputDict == map[]
      invariant pass > 1 ==> asm.conditionals.State().stack == []
    {
      var o := RunPass(asm, lines, pass);
      if o.Fail? {
        return Err(o.error);
      }
    }
    var bytes := Output.GenerateOutput(asm.outputFormat, asm.outputDict);
    Output.OutputFormats(asm.outputFormat, asm.outputDict);
    return Ok(bytes);
  }
}
