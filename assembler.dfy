/** The assembler object of pyasm6502/assembler.py: instruction encoding,
    byte emission, multi-line macro collection and the per-pass reset.
    The pure parts (the choice of addressing mode, the bytes of an
    instruction, the count of conditionals a macro body leaves open) are
    functions; the methods of `Assembler6502` are proved against them. */
module Assembler {
  import opened Wrappers
  import opened Bits
  import opened Memory
  import opened Strings
  import opened Tokens
  import opened Numbers
  import opened Symbols
  import opened Opcodes
  import opened Evaluator
  import opened Segments
  import opened Conditionals
  import opened Loops
  import opened Macros
  import opened TextConv
  import Output

  // ---- addressing modes (assembler.py:226-355) ----

  /** The operand `determine_addressing_mode` hands back: the accumulator
      `'A'`, a number, or the zero-page address and branch target of
      `BBR`/`BBS`. Only `ZP_REL` decisions carry a pair. */
  datatype Operand = Register | Num(v: int) | ZpRel(zp: int, target: int)

  /** A table mode with its operand and the operand tokens consumed, or
      the single byte that `TOP` and `DOP` stand for without an operand. */
  datatype Decision = ImpliedSingle(byte: nat) | Addressed(mode: Mode, operand: Operand, consumed: nat)

  /** The numeric operand, as `operand & 0xFF` and `emit_word` see it. */
  function ValueOf(op: Operand): int
  {
    match op
    case Num(v) => v
    case ZpRel(zp, _) => zp
    case Register => 0
  }

  function TargetOf(op: Operand): int
  {
    if op.ZpRel? then op.target else 0
  }

  /** An instruction without operand tokens (assembler.py:228-241). */
  function NoOperandMode(cpu: Cpu, m: string): Decision
  {
    if ACC in Instructions(cpu, m) then Addressed(ACC, Register, 0)
    else if m == "TOP" then ImpliedSingle(0x0C)
    else if m == "DOP" then ImpliedSingle(0x80)
    else Addressed(IMP, Num(0), 0)
  }

  /** A token that names a register regardless of case. */
  predicate RegisterAt(t: seq<Token>, pos: nat, reg: string)
  {
    pos < |t| && Upper(t[pos].value) == reg
  }

  /** `(expr,X)`, `(expr),Y`, `(expr),X` and `(expr)` (assembler.py:259-291). */
  function IndirectMode(cpu: Cpu, m: string, t: seq<Token>, start: nat, c: Ctx): (r: Result<Decision>)
    requires c.store.Valid() && start < |t|
    ensures r.Ok? ==> r.value.Addressed? && 1 <= r.value.consumed <= |t| - start
    ensures r.Ok? ==> r.value.mode in {INDX, ABS_X_IND, INDY, ZP_IND, IND}
  {
    var e :- Evaluate(t, start + 1, c);
    var v := e.value;
    var n := start + 1 + e.consumed;
    var modes := Instructions(cpu, m);
    if At(t, n, Comma) then
      if RegisterAt(t, n + 1, "X") then
        if At(t, n + 2, RParen) then
          var mode := if v <= 0xFF && INDX in modes then INDX else if ABS_X_IND in modes then ABS_X_IND else INDX;
          Ok(Addressed(mode, Num(v), e.consumed + 4))
        else Err(ExpectedParenAfterX)
      else Err(InvalidIndirect)
    else if At(t, n, RParen) then
      if At(t, n + 1, Comma) then
        if RegisterAt(t, n + 2, "Y") then Ok(Addressed(INDY, Num(v), e.consumed + 4))
        else if RegisterAt(t, n + 2, "X") then Ok(Addressed(ABS_X_IND, Num(v), e.consumed + 4))
        else Err(InvalidIndirect)
      else if v <= 0xFF && ZP_IND in modes then Ok(Addressed(ZP_IND, Num(v), e.consumed + 2))
      else Ok(Addressed(IND, Num(v), e.consumed + 2))
    else Err(InvalidIndirect)
  }

  /** The two comma-separated operands of `BBR`/`BBS` (assembler.py:293-302). */
  function ZpRelMode(m: string, t: seq<Token>, start: nat, c: Ctx): (r: Result<Decision>)
    requires c.store.Valid()
    ensures r.Ok? ==> r.value.Addressed? && r.value.mode == ZP_REL && r.value.operand.ZpRel?
    ensures r.Ok? ==> 1 <= r.value.consumed <= |t| - start
  {
    var a :- Evaluate(t, start, c);
    var n := start + a.consumed;
    if At(t, n, Comma) then
      var b :- Evaluate(t, n + 1, c);
      Ok(Addressed(ZP_REL, ZpRel(a.value, b.value), a.consumed + 1 + b.consumed))
    else Err(ExpectedTwoOperands(m))
  }

  /** The size hint of a leading `<`, `>` or `^` (assembler.py:306-314);
      0 for none. */
  function HintSize(k: Kind): nat
  {
    if k == LessThan then 1 else if k == GreaterThan then 2 else if k == Caret then 3 else 0
  }

  /** A branch mnemonic: it starts with `B` and is not `BIT`. */
  predicate IsBranch(m: string)
  {
    StartsWith(m, "B") && m != "BIT"
  }

  /** Direct, indexed and relative operands (assembler.py:304-355). */
  function DirectMode(cpu: Cpu, m: string, t: seq<Token>, start: nat, c: Ctx): (r: Result<Decision>)
    requires c.store.Valid() && start < |t|
    ensures r.Ok? ==> r.value.Addressed? && 1 <= r.value.consumed <= |t| - start && r.value.operand.Num?
  {
    var e :- Evaluate(t, start, c);
    var v := e.value;
    var n := start + e.consumed;
    var hint := HintSize(t[start].kind);
    var modes := Instructions(cpu, m);
    if At(t, n, Comma) && n + 1 < |t| then
      var reg := Upper(t[n + 1].value);
      if reg == "X" then Ok(Addressed(if v <= 0xFF && ZPX in modes then ZPX else ABSX, Num(v), e.consumed + 2))
      else if reg == "Y" then Ok(Addressed(if v <= 0xFF && ZPY in modes then ZPY else ABSY, Num(v), e.consumed + 2))
      else Err(InvalidIndexRegister(reg))
    else if m == "JMP" || m == "JSR" then Ok(Addressed(ABS, Num(v), e.consumed))
    else if IsBranch(m) then Ok(Addressed(REL, Num(v), e.consumed))
    else if hint == 1 && ZP in modes then Ok(Addressed(ZP, Num(v), e.consumed))
    else if (hint == 2 || hint == 3) && ABS in modes then Ok(Addressed(ABS, Num(v), e.consumed))
    else if v <= 0xFF && ZP in modes then Ok(Addressed(ZP, Num(v), e.consumed))
    else Ok(Addressed(ABS, Num(v), e.consumed))
  }

  /** What the direct operand forms choose: zero page only when the
      instruction has it and the value fits a byte or carries the `<` hint,
      `ABS` or an indexed mode for `JMP` and `JSR`, `REL` or an indexed
      mode for branches, and for `REL` the value itself. */
  lemma DirectModeFacts(cpu: Cpu, m: string, t: seq<Token>, start: nat, c: Ctx)
    requires c.store.Valid() && start < |t|
    requires DirectMode(cpu, m, t, start, c).Ok?
    ensures var d := DirectMode(cpu, m, t, start, c).value;
      (d.mode in {ZP, ZPX, ZPY} ==>
        d.mode in Instructions(cpu, m) && (ValueOf(d.operand) <= 0xFF || (d.mode == ZP && t[start].kind == LessThan))) &&
      ((m == "JMP" || m == "JSR") ==> d.mode in {ABS, ZPX, ABSX, ZPY, ABSY}) &&
      (IsBranch(m) ==> d.mode in {REL, ZPX, ABSX, ZPY, ABSY}) &&
      (d.mode == REL ==> d.operand == Num(Evaluate(t, start, c).value.value))
  {
    var e := Evaluate(t, start, c).value;
    var n := start + e.consumed;
    if At(t, n, Comma) && n + 1 < |t| {
    } else if m == "JMP" || m == "JSR" {
      assert m[..1][0] == 'J' != "B"[0];
    } else if IsBranch(m) {
    } else {
    }
  }

  /** `determine_addressing_mode` (assembler.py:226-355) for the operand
      tokens of `t` from `start` on. The decision consumes only tokens of
      the list, and at least one when there is an operand. */
  function AddressingMode(cpu: Cpu, m: string, t: seq<Token>, start: nat, c: Ctx): (r: Result<Decision>)
    requires c.store.Valid()
    ensures start >= |t| ==> r.Ok? && (r.value.Addressed? ==> r.value.consumed == 0)
    ensures r.Ok? && r.value.Addressed? && start < |t| ==> 1 <= r.value.consumed <= |t| - start
    ensures r.Ok? && r.value.ImpliedSingle? ==> start >= |t| && (m == "TOP" || m == "DOP")
  {
    if start >= |t| then Ok(NoOperandMode(cpu, m))
    else if RegisterAt(t, start, "A") && ACC in Instructions(cpu, m) then Ok(Addressed(ACC, Register, 1))
    else if t[start].kind == Immediate then
      if start + 1 >= |t| then Err(ExpectedValueAfterHash)
      else
        var e :- Evaluate(t, start + 1, c);
        Ok(Addressed(IMM, Num(e.value % 256), e.consumed + 1))
    else if t[start].kind == LParen then IndirectMode(cpu, m, t, start, c)
    else if StartsWith(m, "BBR") || StartsWith(m, "BBS") then ZpRelMode(m, t, start, c)
    else DirectMode(cpu, m, t, start, c)
  }

  // ---- properties of the decision ----

  /** The operand is left to `DirectMode`: it is not `A` for an
      instruction with an accumulator form, `#`, `(`, or a `BBR`/`BBS`
      operand pair. */
  predicate DirectForm(cpu: Cpu, m: string, t: seq<Token>, start: nat)
  {
    start < |t| && !(RegisterAt(t, start, "A") && ACC in Instructions(cpu, m)) &&
    t[start].kind != Immediate && t[start].kind != LParen && !StartsWith(m, "BBR") && !StartsWith(m, "BBS")
  }

  /** `#expr` is immediate, with the low byte of the value. */
  lemma ImmediateIsLowByte(cpu: Cpu, m: string, t: seq<Token>, start: nat, c: Ctx)
    requires c.store.Valid() && start < |t| && t[start].kind == Immediate
    requires !(RegisterAt(t, start, "A") && ACC in Instructions(cpu, m))
    ensures var r := AddressingMode(cpu, m, t, start, c);
      r.Ok? <==> start + 1 < |t| && Evaluate(t, start + 1, c).Ok?
    ensures var r := AddressingMode(cpu, m, t, start, c);
      r.Ok? ==> r.value == Addressed(IMM, Num(Evaluate(t, start + 1, c).value.value % 256), Evaluate(t, start + 1, c).value.consumed + 1) &&
                0 <= ValueOf(r.value.operand) < 256
  {
  }

  /** A zero-page mode is chosen only when the instruction has it, and only
      for a value that fits a byte or one written with the `<` hint. */
  lemma ZeroPageNeedsByteValue(cpu: Cpu, m: string, t: seq<Token>, start: nat, c: Ctx)
    requires c.store.Valid()
    requires var r := AddressingMode(cpu, m, t, start, c); r.Ok? && r.value.Addressed? && r.value.mode in {ZP, ZPX, ZPY}
    ensures var d := AddressingMode(cpu, m, t, start, c).value;
      d.mode in Instructions(cpu, m) && (ValueOf(d.operand) <= 0xFF || (d.mode == ZP && t[start].kind == LessThan))
  {
    if DirectForm(cpu, m, t, start) {
      DirectModeFacts(cpu, m, t, start, c);
    }
  }

  /** `JMP` and `JSR` never take a zero-page operand. */
  lemma JumpsAreNeverZeroPage(cpu: Cpu, m: string, t: seq<Token>, start: nat, c: Ctx)
    requires c.store.Valid() && (m == "JMP" || m == "JSR")
    requires var r := AddressingMode(cpu, m, t, start, c); r.Ok? && r.value.Addressed?
    ensures AddressingMode(cpu, m, t, start, c).value.mode != ZP
  {
    if DirectForm(cpu, m, t, start) {
      DirectModeFacts(cpu, m, t, start, c);
    }
  }

  /** A plain operand of a branch mnemonic, without index register, is
      relative. */
  lemma BranchesAreRelative(cpu: Cpu, m: string, t: seq<Token>, start: nat, c: Ctx)
    requires c.store.Valid() && IsBranch(m) && DirectForm(cpu, m, t, start)
    requires var r := AddressingMode(cpu, m, t, start, c); r.Ok? && r.value.Addressed?
    ensures var d := AddressingMode(cpu, m, t, start, c).value;
      d.mode in {REL, ZPX, ZPY, ABSX, ABSY} &&
      (d.mode == REL ==> d.operand == Num(Evaluate(t, start, c).value.value))
  {
    DirectModeFacts(cpu, m, t, start, c);
  }

  // ---- the bytes of an instruction (assembler.py:357-425) ----

  /** The mode of the table used for a decided mode: `ZP`, `ZPX` and `ZPY`
      fall back to their absolute forms when only those exist
      (assembler.py:378-387). */
  function TableMode(modes: map<Mode, Op>, mode: Mode, m: string): (r: Result<Mode>)
    ensures r.Ok? ==> r.value in modes
    ensures mode in modes ==> r == Ok(mode)
    ensures r.Ok? && r.value != mode ==> (mode, r.value) in {(ZP, ABS), (ZPX, ABSX), (ZPY, ABSY)}
    ensures r.Err? <==> mode !in modes && !(mode == ZP && ABS in modes) && !(mode == ZPX && ABSX in modes) && !(mode == ZPY && ABSY in modes)
    ensures r.Err? ==> r.error == InvalidAddressingMode(m)
  {
    if mode in modes then Ok(mode)
    else if mode == ZP && ABS in modes then Ok(ABS)
    else if mode == ZPX && ABSX in modes then Ok(ABSX)
    else if mode == ZPY && ABSY in modes then Ok(ABSY)
    else Err(InvalidAddressingMode(m))
  }

  /** A branch offset the 6502 can encode. */
  predicate InRange(offset: int)
  {
    -128 <= offset <= 127
  }

  /** The bytes after the opcode for table entry `mode` of `size` bytes,
      for an instruction at `pc` on pass `pass`: a relative offset from the
      end of the instruction (checked for range on pass 2 only), a
      zero-page address and offset for `ZP_REL`, a low byte, or a
      little-endian word (assembler.py:392-425). */
  function OperandBytes(mode: Mode, size: int, op: Operand, pass: int, pc: int): Result<seq<int>>
  {
    if size == 2 then
      if mode == REL then
        var offset := ValueOf(op) - (pc + 2);
        if pass == 2 && !InRange(offset) then Err(BranchTooFar(offset)) else Ok([offset % 256])
      else Ok([ValueOf(op) % 256])
    else if size == 3 then
      if mode == ZP_REL then
        var offset := TargetOf(op) - (pc + 3);
        if pass == 2 && !InRange(offset) then Err(BranchTooFar(offset)) else Ok([ValueOf(op) % 256, offset % 256])
      else Ok([ValueOf(op) % 256, (ValueOf(op) / 256) % 256])
    else Ok([])
  }

  /** What an instruction puts out: one byte stored directly (`TOP` and
      `DOP` alone), or bytes passed through `emit_byte`. */
  datatype Encoding = Direct(byte: nat) | Bytes(values: seq<int>)

  /** The bytes of an instruction whose mode is decided, for an
      instruction at `pc` on pass `pass`: the opcode of the table entry,
      then its operand bytes (assembler.py:378-410). */
  function EncodeAddressed(modes: map<Mode, Op>, m: string, d: Decision, pass: int, pc: int): Result<seq<int>>
    requires d.Addressed?
  {
    var mode :- TableMode(modes, d.mode, m);
    var rest :- OperandBytes(mode, modes[mode].size, d.operand, pass, pc);
    Ok([modes[mode].opcode] + rest)
  }

  /** The opcode `emit_byte` has put out before the operand is checked. */
  function OpcodeEmitted(modes: map<Mode, Op>, m: string, d: Decision): seq<int>
    requires d.Addressed?
  {
    var mode := TableMode(modes, d.mode, m);
    if mode.Ok? then [modes[mode.value].opcode] else []
  }

  /** `assemble_instruction` (assembler.py:357-410) as a function of the
      CPU, the tokens and the evaluation context (whose PC is the
      instruction's address and whose store holds the pass number). */
  function Encode(cpu: Cpu, m: string, t: seq<Token>, start: nat, c: Ctx): Result<Encoding>
    requires c.store.Valid()
  {
    if m !in Mnemonics(cpu) then Err(UnknownInstruction(m))
    else
      var d :- AddressingMode(cpu, m, t, start, c);
      if d.ImpliedSingle? then Ok(Direct(d.byte))
      else
        var vs :- EncodeAddressed(Instructions(cpu, m), m, d, c.store.pass, c.pc);
        Ok(Bytes(vs))
  }

  /** The bytes already emitted when an instruction fails: the opcode if
      the failure is the range check of a branch, nothing otherwise. */
  function EmittedBeforeError(cpu: Cpu, m: string, t: seq<Token>, start: nat, c: Ctx): seq<int>
    requires c.store.Valid()
  {
    var d := AddressingMode(cpu, m, t, start, c);
    if m in Mnemonics(cpu) && d.Ok? && d.value.Addressed? then OpcodeEmitted(Instructions(cpu, m), m, d.value) else []
  }

  /** With a table whose entries have their modes' sizes, the bytes of a
      decided instruction are its opcode and then bytes below 256, as many
      in all as the mode's size. */
  lemma EncodedAddressedLength(modes: map<Mode, Op>, m: string, d: Decision, pass: int, pc: int)
    requires d.Addressed? && forall mode :: mode in modes ==> modes[mode].size == SizeOf(mode)
    requires EncodeAddressed(modes, m, d, pass, pc).Ok?
    ensures var mode := TableMode(modes, d.mode, m); var vs := EncodeAddressed(modes, m, d, pass, pc).value;
      mode.Ok? && |vs| == SizeOf(mode.value) && vs[0] == modes[mode.value].opcode &&
      forall k :: 1 <= k < |vs| ==> 0 <= vs[k] < 256
  {
  }

  /** An emitted instruction is the opcode of its table entry followed by
      as many operand bytes as the mode's size calls for. */
  lemma EncodedLength(cpu: Cpu, m: string, t: seq<Token>, start: nat, c: Ctx)
    requires c.store.Valid()
    requires var r := Encode(cpu, m, t, start, c); r.Ok? && r.value.Bytes?
    ensures var d := AddressingMode(cpu, m, t, start, c); var modes := Instructions(cpu, m);
      var vs := Encode(cpu, m, t, start, c).value.values;
      d.Ok? && d.value.Addressed? && TableMode(modes, d.value.mode, m).Ok? &&
      |vs| == SizeOf(TableMode(modes, d.value.mode, m).value) &&
      vs[0] == modes[TableMode(modes, d.value.mode, m).value].opcode &&
      forall k :: 1 <= k < |vs| ==> 0 <= vs[k] < 256
  {
    var modes := Instructions(cpu, m);
    forall mode | mode in modes
      ensures modes[mode].size == SizeOf(mode)
    {
      TableSizes(cpu, m, mode);
    }
    var d := AddressingMode(cpu, m, t, start, c).value;
    EncodedAddressedLength(modes, m, d, c.store.pass, c.pc);
  }

  /** The signed value of an offset byte. */
  function SignedByte(b: int): int
  {
    if b >= 128 then b - 256 else b
  }

  /** On pass 2 a branch's offset byte, read as signed, leads from the end
      of the instruction to the target exactly; out of range it is an
      error. */
  lemma RelativeReachesTarget(mode: Mode, op: Operand, pc: int)
    requires mode == REL
    ensures var r := OperandBytes(mode, 2, op, 2, pc);
      r.Ok? <==> InRange(ValueOf(op) - (pc + 2))
    ensures var r := OperandBytes(mode, 2, op, 2, pc);
      r.Ok? ==> |r.value| == 1 && pc + 2 + SignedByte(r.value[0]) == ValueOf(op)
  {
  }

  /** Likewise for `BBR`/`BBS`: the zero-page byte, then an offset from
      the end of the three-byte instruction. */
  lemma ZpRelativeReachesTarget(op: Operand, pc: int)
    requires op.ZpRel?
    ensures var r := OperandBytes(ZP_REL, 3, op, 2, pc);
      r.Ok? <==> InRange(op.target - (pc + 3))
    ensures var r := OperandBytes(ZP_REL, 3, op, 2, pc);
      r.Ok? ==> |r.value| == 2 && r.value[0] == op.zp % 256 && pc + 3 + SignedByte(r.value[1]) == op.target
  {
  }

  /** Pass 1 never rejects a branch for its range. */
  lemma FirstPassTakesAnyOffset(mode: Mode, size: int, op: Operand, pc: int)
    ensures OperandBytes(mode, size, op, 1, pc).Ok?
  {
  }

  /** A word is put out low byte first: the two bytes give back the value
      modulo 65536. */
  lemma WordIsLittleEndian(mode: Mode, op: Operand, pass: int, pc: int)
    requires mode != ZP_REL
    ensures var r := OperandBytes(mode, 3, op, pass, pc);
      r.Ok? && |r.value| == 2 && r.value[0] + 256 * r.value[1] == ValueOf(op) % 65536
  {
    var v := ValueOf(op);
    var q := v / 65536;
    var rem := v % 65536;
    assert v == 65536 * q + rem;
    assert v / 256 == 256 * q + rem / 256;
    assert (v / 256) % 256 == rem / 256;
    assert v % 256 == rem % 256;
  }

  lemma EmitAllOne(e: Emitter, a: int)
    ensures EmitAll(e, [a]) == Emit(e, a)
  {
    assert [a][1..] == [];
  }

  lemma EmitAllTwo(e: Emitter, a: int, b: int)
    ensures EmitAll(e, [a, b]) == Emit(Emit(e, a), b)
  {
    assert [a, b][1..] == [b];
    EmitAllOne(Emit(e, a), b);
  }

  // ---- macro collection (assembler.py:474-533) ----

  /** The characters of `s` before its first whitespace: on a stripped,
      non-empty line, Python's `s.split()[0]`. */
  function FirstWord(s: string): (w: string)
    ensures |w| <= |s| && w == s[..|w|]
    ensures forall k :: 0 <= k < |w| ==> !IsSpace(w[k])
    ensures |w| < |s| ==> IsSpace(s[|w|])
  {
    if s == [] || IsSpace(s[0]) then [] else [s[0]] + FirstWord(s[1..])
  }

  /** How a body line changes the count of open conditionals: `+1` for an
      `!if`, `!ifdef` or `!ifndef` without a `{` before any `;`, `-1` for
      `!fi`, 0 otherwise. */
  function Delta(line: string): int
  {
    var content := Strip(Split(line, ';')[0]);
    if content == [] then 0
    else
      var directive := Lower(FirstWord(content));
      if directive in ["!if", "!ifdef", "!ifndef"] then (if '{' in content then 0 else 1)
      else if directive == "!fi" then -1
      else 0
  }

  /** The net count of conditionals a macro body leaves open. */
  function Unclosed(body: seq<string>): int
  {
    if body == [] then 0 else Unclosed(body[..|body| - 1]) + Delta(body[|body| - 1])
  }

  /** `n` copies of `!fi`. */
  function Fis(n: nat): (r: seq<string>)
    ensures |r| == n && forall k :: 0 <= k < n ==> r[k] == "!fi"
  {
    seq(n, _ => "!fi")
  }

  /** The body with one `!fi` appended per open conditional. */
  function AutoClose(body: seq<string>): seq<string>
  {
    if Unclosed(body) > 0 then body + Fis(Unclosed(body)) else body
  }

  /** A word without whitespace is its own first word. */
  lemma {:induction false} WholeWord(s: string)
    requires forall k :: 0 <= k < |s| ==> !IsSpace(s[k])
    ensures FirstWord(s) == s
  {
    if s != [] {
      WholeWord(s[1..]);
      assert [s[0]] + s[1..] == s;
    }
  }

  lemma FiCloses()
    ensures Delta("!fi") == -1
  {
    SplitWithoutSeparator("!fi", ';');
    WholeWord("!fi");
    assert LStrip("!fi") == "!fi";
    assert RStrip("!fi") == "!fi";
  }

  lemma UnclosedSnoc(body: seq<string>, line: string)
    ensures Unclosed(body + [line]) == Unclosed(body) + Delta(line)
  {
    assert (body + [line])[..|body|] == body;
  }

  lemma {:induction false} UnclosedAfterFis(body: seq<string>, n: nat)
    ensures Unclosed(body + Fis(n)) == Unclosed(body) - n
  {
    if n > 0 {
      assert body + Fis(n) == (body + Fis(n - 1)) + [Fis(n)[n - 1]];
      UnclosedSnoc(body + Fis(n - 1), Fis(n)[n - 1]);
      UnclosedAfterFis(body, n - 1);
      FiCloses();
    } else {
      assert body + Fis(n) == body;
    }
  }

  /** Auto-closing keeps the body's lines and leaves no conditional open:
      the count ends at 0, or stays where it was when nothing was open. */
  lemma AutoCloseBalances(body: seq<string>)
    ensures var closed := AutoClose(body); |closed| >= |body| && closed[..|body|] == body
    ensures Unclosed(body) > 0 ==> Unclosed(AutoClose(body)) == 0
    ensures Unclosed(body) <= 0 ==> AutoClose(body) == body
    ensures forall k :: |body| <= k < |AutoClose(body)| ==> AutoClose(body)[k] == "!fi"
  {
    if Unclosed(body) > 0 {
      UnclosedAfterFis(body, Unclosed(body));
      assert (body + Fis(Unclosed(body)))[..|body|] == body;
    }
  }

  /** The body line the brace depth ends a macro on is kept unless it is
      just `}`. */
  function FinalBody(body: seq<string>, line: string): seq<string>
  {
    if Strip(line) != "}" then body + [line] else body
  }

  /** The state of a multi-line macro being collected. */
  datatype Collection = Collection(active: bool, name: string, params: seq<string>, body: seq<string>, depth: int)

  function Idle(): Collection
  {
    Collection(false, "", [], [], 0)
  }

  /** The settings of the assembler that instruction emission leaves alone. */
  datatype Settings = Settings(cpuType: string, cpu: Cpu, currentLine: int, format: Output.OutputFormat, filename: string)

  /** `Assembler6502` (assembler.py:23-77). The symbol fields are kept as
      one `Store` value; `output`, `lines`, the file manager and the debug
      system are not part of this model. */
  class Assembler6502 {
    var pc: int
    var outputDict: Mem
    var store: Store
    var cpuType: string
    var cpu: Cpu
    var currentLine: int
    var outputFormat: Output.OutputFormat
    var outputFilename: string
    var collectingMacro: bool
    var macroName: string
    var macroParams: seq<string>
    var macroBody: seq<string>
    var macroBraceDepth: int
    const text: TextConverter
    const conditionals: ConditionalProcessor
    const loops: LoopProcessor
    const macros: MacroSystem
    const segments: SegmentManager

    predicate Valid()
      reads this
    {
      store.Valid()
    }

    /** What an expression on the current line is evaluated against. */
    function Context(): Ctx
      reads this, loops
    {
      Ctx(pc, loops.variables, store)
    }

    /** What `emit_byte` reads and changes. */
    function EmitterState(): Emitter
      reads this, segments
    {
      Emitter(pc, outputDict, segments.currentPseudo, segments.xorValue)
    }

    function Collecting(): Collection
      reads this
    {
      Collection(collectingMacro, macroName, macroParams, macroBody, macroBraceDepth)
    }

    function CurrentSettings(): Settings
      reads this
    {
      Settings(cpuType, cpu, currentLine, outputFormat, outputFilename)
    }

    /** The segment manager's state other than the pseudo-PC. */
    function SegmentRest(): (seq<Segment>, seq<(int, int)>, Option<Byte>)
      reads segments
    {
      (segments.segments, segments.pseudoStack, segments.initMemory)
    }

    constructor()
      ensures Valid() && pc == 0 && outputDict == map[] && store == InitialStore()
      ensures cpuType == "6502" && cpu == CpuOf(cpuType) && currentLine == 0
      ensures outputFormat == Output.Plain && outputFilename == "" && Collecting() == Idle()
      ensures text.currentTable == "raw" && conditionals.State() == Empty()
      ensures loops.variables == map[] && macros.macros == map[] && macros.counter == 0
      ensures segments.currentPseudo == None && segments.pseudoStack == [] && segments.xorValue == 0 && segments.initMemory == None
      ensures fresh(text) && fresh(conditionals) && fresh(loops) && fresh(macros) && fresh(segments)
    {
      pc := 0;
      outputDict := map[];
      store := InitialStore();
      cpuType := "6502";
      cpu := CpuOf("6502");
      currentLine := 0;
      outputFormat := Output.Plain;
      outputFilename := "";
      collectingMacro := false;
      macroName := "";
      macroParams := [];
      macroBody := [];
      macroBraceDepth := 0;
      text := new TextConverter();
      conditionals := new ConditionalProcessor();
      loops := new LoopProcessor();
      macros := new MacroSystem();
      segments := new SegmentManager();
    }

    /** `_update_instructions` (assembler.py:93-120): the table follows
        the CPU type. */
    method UpdateInstructions()
      modifies this
      ensures cpu == CpuOf(cpuType) && cpuType == old(cpuType)
      ensures pc == old(pc) && outputDict == old(outputDict) && store == old(store) && Collecting() == old(Collecting())
      ensures currentLine == old(currentLine) && outputFormat == old(outputFormat) && outputFilename == old(outputFilename)
    {
      cpu := CpuOf(cpuType);
    }

    /** `create_zone` (assembler.py:122-126). */
    method CreateZone(name: string)
      requires Valid()
      modifies this
      ensures Valid() && store == Symbols.CreateZone(old(store), name)
      ensures pc == old(pc) && outputDict == old(outputDict) && CurrentSettings() == old(CurrentSettings()) && Collecting() == old(Collecting())
    {
      store := Symbols.CreateZone(store, name);
    }

    /** `define_symbol` (assembler.py:175-224). */
    method DefineSymbol(name: string, value: int, isAddress: bool) returns (r: Outcome)
      requires Valid()
      modifies this
      ensures Valid()
      ensures Define(old(store), name, value, isAddress).Ok? ==> r.Pass? && store == Define(old(store), name, value, isAddress).value
      ensures Define(old(store), name, value, isAddress).Err? ==> r == Fail(Define(old(store), name, value, isAddress).error) && store == old(store)
      ensures pc == old(pc) && outputDict == old(outputDict) && CurrentSettings() == old(CurrentSettings()) && Collecting() == old(Collecting())
    {
      var d := Define(store, name, value, isAddress);
      if d.Err? {
        return Fail(d.error);
      }
      store := d.value;
      return Pass;
    }

    /** `emit_byte` (assembler.py:412-420), through the segment manager. */
    method EmitByte(value: int)
      modifies this, segments
      ensures EmitterState() == Emit(old(EmitterState()), value)
      ensures SegmentRest() == old(SegmentRest())
      ensures store == old(store) && CurrentSettings() == old(CurrentSettings()) && Collecting() == old(Collecting())
    {
      pc, outputDict := segments.EmitByte(pc, outputDict, value);
    }

    /** `emit_word` (assembler.py:422-425): low byte first. */
    method EmitWord(value: int)
      modifies this, segments
      ensures EmitterState() == EmitAll(old(EmitterState()), [value % 256, (value / 256) % 256])
      ensures SegmentRest() == old(SegmentRest())
      ensures store == old(store) && CurrentSettings() == old(CurrentSettings()) && Collecting() == old(Collecting())
    {
      var e0 := EmitterState();
      EmitByte(value % 256);
      EmitByte((value / 256) % 256);
      EmitAllTwo(e0, value % 256, (value / 256) % 256);
    }

    /** `assemble_instruction` (assembler.py:357-410). On success the
        bytes of `Encode` are emitted; on failure the error is that of
        `Encode` and only the opcode of an out-of-range branch has been
        emitted. */
    method AssembleInstruction(m: string, t: seq<Token>, start: nat) returns (r: Outcome)
      requires Valid()
      modifies this, segments
      ensures var spec := Encode(old(cpu), m, t, start, old(Context()));
        (spec.Ok? && spec.value.Direct? ==>
          r.Pass? && pc == old(pc) + 1 && outputDict == old(outputDict)[old(pc) := spec.value.byte] &&
          segments.currentPseudo == old(segments.currentPseudo)) &&
        (spec.Ok? && spec.value.Bytes? ==> r.Pass? && EmitterState() == EmitAll(old(EmitterState()), spec.value.values)) &&
        (spec.Err? ==>
          r == Fail(spec.error) &&
          EmitterState() == EmitAll(old(EmitterState()), EmittedBeforeError(old(cpu), m, t, start, old(Context()))))
      ensures segments.xorValue == old(segments.xorValue) && SegmentRest() == old(SegmentRest())
      ensures store == old(store) && CurrentSettings() == old(CurrentSettings()) && Collecting() == old(Collecting())
    {
      if m !in Mnemonics(cpu) {
        return Fail(UnknownInstruction(m));
      }
      var d := AddressingMode(cpu, m, t, start, Context());
      if d.Err? {
        return Fail(d.error);
      }
      if d.value.ImpliedSingle? {
        outputDict := outputDict[pc := d.value.byte];
        pc := pc + 1;
        return Pass;
      }
      r := EmitInstruction(Instructions(cpu, m), m, d.value);
    }

    /** The emitting half of `assemble_instruction` (assembler.py:377-410):
        the table entry's opcode, then the operand bytes. */
    method EmitInstruction(modes: map<Mode, Op>, m: string, d: Decision) returns (r: Outcome)
      requires d.Addressed?
      modifies this, segments
      ensures var spec := EncodeAddressed(modes, m, d, old(store.pass), old(pc));
        (spec.Ok? ==> r.Pass? && EmitterState() == EmitAll(old(EmitterState()), spec.value)) &&
        (spec.Err? ==> r == Fail(spec.error) && EmitterState() == EmitAll(old(EmitterState()), OpcodeEmitted(modes, m, d)))
      ensures segments.xorValue == old(segments.xorValue) && SegmentRest() == old(SegmentRest())
      ensures store == old(store) && CurrentSettings() == old(CurrentSettings()) && Collecting() == old(Collecting())
    {
      var mode := TableMode(modes, d.mode, m);
      if mode.Err? {
        return Fail(mode.error);
      }
      var op := modes[mode.value];
      var e0 := EmitterState();
      var start := pc;
      EmitByte(op.opcode);
      EmitAllOne(e0, op.opcode);
      var rest := OperandBytes(mode.value, op.size, d.operand, store.pass, start);
      if rest.Err? {
        return Fail(rest.error);
      }
      EmitOperand(rest.value);
      EmitAllAppend(e0, [op.opcode], rest.value);
      return Pass;
    }

    /** The operand bytes of an instruction, one `emit_byte` each. */
    method EmitOperand(vs: seq<int>)
      requires |vs| <= 2
      modifies this, segments
      ensures EmitterState() == EmitAll(old(EmitterState()), vs)
      ensures segments.xorValue == old(segments.xorValue) && SegmentRest() == old(SegmentRest())
      ensures store == old(store) && CurrentSettings() == old(CurrentSettings()) && Collecting() == old(Collecting())
    {
      var e0 := EmitterState();
      if |vs| == 1 {
        EmitByte(vs[0]);
        EmitAllOne(e0, vs[0]);
      } else if |vs| == 2 {
        EmitByte(vs[0]);
        EmitByte(vs[1]);
        EmitAllTwo(e0, vs[0], vs[1]);
        assert vs == [vs[0], vs[1]];
      }
    }

    /** `start_macro_collection` (assembler.py:527-533): the `{` of the
        `!macro` line has been seen. */
    method StartMacroCollection(name: string, params: seq<string>)
      modifies this
      ensures Collecting() == Collection(true, name, params, [], 1)
      ensures pc == old(pc) && outputDict == old(outputDict) && store == old(store) && CurrentSettings() == old(CurrentSettings())
    {
      collectingMacro := true;
      macroName := name;
      macroParams := params;
      macroBody := [];
      macroBraceDepth := 1;
    }

    /** The counting loop of `_collect_macro_line` (assembler.py:489-503). */
    static method CountUnclosed(body: seq<string>) returns (n: int)
      ensures n == Unclosed(body)
    {
      n := 0;
      var i := 0;
      while i < |body|
        invariant 0 <= i <= |body| && n == Unclosed(body[..i])
      {
        assert body[..i + 1][..i] == body[..i];
        var content := Strip(Split(body[i], ';')[0]);
        if content != [] {
          var directive := Lower(FirstWord(content));
          if directive in ["!if", "!ifdef", "!ifndef"] {
            if '{' !in content {
              n := n + 1;
            }
          } else if directive == "!fi" {
            n := n - 1;
          }
        }
        i := i + 1;
      }
      assert body[..i] == body;
    }

    /** What collecting the line `t` does to the macro being collected:
        its brace depth moves by the braces of the line; at depth zero or
        less the macro is defined and collection ends, otherwise the line
        joins the body. */
    twostate predicate CollectsLine(t: seq<Token>)
      reads this, macros
    {
      var line := LineText(t);
      var depth := old(macroBraceDepth) + Count(line, '{') - Count(line, '}');
      (if depth <= 0 then
         Collecting() == Idle() &&
         macros.macros == old(macros.macros)[old(macroName) :=
           Macro(old(macroName), old(macroParams), AutoClose(FinalBody(old(macroBody), line)), old(currentLine))]
       else
         Collecting() == old(Collecting()).(body := old(macroBody) + [line], depth := depth) &&
         macros.macros == old(macros.macros)) &&
      macros.callDepth == old(macros.callDepth) && macros.counter == old(macros.counter)
    }

    /** `_collect_macro_line` (assembler.py:474-525): a line of the body,
        or the line whose braces close the macro, which is then defined
        with its open conditionals closed and the collection state
        cleared. */
    method CollectMacroLine(t: seq<Token>)
      modifies this, macros
      ensures CollectsLine(t)
      ensures pc == old(pc) && outputDict == old(outputDict) && store == old(store) && CurrentSettings() == old(CurrentSettings())
    {
      var line := LineText(t);
      var depth := macroBraceDepth + Count(line, '{') - Count(line, '}');
      if depth <= 0 {
        var body := macroBody;
        if Strip(line) != "}" {
          body := body + [line];
        }
        FinishMacro(body);
      } else {
        macroBody := macroBody + [line];
        macroBraceDepth := depth;
      }
    }

    /** The end of a collected macro (assembler.py:489-522): the body gets
        one `!fi` per open conditional, the macro is defined, and the
        collection state is cleared. */
    method FinishMacro(body: seq<string>)
      modifies this, macros
      ensures Collecting() == Idle()
      ensures macros.macros == old(macros.macros)[old(macroName) :=
        Macro(old(macroName), old(macroParams), AutoClose(body), old(currentLine))]
      ensures macros.callDepth == old(macros.callDepth) && macros.counter == old(macros.counter)
      ensures pc == old(pc) && outputDict == old(outputDict) && store == old(store) && CurrentSettings() == old(CurrentSettings())
    {
      var closed := CloseConditionals(body);
      macros.DefineMacro(macroName, macroParams, closed, currentLine);
      EndCollection();
    }

    /** The auto-closing of `_collect_macro_line` (assembler.py:489-506). */
    static method CloseConditionals(body: seq<string>) returns (closed: seq<string>)
      ensures closed == AutoClose(body)
    {
      var open := CountUnclosed(body);
      closed := body;
      if open > 0 {
        closed := body + Fis(open);
      }
    }

    /** The collection state cleared (assembler.py:516-521). */
    method EndCollection()
      modifies this
      ensures Collecting() == Idle()
      ensures pc == old(pc) && outputDict == old(outputDict) && store == old(store) && CurrentSettings() == old(CurrentSettings())
    {
      collectingMacro := false;
      macroName := "";
      macroParams := [];
      macroBody := [];
      macroBraceDepth := 0;
    }

    /** The reset at the start of each pass of `assemble`
        (assembler.py:689-724): the PC is 0, pass 2 starts from an empty
        output, the per-pass symbol state, the conditional and loop
        stacks, the local-label counter, the pseudo-PC and the collection
        state are cleared; symbols, macros, CPU and settings carry over. */
    method BeginPass(pass: int)
      requires Valid()
      modifies this, conditionals, loops, macros, segments
      ensures Valid() && pc == 0 && store == Symbols.BeginPass(old(store), pass)
      ensures outputDict == (if pass == 2 then map[] else old(outputDict))
      ensures Collecting() == Idle() && CurrentSettings() == old(CurrentSettings())
      ensures conditionals.State() == Empty()
      ensures loops.variables == map[] && loops.forLoops == [] && loops.whileLoops == [] && loops.doLoops == []
      ensures macros.counter == 0 && macros.macros == old(macros.macros) && macros.callDepth == old(macros.callDepth)
      ensures segments.segments == [] && segments.pseudoStack == [] && segments.currentPseudo == None
      ensures segments.initMemory == old(segments.initMemory) && segments.xorValue == old(segments.xorValue)
    {
      ResetOwnState(pass);
      ResetProcessors();
    }

    /** The assembler's own fields at the start of a pass. */
    method ResetOwnState(pass: int)
      requires Valid()
      modifies this
      ensures Valid() && pc == 0 && store == Symbols.BeginPass(old(store), pass)
      ensures outputDict == (if pass == 2 then map[] else old(outputDict))
      ensures Collecting() == Idle() && CurrentSettings() == old(CurrentSettings())
    {
      store := Symbols.BeginPass(store, pass);
      pc := 0;
      if pass == 2 {
        outputDict := map[];
      }
      collectingMacro := false;
      macroName := "";
      macroParams := [];
      macroBody := [];
      macroBraceDepth := 0;
    }

    /** The processors' per-pass resets. */
    method ResetProcessors()
      modifies conditionals, loops, macros, segments
      ensures conditionals.State() == Empty()
      ensures loops.variables == map[] && loops.forLoops == [] && loops.whileLoops == [] && loops.doLoops == []
      ensures macros.counter == 0 && macros.macros == old(macros.macros) && macros.callDepth == old(macros.callDepth)
      ensures segments.segments == [] && segments.pseudoStack == [] && segments.currentPseudo == None
      ensures segments.initMemory == old(segments.initMemory) && segments.xorValue == old(segments.xorValue)
    {
      conditionals.Reset();
      loops.Reset();
      macros.counter := 0;
      segments.Reset();
    }
  }
}
