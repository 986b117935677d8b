/** The segment manager of pyasm6502/package/segments.py: the `!pseudopc`
    stack, byte emission with the `!xor` mask at the effective program
    counter, the grouping of the output map into runs of consecutive
    addresses, overlap detection and the `!initmem` gap fill.

    The assembler's `pc` and `output_dict`, which the source reaches through
    its `asm` argument, are passed in and handed back by the methods here. */
module Segments {
  import opened Wrappers
  import opened Bits
  import opened Memory
  import opened Tokens
  import opened Evaluator

  // ---- segments and their overlap test ----

  datatype SegmentType = Normal | Overlay | Invisible

  /** A run of output: the closed address range `start..end` and its bytes. */
  datatype Segment = Segment(start: int, end: int, data: Mem, kind: SegmentType)

  predicate Covers(s: Segment, x: int)
  {
    s.start <= x <= s.end
  }

  /** `Segment.overlaps_with` (segments.py:23-31): invisible and overlay
      segments never overlap; other segments overlap when their closed
      ranges intersect. */
  function OverlapsWith(a: Segment, b: Segment): bool
  {
    if a.kind == Invisible || b.kind == Invisible then false
    else if a.kind == Overlay || b.kind == Overlay then false
    else !(a.end < b.start || a.start > b.end)
  }

  lemma OverlapsSymmetric(a: Segment, b: Segment)
    ensures OverlapsWith(a, b) == OverlapsWith(b, a)
  {
  }

  /** Two normal, non-empty segments overlap exactly when some address lies
      in both of them. */
  lemma OverlapsMeansSharedAddress(a: Segment, b: Segment)
    requires a.start <= a.end && b.start <= b.end
    requires a.kind == Normal && b.kind == Normal
    ensures OverlapsWith(a, b) <==> exists x :: Covers(a, x) && Covers(b, x)
  {
    if OverlapsWith(a, b) {
      var x := if a.start < b.start then b.start else a.start;
      assert Covers(a, x) && Covers(b, x);
    }
  }

  // ---- the pseudo-PC ----

  /** The pseudo-PC state: the stack of `(real_pc, saved pseudo_pc)` pairs
      and the current pseudo-PC, if any. */
  datatype Pseudo = Pseudo(stack: seq<(int, int)>, current: Option<int>)

  /** Python `self.current_pseudo_pc or asm.pc`: a pseudo-PC of 0 counts as
      none, like an absent one. */
  function SavedPseudo(current: Option<int>, pc: int): (v: int)
    ensures current.Some? && current.value != 0 ==> v == current.value
    ensures current.None? || current == Some(0) ==> v == pc
  {
    if current.Some? && current.value != 0 then current.value else pc
  }

  /** `enter_pseudopc` (segments.py:51-60). */
  function Enter(p: Pseudo, pc: int, addr: int): (r: Pseudo)
    ensures |r.stack| == |p.stack| + 1 && r.stack[..|p.stack|] == p.stack
    ensures r.stack[|p.stack|] == (pc, SavedPseudo(p.current, pc))
    ensures r.current == Some(addr)
  {
    Pseudo(p.stack + [(pc, SavedPseudo(p.current, pc))], Some(addr))
  }

  /** `exit_pseudopc` (segments.py:62-71): an empty stack is an error;
      otherwise the top entry is popped and its saved pseudo-PC restored,
      or no pseudo-PC at all once the stack is empty. */
  function Exit(p: Pseudo): (r: Result<Pseudo>)
    ensures r.Err? <==> p.stack == []
    ensures r.Ok? ==> r.value.stack == p.stack[..|p.stack| - 1]
    ensures r.Ok? && r.value.stack == [] ==> r.value.current == None
    ensures r.Ok? && r.value.stack != [] ==> r.value.current == Some(p.stack[|p.stack| - 1].1)
  {
    if p.stack == [] then Err(NoPseudopcToExit)
    else
      var rest := p.stack[..|p.stack| - 1];
      Ok(Pseudo(rest, if rest != [] then Some(p.stack[|p.stack| - 1].1) else None))
  }

  /** Leaving the block just entered restores the stack; the pseudo-PC
      goes back to none at the outermost level, and to the one in force
      before the block otherwise, unless that was 0, which comes back as
      the real PC at entry. */
  lemma ExitAfterEnter(p: Pseudo, pc: int, addr: int)
    ensures Exit(Enter(p, pc, addr)).Ok?
    ensures Exit(Enter(p, pc, addr)).value.stack == p.stack
    ensures p.stack == [] ==> Exit(Enter(p, pc, addr)).value.current == None
    ensures p.stack != [] && p.current.Some? && p.current.value != 0 ==>
      Exit(Enter(p, pc, addr)).value.current == p.current
    ensures p.stack != [] && p.current == Some(0) ==> Exit(Enter(p, pc, addr)).value.current == Some(pc)
  {
    assert Enter(p, pc, addr).stack[..|p.stack|] == p.stack;
  }

  /** `get_effective_pc` (segments.py:73-78). */
  function EffectivePc(pc: int, pseudo: Option<int>): (a: int)
    ensures pseudo.None? ==> a == pc
    ensures pseudo.Some? ==> a == pseudo.value
  {
    if pseudo.Some? then pseudo.value else pc
  }

  /** `get_unpseudo_address` (segments.py:80-91): the identity outside a
      pseudo-PC block, else the top entry's real PC plus the distance of
      `addr` from that entry's saved pseudo-PC. */
  function Unpseudo(p: Pseudo, addr: int): (a: int)
    ensures p.stack == [] ==> a == addr
    ensures p.stack != [] ==> a - p.stack[|p.stack| - 1].0 == addr - p.stack[|p.stack| - 1].1
  {
    if p.stack == [] then addr
    else
      var top := p.stack[|p.stack| - 1];
      top.0 + (addr - top.1)
  }

  /** The saved pseudo-PC of an outermost block is the real PC at entry,
      so inside a single `!pseudopc` block every address maps to itself,
      not to its real location. */
  lemma UnpseudoInOutermostBlock(pc: int, addr: int, a: int)
    ensures Unpseudo(Enter(Pseudo([], None), pc, addr), a) == a
  {
  }

  // ---- emission ----

  /** What emitting a byte reads and changes: the assembler's real PC and
      output map, and the manager's pseudo-PC and XOR mask. */
  datatype Emitter = Emitter(pc: int, out: Mem, pseudo: Option<int>, xor: Byte)

  /** The byte written for `value`: Python `(value ^ xor) & 0xFF`, with the
      XOR skipped for a zero mask. `& 0xFF` is `% 256` (Bits.LowByte). */
  function Masked(value: int, xor: Byte): (b: Byte)
    ensures xor == 0 ==> b == value % 256
  {
    (if xor != 0 then BitXor(value, xor) else value) % 256
  }

  /** `emit_byte_with_segments` (segments.py:93-110). */
  function Emit(e: Emitter, value: int): (r: Emitter)
  {
    var at := EffectivePc(e.pc, e.pseudo);
    Emitter(e.pc + 1, e.out[at := Masked(value, e.xor)],
            if e.pseudo.Some? then Some(e.pseudo.value + 1) else None, e.xor)
  }

  /** Emitting writes the masked byte at the effective PC and nowhere else,
      and advances the real PC, and the pseudo-PC when there is one, by 1. */
  lemma EmitWritesEffectivePcOnly(e: Emitter, value: int)
    ensures var r := Emit(e, value);
      r.out.Keys == e.out.Keys + {EffectivePc(e.pc, e.pseudo)} &&
      r.out[EffectivePc(e.pc, e.pseudo)] == Masked(value, e.xor) &&
      (forall a :: a in e.out && a != EffectivePc(e.pc, e.pseudo) ==> r.out[a] == e.out[a]) &&
      r.pc == e.pc + 1 && r.xor == e.xor &&
      (e.pseudo.None? ==> r.pseudo.None?) &&
      (e.pseudo.Some? ==> r.pseudo == Some(e.pseudo.value + 1))
  {
  }

  /** Emitting a sequence of values one after another. */
  function EmitAll(e: Emitter, values: seq<int>): Emitter
    decreases |values|
  {
    if values == [] then e else EmitAll(Emit(e, values[0]), values[1..])
  }

  lemma {:induction false} EmitAllAppend(e: Emitter, a: seq<int>, b: seq<int>)
    ensures EmitAll(e, a + b) == EmitAll(EmitAll(e, a), b)
    decreases |a|
  {
    if a != [] {
      assert (a + b)[0] == a[0];
      assert (a + b)[1..] == a[1..] + b;
      EmitAllAppend(Emit(e, a[0]), a[1..], b);
      assert EmitAll(e, a + b) == EmitAll(Emit(e, a[0]), a[1..] + b);
      assert EmitAll(e, a) == EmitAll(Emit(e, a[0]), a[1..]);
    } else {
      assert a + b == b;
    }
  }

  /** Outside a pseudo-PC block, emitting `n` values advances the PC by
      `n`, leaves every address outside the `n` from the PC as it was and
      writes no other address. */
  lemma {:induction false} EmitAllPlainFrame(e: Emitter, values: seq<int>)
    requires e.pseudo.None?
    ensures var r := EmitAll(e, values); r.pc == e.pc + |values| && r.pseudo.None? && r.xor == e.xor
    ensures var r := EmitAll(e, values);
      forall a :: a in e.out && !(e.pc <= a < e.pc + |values|) ==> a in r.out && r.out[a] == e.out[a]
    ensures var r := EmitAll(e, values); forall a :: a in r.out ==> a in e.out || e.pc <= a < e.pc + |values|
    decreases |values|
  {
    if values != [] {
      var e1 := Emit(e, values[0]);
      EmitWritesEffectivePcOnly(e, values[0]);
      EmitAllPlainFrame(e1, values[1..]);
      var r := EmitAll(e, values);
      assert r == EmitAll(e1, values[1..]);
      forall a | a in e.out && !(e.pc <= a < e.pc + |values|)
        ensures a in r.out && r.out[a] == e.out[a]
      {
        assert a in e1.out && e1.out[a] == e.out[a];
      }
    } else {
      assert EmitAll(e, values) == e;
    }
  }

  /** ... and writes the `k`-th value, masked, at the PC plus `k`. */
  lemma {:induction false} EmitAllPlainAt(e: Emitter, values: seq<int>, k: nat)
    requires e.pseudo.None? && k < |values|
    ensures e.pc + k in EmitAll(e, values).out && EmitAll(e, values).out[e.pc + k] == Masked(values[k], e.xor)
    decreases k
  {
    var e1 := Emit(e, values[0]);
    EmitWritesEffectivePcOnly(e, values[0]);
    assert EmitAll(e, values) == EmitAll(e1, values[1..]);
    if k == 0 {
      EmitAllPlainFrame(e1, values[1..]);
      assert e.pc in e1.out && e.pc < e1.pc;
    } else {
      EmitAllPlainAt(e1, values[1..], k - 1);
      assert values[1..][k - 1] == values[k];
    }
  }

  /** Outside a pseudo-PC block, emitting `n` values writes them, masked,
      at the `n` addresses from the PC upwards, leaves every other address
      as it was and advances the PC by `n`. */
  lemma EmitAllPlain(e: Emitter, values: seq<int>)
    requires e.pseudo.None?
    ensures var r := EmitAll(e, values);
      r.pc == e.pc + |values| && r.pseudo.None? && r.xor == e.xor &&
      (forall a :: e.pc <= a < e.pc + |values| ==> a in r.out && r.out[a] == Masked(values[a - e.pc], e.xor)) &&
      (forall a :: a in e.out && !(e.pc <= a < e.pc + |values|) ==> a in r.out && r.out[a] == e.out[a]) &&
      (forall a :: a in r.out ==> a in e.out || e.pc <= a < e.pc + |values|)
  {
    EmitAllPlainFrame(e, values);
    var r := EmitAll(e, values);
    forall a | e.pc <= a < e.pc + |values|
      ensures a in r.out && r.out[a] == Masked(values[a - e.pc], e.xor)
    {
      EmitAllPlainAt(e, values, a - e.pc);
    }
  }

  // ---- runs of consecutive addresses ----

  /** The part of the output map inside `lo..hi`. */
  function Restrict(out: Mem, lo: int, hi: int): Mem
  {
    map a | a in out && lo <= a <= hi :: out[a]
  }

  /** A segment that is one block of written addresses with their bytes. */
  predicate IsRun(s: Segment, out: Mem)
  {
    s.start <= s.end && s.kind == Normal &&
    (forall x :: s.start <= x <= s.end ==> x in out) &&
    s.data == Restrict(out, s.start, s.end)
  }

  /** Ascending, with at least one unwritten address between neighbours. */
  predicate Separated(segs: seq<Segment>)
  {
    forall i, j :: 0 <= i < j < |segs| ==> segs[i].end + 1 < segs[j].start
  }

  predicate InSomeRun(segs: seq<Segment>, x: int)
  {
    exists i :: 0 <= i < |segs| && Covers(segs[i], x)
  }

  /** What `analyze_segments` promises: ascending maximal runs that cover
      every written address. */
  predicate RunList(segs: seq<Segment>, out: Mem)
  {
    (forall i :: 0 <= i < |segs| ==> IsRun(segs[i], out)) &&
    Separated(segs) &&
    (forall x :: x in out ==> InSomeRun(segs, x))
  }

  /** Every written address lies in exactly one run, and runs cannot be
      extended: the addresses just outside a run are unwritten. */
  lemma RunsPartition(segs: seq<Segment>, out: Mem)
    requires RunList(segs, out)
    ensures forall x, i, j :: 0 <= i < |segs| && 0 <= j < |segs| && Covers(segs[i], x) && Covers(segs[j], x) ==> i == j
    ensures forall i :: 0 <= i < |segs| ==> segs[i].end + 1 !in out && segs[i].start - 1 !in out
  {
    forall i, j | 0 <= i < j < |segs|
      ensures segs[i].end < segs[j].start
    {
    }
    forall i | 0 <= i < |segs|
      ensures segs[i].end + 1 !in out && segs[i].start - 1 !in out
    {
      forall j | 0 <= j < |segs|
        ensures !Covers(segs[j], segs[i].end + 1) && !Covers(segs[j], segs[i].start - 1)
      {
        assert IsRun(segs[j], out) && IsRun(segs[i], out);
      }
    }
  }

  lemma RestrictSingle(out: Mem, a: int)
    requires a in out
    ensures Restrict(out, a, a) == map[a := out[a]]
  {
  }

  lemma RestrictExtend(out: Mem, lo: int, hi: int)
    requires lo <= hi + 1 && hi + 1 in out
    ensures Restrict(out, lo, hi + 1) == Restrict(out, lo, hi)[hi + 1 := out[hi + 1]]
  {
  }

  /** The state of the scan of `analyze_segments`: the closed runs, and
      the current run `lo..hi`, all written and past the closed ones. */
  predicate Scanning(segs: seq<Segment>, lo: int, hi: int, out: Mem)
  {
    lo <= hi && (forall x :: lo <= x <= hi ==> x in out) &&
    (forall i :: 0 <= i < |segs| ==> IsRun(segs[i], out)) && Separated(segs) &&
    (forall i :: 0 <= i < |segs| ==> segs[i].end + 1 < lo) &&
    (forall x :: x in out && x < lo ==> InSomeRun(segs, x))
  }

  lemma GrowRun(segs: seq<Segment>, lo: int, hi: int, out: Mem)
    requires Scanning(segs, lo, hi, out) && hi + 1 in out
    ensures Scanning(segs, lo, hi + 1, out)
  {
  }

  /** Closing the current run when the next written address `next` leaves
      a gap after it. */
  lemma CloseRun(segs: seq<Segment>, lo: int, hi: int, out: Mem, next: int)
    requires Scanning(segs, lo, hi, out) && next in out && hi + 1 < next
    requires forall x :: x in out && hi < x ==> next <= x
    ensures Scanning(segs + [Segment(lo, hi, Restrict(out, lo, hi), Normal)], next, next, out)
  {
    var s := Segment(lo, hi, Restrict(out, lo, hi), Normal);
    var t := segs + [s];
    assert t[|segs|] == s;
    forall i | 0 <= i < |segs| ensures t[i] == segs[i] { }
    forall x | x in out && x < next
      ensures InSomeRun(t, x)
    {
      if x < lo {
        var i :| 0 <= i < |segs| && Covers(segs[i], x);
        assert Covers(t[i], x);
      } else {
        assert Covers(t[|segs|], x);
      }
    }
  }

  /** In an ascending list, the element after `addrs[k - 1]` is the least
      one above it. */
  lemma NextAbove(addrs: seq<int>, k: nat, x: int)
    requires StrictlyIncreasing(addrs) && 0 < k < |addrs| && x in addrs && addrs[k - 1] < x
    ensures addrs[k] <= x
  {
    var j :| 0 <= j < |addrs| && addrs[j] == x;
    if k < j { assert addrs[k] < addrs[j]; }
  }

  lemma LastIsMax(addrs: seq<int>, x: int)
    requires StrictlyIncreasing(addrs) && x in addrs
    ensures x <= addrs[|addrs| - 1]
  {
    var j :| 0 <= j < |addrs| && addrs[j] == x;
    assert addrs[j] <= addrs[|addrs| - 1];
  }

  /** Closing the last run. */
  lemma CloseLastRun(segs: seq<Segment>, lo: int, hi: int, out: Mem)
    requires Scanning(segs, lo, hi, out)
    requires forall x :: x in out ==> x <= hi
    ensures RunList(segs + [Segment(lo, hi, Restrict(out, lo, hi), Normal)], out)
  {
    var s := Segment(lo, hi, Restrict(out, lo, hi), Normal);
    var t := segs + [s];
    assert t[|segs|] == s;
    forall i | 0 <= i < |segs| ensures t[i] == segs[i] { }
    forall x | x in out
      ensures InSomeRun(t, x)
    {
      if x < lo {
        var i :| 0 <= i < |segs| && Covers(segs[i], x);
        assert Covers(t[i], x);
      } else {
        assert Covers(t[|segs|], x);
      }
    }
  }

  /** Runs never overlap one another. */
  lemma RunsDoNotOverlap(segs: seq<Segment>, out: Mem)
    requires RunList(segs, out)
    ensures forall i, j :: 0 <= i < j < |segs| ==> !OverlapsWith(segs[i], segs[j])
  {
    forall i, j | 0 <= i < j < |segs|
      ensures !OverlapsWith(segs[i], segs[j])
    {
      assert IsRun(segs[j], out);
    }
  }

  // ---- overlap report ----

  /** The pairs `detect_overlaps` reports for `s` against each later segment. */
  function PairsWith(s: Segment, later: seq<Segment>): seq<(Segment, Segment)>
    decreases |later|
  {
    if later == [] then []
    else (if OverlapsWith(s, later[0]) then [(s, later[0])] else []) + PairsWith(s, later[1..])
  }

  /** Every overlapping pair `(segs[i], segs[j])` with `i < j`, row by row. */
  function OverlapPairs(segs: seq<Segment>): seq<(Segment, Segment)>
    decreases |segs|
  {
    if segs == [] then [] else PairsWith(segs[0], segs[1..]) + OverlapPairs(segs[1..])
  }

  lemma {:induction false} NoPairsWith(s: Segment, later: seq<Segment>)
    requires forall j :: 0 <= j < |later| ==> !OverlapsWith(s, later[j])
    ensures PairsWith(s, later) == []
    decreases |later|
  {
    if later != [] {
      NoPairsWith(s, later[1..]);
    }
  }

  lemma {:induction false} NoOverlapPairs(segs: seq<Segment>)
    requires forall i, j :: 0 <= i < j < |segs| ==> !OverlapsWith(segs[i], segs[j])
    ensures OverlapPairs(segs) == []
    decreases |segs|
  {
    if segs != [] {
      NoPairsWith(segs[0], segs[1..]);
      NoOverlapPairs(segs[1..]);
    }
  }

  /** The runs found by `analyze_segments` give an empty overlap report. */
  lemma RunsReportNoOverlap(segs: seq<Segment>, out: Mem)
    requires RunList(segs, out)
    ensures OverlapPairs(segs) == []
  {
    RunsDoNotOverlap(segs, out);
    NoOverlapPairs(segs);
  }

  // ---- gap fill ----

  /** The output map after visiting `lo..hi` in ascending order and writing
      `v` at each address not yet written. */
  function Filled(out: Mem, lo: int, hi: int, v: Byte): Mem
    decreases if hi < lo then 0 else hi - lo + 1
  {
    if hi < lo then out else Filled(if lo in out then out else out[lo := v], lo + 1, hi, v)
  }

  /** Filling covers `lo..hi`, keeps every written byte and writes `v` at
      the gaps only. */
  lemma {:induction false} FilledKeepsWritten(out: Mem, lo: int, hi: int, v: Byte)
    ensures forall a :: a in Filled(out, lo, hi, v) <==> a in out || lo <= a <= hi
    ensures forall a :: a in out ==> Filled(out, lo, hi, v)[a] == out[a]
    ensures forall a :: a !in out && lo <= a <= hi ==> Filled(out, lo, hi, v)[a] == v
    decreases if hi < lo then 0 else hi - lo + 1
  {
    if lo <= hi {
      var next := if lo in out then out else out[lo := v];
      FilledKeepsWritten(next, lo + 1, hi, v);
    }
  }

  datatype Directive = PseudopcDir | InitmemDir | XorDir

  /** The manager kept by the assembler (segments.py:33-41). */
  /** What the segment directives (segments.py:112-146) do for one segment
      directive: the missing-operand error, the evaluation error, and on
      success the new pseudo-PC state, initial-memory value or XOR mask,
      each of the others and the recorded segments kept. */
  twostate predicate DirectiveEffect(m: SegmentManager, d: Directive, t: seq<Token>, start: nat, c: Ctx, new r: Outcome)
    requires c.store.Valid()
    reads m
  {
    (start >= |t| ==> r.Fail? && r.error == (match d
      case PseudopcDir => PseudopcRequiresAddress
      case InitmemDir => InitmemRequiresValue
      case XorDir => XorRequiresValue)) &&
    (start < |t| && Evaluate(t, start, c).Err? ==> r == Fail(Evaluate(t, start, c).error)) &&
    (r.Fail? ==> m.PseudoState() == old(m.PseudoState()) && m.initMemory == old(m.initMemory) && m.xorValue == old(m.xorValue)) &&
    (r.Pass? ==> start < |t| && Evaluate(t, start, c).Ok?) &&
    (r.Pass? && d == PseudopcDir ==>
      m.PseudoState() == Enter(old(m.PseudoState()), c.pc, Evaluate(t, start, c).value.value) &&
      m.initMemory == old(m.initMemory) && m.xorValue == old(m.xorValue)) &&
    (r.Pass? && d == InitmemDir ==>
      m.initMemory == Some(Evaluate(t, start, c).value.value % 256) &&
      m.PseudoState() == old(m.PseudoState()) && m.xorValue == old(m.xorValue)) &&
    (r.Pass? && d == XorDir ==>
      m.xorValue == Evaluate(t, start, c).value.value % 256 &&
      m.PseudoState() == old(m.PseudoState()) && m.initMemory == old(m.initMemory)) &&
    m.segments == old(m.segments)
  }

  class SegmentManager {
    var segments: seq<Segment>
    var pseudoStack: seq<(int, int)>
    var initMemory: Option<Byte>
    var xorValue: Byte
    var currentPseudo: Option<int>

    function PseudoState(): Pseudo
      reads this
    {
      Pseudo(pseudoStack, currentPseudo)
    }

    constructor()
      ensures segments == [] && pseudoStack == [] && currentPseudo == None
      ensures initMemory == None && xorValue == 0
    {
      segments := [];
      pseudoStack := [];
      initMemory := None;
      xorValue := 0;
      currentPseudo := None;
    }

    /** `set_init_memory` (segments.py:43-45). */
    method SetInitMemory(value: int)
      modifies this
      ensures initMemory == Some(value % 256) && xorValue == old(xorValue)
      ensures segments == old(segments) && PseudoState() == old(PseudoState())
    {
      LowByte(value);
      initMemory := Some(value % 256);
    }

    /** `set_xor_value` (segments.py:47-49). */
    method SetXorValue(value: int)
      modifies this
      ensures xorValue == value % 256 && initMemory == old(initMemory)
      ensures segments == old(segments) && PseudoState() == old(PseudoState())
    {
      xorValue := value % 256;
    }

    method EnterPseudopc(pc: int, addr: int)
      modifies this
      ensures PseudoState() == Enter(old(PseudoState()), pc, addr)
      ensures segments == old(segments) && initMemory == old(initMemory) && xorValue == old(xorValue)
    {
      pseudoStack := pseudoStack + [(pc, if currentPseudo.Some? && currentPseudo.value != 0 then currentPseudo.value else pc)];
      currentPseudo := Some(addr);
    }

    method ExitPseudopc() returns (r: Outcome)
      modifies this
      ensures r.Fail? <==> Exit(old(PseudoState())).Err?
      ensures r.Fail? ==> r.error == NoPseudopcToExit && PseudoState() == old(PseudoState())
      ensures r.Pass? ==> PseudoState() == Exit(old(PseudoState())).value
      ensures segments == old(segments) && initMemory == old(initMemory) && xorValue == old(xorValue)
    {
      if pseudoStack == [] {
        return Fail(NoPseudopcToExit);
      }
      var top := pseudoStack[|pseudoStack| - 1];
      pseudoStack := pseudoStack[..|pseudoStack| - 1];
      currentPseudo := if pseudoStack != [] then Some(top.1) else None;
      return Pass;
    }

    function GetEffectivePc(pc: int): int
      reads this
    {
      EffectivePc(pc, currentPseudo)
    }

    function GetUnpseudoAddress(addr: int): int
      reads this
    {
      Unpseudo(PseudoState(), addr)
    }

    /** `emit_byte_with_segments`, on the assembler's PC and output map. */
    method EmitByte(pc: int, out: Mem, value: int) returns (pc': int, out': Mem)
      modifies this
      ensures Emitter(pc', out', currentPseudo, xorValue) == Emit(Emitter(pc, out, old(currentPseudo), xorValue), value)
      ensures pseudoStack == old(pseudoStack) && segments == old(segments)
      ensures initMemory == old(initMemory) && xorValue == old(xorValue)
    {
      var at := GetEffectivePc(pc);
      var v := if xorValue != 0 then BitXor(value, xorValue) else value;
      out' := out[at := v % 256];
      if currentPseudo.Some? {
        currentPseudo := Some(currentPseudo.value + 1);
      }
      pc' := pc + 1;
    }

    /** `process_pseudopc_directive`, `process_initmem_directive` and
        `process_xor_directive` (segments.py:112-146): each needs an operand,
        evaluates it at `start` and enters the block or sets the value. */
    method ProcessDirective(d: Directive, t: seq<Token>, start: nat, c: Ctx) returns (r: Outcome)
      requires c.store.Valid()
      modifies this
      ensures DirectiveEffect(this, d, t, start, c, r)
    {
      if start >= |t| {
        var e := match d
          case PseudopcDir => PseudopcRequiresAddress
          case InitmemDir => InitmemRequiresValue
          case XorDir => XorRequiresValue;
        return Fail(e);
      }
      var v := Evaluate(t, start, c);
      if v.Err? {
        return Fail(v.error);
      }
      match d {
        case PseudopcDir => EnterPseudopc(c.pc, v.value.value);
        case InitmemDir => SetInitMemory(v.value.value);
        case XorDir => SetXorValue(v.value.value);
      }
      return Pass;
    }

    /** `analyze_segments` (segments.py:148-182): the runs are recorded in
        `segments`, except for an empty map, which returns `[]` and records
        nothing. */
    method AnalyzeSegments(out: Mem) returns (segs: seq<Segment>)
      modifies this
      ensures RunList(segs, out)
      ensures out == map[] ==> segs == [] && segments == old(segments)
      ensures out != map[] ==> segments == segs
      ensures PseudoState() == old(PseudoState()) && initMemory == old(initMemory) && xorValue == old(xorValue)
    {
      segs := FindRuns(out);
      if out != map[] {
        segments := segs;
      }
    }

    /** `detect_overlaps` (segments.py:184-201): the overlapping pairs of
        the runs of `out`, which are always none. */
    method DetectOverlaps(out: Mem) returns (warnings: seq<(Segment, Segment)>)
      modifies this
      ensures out != map[] ==> RunList(segments, out) && warnings == OverlapPairs(segments)
      ensures warnings == []
      ensures PseudoState() == old(PseudoState()) && initMemory == old(initMemory) && xorValue == old(xorValue)
    {
      var segs := AnalyzeSegments(out);
      warnings := ReportOverlaps(segs);
      RunsReportNoOverlap(segs, out);
    }

    /** `fill_gaps_with_initmem` (segments.py:203-218), on the assembler's
        output map. */
    method FillGapsWithInitmem(out: Mem, start: int, end: int) returns (r: Mem)
      ensures initMemory.None? || end - start + 1 > 256 ==> r == out
      ensures initMemory.Some? && end - start + 1 <= 256 ==> r == Filled(out, start, end, initMemory.value)
    {
      if initMemory.None? || end - start + 1 > 256 {
        return out;
      }
      var v := initMemory.value;
      r := out;
      var a := start;
      while a <= end
        invariant start <= a <= (if end < start then start else end + 1)
        invariant Filled(r, a, end, v) == Filled(out, start, end, v)
        decreases end - a + 1
      {
        if a !in r {
          r := r[a := v];
        }
        a := a + 1;
      }
    }

    /** `reset` (segments.py:246-251): the init value and mask survive. */
    method Reset()
      modifies this
      ensures segments == [] && pseudoStack == [] && currentPseudo == None
      ensures initMemory == old(initMemory) && xorValue == old(xorValue)
    {
      segments := [];
      pseudoStack := [];
      currentPseudo := None;
    }
  }

  /** A gap before `addrs[k]` closes the run ending at `addrs[k - 1]`. */
  lemma CloseRunAt(addrs: seq<int>, k: nat, segs: seq<Segment>, lo: int, hi: int, out: Mem)
    requires addrs == Addresses(out) && 0 < k < |addrs| && hi == addrs[k - 1]
    requires Scanning(segs, lo, hi, out) && addrs[k] != hi + 1
    ensures Scanning(segs + [Segment(lo, hi, Restrict(out, lo, hi), Normal)], addrs[k], addrs[k], out)
  {
    forall x | x in out && hi < x
      ensures addrs[k] <= x
    {
      NextAbove(addrs, k, x);
    }
    CloseRun(segs, lo, hi, out, addrs[k]);
  }

  /** The last address closes the last run. */
  lemma CloseLastRunAt(addrs: seq<int>, segs: seq<Segment>, lo: int, hi: int, out: Mem)
    requires addrs == Addresses(out) && 0 < |addrs| && hi == addrs[|addrs| - 1]
    requires Scanning(segs, lo, hi, out)
    ensures RunList(segs + [Segment(lo, hi, Restrict(out, lo, hi), Normal)], out)
  {
    forall x | x in out
      ensures x <= hi
    {
      LastIsMax(addrs, x);
    }
    CloseLastRun(segs, lo, hi, out);
  }

  /** The scan of `analyze_segments` over the sorted written addresses:
      a run grows while the next address is one more than its end. */
  method FindRuns(out: Mem) returns (segs: seq<Segment>)
    ensures RunList(segs, out)
    ensures segs == [] <==> out == map[]
  {
    if |out| == 0 {
      assert out == map[];
      return [];
    }
    var addrs := Addresses(out);
    var curStart := addrs[0];
    var curEnd := addrs[0];
    var curData := map[curStart := out[curStart]];
    RestrictSingle(out, curStart);
    segs := [];
    var k := 1;
    while k < |addrs|
      invariant 1 <= k <= |addrs|
      invariant curEnd == addrs[k - 1]
      invariant Scanning(segs, curStart, curEnd, out)
      invariant curData == Restrict(out, curStart, curEnd)
    {
      segs, curStart, curData := ScanAddress(out, addrs, k, segs, curStart, curEnd, curData);
      curEnd := addrs[k];
      k := k + 1;
    }
    CloseLastRunAt(addrs, segs, curStart, curEnd, out);
    segs := segs + [Segment(curStart, curEnd, curData, Normal)];
  }

  /** One turn of the scan (segments.py:166-176): the next address
      extends the current run, or closes it and starts a new one. */
  method ScanAddress(out: Mem, addrs: seq<int>, k: nat, segs: seq<Segment>, curStart: int, curEnd: int, curData: Mem)
    returns (segs': seq<Segment>, curStart': int, curData': Mem)
    requires addrs == Addresses(out) && 0 < k < |addrs| && curEnd == addrs[k - 1]
    requires Scanning(segs, curStart, curEnd, out) && curData == Restrict(out, curStart, curEnd)
    ensures Scanning(segs', curStart', addrs[k], out) && curData' == Restrict(out, curStart', addrs[k])
  {
    var a := addrs[k];
    assert curEnd < a;
    if a == curEnd + 1 {
      RestrictExtend(out, curStart, curEnd);
      GrowRun(segs, curStart, curEnd, out);
      segs', curStart', curData' := segs, curStart, curData[a := out[a]];
    } else {
      CloseRunAt(addrs, k, segs, curStart, curEnd, out);
      RestrictSingle(out, a);
      segs', curStart', curData' := segs + [Segment(curStart, curEnd, curData, Normal)], a, map[a := out[a]];
    }
  }

  /** The nested loops of `detect_overlaps` over a list of segments. */
  method ReportOverlaps(segs: seq<Segment>) returns (warnings: seq<(Segment, Segment)>)
    ensures warnings == OverlapPairs(segs)
  {
    warnings := [];
    var i := 0;
    while i < |segs|
      invariant 0 <= i <= |segs|
      invariant warnings + OverlapPairs(segs[i..]) == OverlapPairs(segs)
    {
      var row := [];
      var j := i + 1;
      while j < |segs|
        invariant i + 1 <= j <= |segs|
        invariant row + PairsWith(segs[i], segs[j..]) == PairsWith(segs[i], segs[i + 1..])
      {
        assert segs[j..][1..] == segs[j + 1..];
        if OverlapsWith(segs[i], segs[j]) {
          row := row + [(segs[i], segs[j])];
        }
        j := j + 1;
      }
      assert segs[i..][1..] == segs[i + 1..];
      assert warnings + row + OverlapPairs(segs[i + 1..]) == OverlapPairs(segs);
      warnings := warnings + row;
      i := i + 1;
    }
  }
}
