/** The directives of pyasm6502/package/directives.py: the data, hex,
    alignment, fill and text directives that write bytes, the directives
    that move the PC or change a setting, and the two dispatchers
    `process_acme_directive` and `process_directive`.

    Every directive that writes bytes is specified by a function over the
    emitter state (`Segments.Emitter`). The function threads the PC through
    the items, so an expression that reads `*` sees the bytes emitted before
    it, and it states exactly what has been written when an error stops the
    directive part-way. The methods over `Assembler6502` are proved against
    these functions. */
module Directives {
  import opened Wrappers
  import opened Bits
  import opened Memory
  import opened Strings
  import opened Tokens
  import opened Numbers
  import opened Symbols
  import opened Evaluator
  import opened Segments
  import opened Conditionals
  import opened Loops
  import opened Macros
  import opened TextConv
  import Opcodes
  import opened Assembler
  import Output

  /** The emitter state a directive leaves, and the error it stopped on. */
  datatype Emitted = Emitted(e: Emitter, error: Option<Error>)

  function OutcomeOf(error: Option<Error>): Outcome
  {
    if error.None? then Pass else Fail(error.value)
  }

  /** The index after an item: one comma is skipped if it follows. */
  function SkipComma(t: seq<Token>, j: nat): nat
  {
    if j < |t| && t[j].kind == Comma then j + 1 else j
  }

  function Repeat(value: int, count: int): (r: seq<int>)
    ensures |r| == (if count <= 0 then 0 else count)
    ensures forall k :: 0 <= k < |r| ==> r[k] == value
  {
    if count <= 0 then [] else seq(count, _ => value)
  }

  lemma RepeatSnoc(value: int, k: nat)
    ensures Repeat(value, k + 1) == Repeat(value, k) + [value]
  {
  }

  // ---- numeric data items (directives.py:29-62) ----

  /** Byte `k` of a value, Python `(v >> 8k) & 0xFF`; `& 0xFF` is `% 256`
      for negative values too (Bits.LowByte). */
  function ByteOf(v: int, k: nat): Byte
  {
    Shr(v, 8 * k) % 256
  }

  /** The low `size` bytes of a value, low byte first. */
  function LittleBytes(v: int, size: nat): seq<int>
  {
    seq(size, k requires 0 <= k < size => ByteOf(v, k))
  }

  function ReverseInts(s: seq<int>): (r: seq<int>)
    ensures |r| == |s| && forall k :: 0 <= k < |s| ==> r[k] == s[|s| - 1 - k]
  {
    seq(|s|, k requires 0 <= k < |s| => s[|s| - 1 - k])
  }

  /** The bytes a numeric item of `size` bytes emits, in emission order:
      low byte first for little-endian, high byte first for big-endian.
      Any size other than 1 to 4 emits nothing. */
  function ValueBytes(v: int, size: nat, little: bool): seq<int>
  {
    if !(1 <= size <= 4) then []
    else if little then LittleBytes(v, size)
    else ReverseInts(LittleBytes(v, size))
  }

  /** Reading bytes back, low byte first. */
  function LittleValue(bs: seq<int>): int
  {
    if bs == [] then 0 else bs[0] + 256 * LittleValue(bs[1..])
  }

  /** Dividing by `a`, then by `b`, is dividing by `a * b`; the remainder
      modulo `a * b` splits into the remainder modulo `a` and the rest. */
  lemma DivModNested(v: int, a: int, b: int)
    requires a > 0 && b > 0
    ensures v / (a * b) == (v / a) / b
    ensures v % (a * b) == v % a + a * ((v / a) % b)
  {
    var q := v / a;
    var r := v % a;
    var q2 := q / b;
    var r2 := q % b;
    assert v == a * q + r;
    assert q == b * q2 + r2;
    assert a * q == (a * b) * q2 + a * r2;
    MulMono(r2, b - 1, a);
    assert a * r2 + r < a * b;
    DivModUnique(v, a * b, q2, a * r2 + r);
  }

  lemma ShiftByteStep(v: int, k: nat)
    ensures ByteOf(v, k + 1) == ByteOf(v / 256, k)
  {
    Pow2Add(8, 8 * k);
    assert 8 * (k + 1) == 8 + 8 * k;
    Pow2Eight();
    DivModNested(v, 256, Pow2(8 * k));
  }

  /** Reading the `size` low bytes back gives the value modulo 2^(8*size). */
  lemma {:induction false} LittleBytesDecode(v: int, size: nat)
    ensures LittleValue(LittleBytes(v, size)) == v % Pow2(8 * size)
    decreases size
  {
    var bs := LittleBytes(v, size);
    if size == 0 {
      assert bs == [];
    } else {
      assert bs[1..] == LittleBytes(v / 256, size - 1) by {
        forall k | 0 <= k < size - 1
          ensures bs[1..][k] == ByteOf(v / 256, k)
        {
          ShiftByteStep(v, k);
        }
      }
      assert bs[0] == v % 256;
      LittleBytesDecode(v / 256, size - 1);
      Pow2Add(8, 8 * (size - 1));
      assert 8 * size == 8 + 8 * (size - 1);
      Pow2Eight();
      DivModNested(v, 256, Pow2(8 * (size - 1)));
    }
  }

  lemma ReverseTwice(s: seq<int>)
    ensures ReverseInts(ReverseInts(s)) == s
  {
  }

  /** A numeric item of size 1 to 4 emits exactly `size` bytes, each
      0..255. The big-endian bytes are the little-endian bytes reversed,
      so the low byte comes first in one and last in the other. */
  lemma ValueBytesShape(v: int, size: nat)
    requires 1 <= size <= 4
    ensures |ValueBytes(v, size, true)| == size && |ValueBytes(v, size, false)| == size
    ensures forall k :: 0 <= k < size ==> 0 <= ValueBytes(v, size, true)[k] < 256 && 0 <= ValueBytes(v, size, false)[k] < 256
    ensures ValueBytes(v, size, false) == ReverseInts(ValueBytes(v, size, true))
    ensures ValueBytes(v, size, true)[0] == v % 256 && ValueBytes(v, size, false)[size - 1] == v % 256
  {
    var lb := LittleBytes(v, size);
    assert ValueBytes(v, size, true) == lb;
    assert ValueBytes(v, size, false) == ReverseInts(lb);
    assert lb[0] == v % 256 by {
      assert Shr(v, 0) == v;
    }
    assert ReverseInts(lb)[size - 1] == lb[0];
  }

  /** Read back in the item's byte order, the bytes of a numeric item give
      the value modulo 2^(8*size), which is the value itself when it fits. */
  lemma ValueBytesRoundTrip(v: int, size: nat, little: bool)
    requires 1 <= size <= 4
    ensures LittleValue(if little then ValueBytes(v, size, little) else ReverseInts(ValueBytes(v, size, little))) == v % Pow2(8 * size)
    ensures 0 <= v < Pow2(8 * size) ==>
      LittleValue(if little then ValueBytes(v, size, little) else ReverseInts(ValueBytes(v, size, little))) == v
  {
    var lb := LittleBytes(v, size);
    LittleBytesDecode(v, size);
    ReverseTwice(lb);
    assert (if little then ValueBytes(v, size, little) else ReverseInts(ValueBytes(v, size, little))) == lb;
    if 0 <= v < Pow2(8 * size) {
      DivModUnique(v, Pow2(8 * size), 0, v);
    }
  }

  // ---- the data directives (directives.py:16-68) ----

  /** `_process_data_directive` from token `i` on. A string or character
      item emits one code per character between its quotes, whatever the
      size. Any other item is an expression, evaluated against the current
      PC, whose `ValueBytes` are emitted. One comma after each item is
      skipped. An evaluation error ends the directive, with the bytes of
      the earlier items already emitted. */
  function DataItems(e: Emitter, t: seq<Token>, i: nat, size: nat, little: bool, vars: map<string, int>, st: Store): Emitted
    requires st.Valid()
    decreases |t| - i
  {
    if i >= |t| then Emitted(e, None)
    else if t[i].kind == String || t[i].kind == Char then
      DataItems(EmitAll(e, Ords(Inner(t[i].value))), t, SkipComma(t, i + 1), size, little, vars, st)
    else
      var p := Evaluate(t, i, Ctx(e.pc, vars, st));
      if p.Err? then Emitted(e, Some(p.error))
      else DataItems(EmitAll(e, ValueBytes(p.value.value, size, little)), t, SkipComma(t, i + p.value.consumed), size, little, vars, st)
  }

  /** Tokens from `i` on alternate between a string or character item and
      a comma. */
  predicate TextList(t: seq<Token>, i: nat)
  {
    forall k :: i <= k < |t| ==> if (k - i) % 2 == 0 then t[k].kind in {String, Char} else t[k].kind == Comma
  }

  /** The characters of the items of a `TextList`, one after another. */
  function ListText(t: seq<Token>, i: nat): string
    decreases |t| - i
  {
    if i >= |t| then "" else Inner(t[i].value) + ListText(t, i + 2)
  }

  lemma OrdsAppend(a: string, b: string)
    ensures Ords(a + b) == Ords(a) + Ords(b)
  {
  }

  /** A list of string and character items emits the codes of all their
      characters in order, with no error, whatever the size and byte
      order: text is never widened to words. */
  lemma {:induction false} TextItemsIgnoreSize(e: Emitter, t: seq<Token>, i: nat, size: nat, little: bool, vars: map<string, int>, st: Store)
    requires st.Valid() && TextList(t, i)
    ensures DataItems(e, t, i, size, little, vars, st) == Emitted(EmitAll(e, Ords(ListText(t, i))), None)
    decreases |t| - i
  {
    if i < |t| {
      var s := Inner(t[i].value);
      var e1 := EmitAll(e, Ords(s));
      if i + 1 < |t| {
        assert t[i + 1].kind == Comma;
        assert SkipComma(t, i + 1) == i + 2;
        assert TextList(t, i + 2) by {
          forall k | i + 2 <= k < |t|
            ensures if (k - (i + 2)) % 2 == 0 then t[k].kind in {String, Char} else t[k].kind == Comma
          {
            assert (k - i) % 2 == (k - (i + 2)) % 2;
          }
        }
        TextItemsIgnoreSize(e1, t, i + 2, size, little, vars, st);
      } else {
        assert SkipComma(t, i + 1) == i + 1;
        assert ListText(t, i + 2) == "";
        assert s + "" == s;
      }
      OrdsAppend(s, ListText(t, i + 2));
      EmitAllAppend(e, Ords(s), Ords(ListText(t, i + 2)));
    }
  }

  /** One numeric item that ends the line emits its `ValueBytes` and
      nothing else; an item that fails to evaluate emits nothing. */
  lemma SingleValueItem(e: Emitter, t: seq<Token>, i: nat, size: nat, little: bool, vars: map<string, int>, st: Store)
    requires st.Valid() && i < |t| && t[i].kind !in {String, Char}
    ensures var p := Evaluate(t, i, Ctx(e.pc, vars, st));
      p.Ok? && i + p.value.consumed == |t| ==>
        DataItems(e, t, i, size, little, vars, st) == Emitted(EmitAll(e, ValueBytes(p.value.value, size, little)), None)
    ensures var p := Evaluate(t, i, Ctx(e.pc, vars, st));
      p.Err? ==> DataItems(e, t, i, size, little, vars, st) == Emitted(e, Some(p.error))
  {
  }

  // ---- !hex (directives.py:70-98) ----

  /** Python `int(pair, 16)` on two characters: two hex digits, or a sign
      followed by one hex digit; anything else raises ValueError. */
  function PairValue(pair: string): (r: Option<int>)
    requires |pair| == 2
    ensures r.Some? <==> (IsHexDigit(pair[0]) || pair[0] == '+' || pair[0] == '-') && IsHexDigit(pair[1])
    ensures r.Some? && IsHexDigit(pair[0]) ==> r.value == 16 * DigitValue(pair[0]) + DigitValue(pair[1]) && 0 <= r.value < 256
    ensures r.Some? && !IsHexDigit(pair[0]) ==> r.value == (if pair[0] == '-' then -DigitValue(pair[1]) else DigitValue(pair[1]))
  {
    HexDigits(pair);
    HexDigits(pair[1..]);
    TwoDigits(pair);
    OneDigit(pair[1..]);
    var whole := ParseInt(pair, 16);
    var digit := ParseInt(pair[1..], 16);
    if whole.Ok? then Some(whole.value)
    else if (pair[0] == '+' || pair[0] == '-') && digit.Ok? then
      Some(if pair[0] == '-' then -digit.value else digit.value)
    else None
  }

  lemma HexDigits(s: string)
    ensures DigitsIn(s, 16) <==> forall k :: 0 <= k < |s| ==> IsHexDigit(s[k])
  {
  }

  lemma OneDigit(s: string)
    requires |s| == 1
    ensures DigitsIn(s, 16) ==> DigitsValue(s, 16) == DigitValue(s[0])
  {
    assert s[..|s| - 1] == [];
  }

  lemma TwoDigits(s: string)
    requires |s| == 2
    ensures DigitsIn(s, 16) ==> DigitsValue(s, 16) == 16 * DigitValue(s[0]) + DigitValue(s[1])
  {
    assert s[..|s| - 1] == s[..1];
    OneDigit(s[..1]);
  }

  /** The bytes of a hex string, pair by pair, up to the first pair that
      is not a number, and the error that pair raises. */
  datatype Decoded = Decoded(bytes: seq<int>, error: Option<Error>)

  function HexPairs(h: string): (r: Decoded)
    requires |h| % 2 == 0
    ensures |r.bytes| <= |h| / 2
    ensures r.error.None? ==> |r.bytes| == |h| / 2
    ensures r.error.Some? ==> r.error.value.InvalidHexByte? && |r.error.value.pair| == 2
    decreases |h|
  {
    if h == [] then Decoded([], None)
    else
      var b := PairValue(h[..2]);
      if b.None? then Decoded([], Some(InvalidHexByte(h[..2])))
      else
        var rest := HexPairs(h[2..]);
        Decoded([b.value] + rest.bytes, rest.error)
  }

  /** Two lower-case hex digits per byte, high digit first. */
  function HexText(bs: seq<Byte>): (h: string)
    ensures |h| == 2 * |bs|
  {
    if bs == [] then "" else [DigitChar(bs[0] / 16), DigitChar(bs[0] % 16)] + HexText(bs[1..])
  }

  lemma {:induction false} HexTextHasNoSpace(bs: seq<Byte>)
    ensures forall k :: 0 <= k < |HexText(bs)| ==> IsHexDigit(HexText(bs)[k]) && !IsSpace(HexText(bs)[k])
  {
    if bs != [] {
      HexTextHasNoSpace(bs[1..]);
      var h := HexText(bs);
      assert h[2..] == HexText(bs[1..]);
      forall k | 0 <= k < |h|
        ensures IsHexDigit(h[k]) && !IsSpace(h[k])
      {
        if k >= 2 {
          assert h[k] == HexText(bs[1..])[k - 2];
        }
      }
    }
  }

  /** The hex text of bytes decodes back to those bytes, with no error. */
  lemma {:induction false} HexTextRoundTrip(bs: seq<Byte>)
    ensures HexPairs(HexText(bs)) == Decoded(bs, None)
  {
    if bs != [] {
      var h := HexText(bs);
      assert h[..2] == [DigitChar(bs[0] / 16), DigitChar(bs[0] % 16)];
      assert h[2..] == HexText(bs[1..]);
      assert PairValue(h[..2]) == Some(bs[0]);
      HexTextRoundTrip(bs[1..]);
      assert [bs[0]] + bs[1..] == bs;
    }
  }

  lemma {:induction false} RemoveSpaceKeeps(s: string)
    requires forall k :: 0 <= k < |s| ==> !IsSpace(s[k])
    ensures RemoveSpace(s) == s
  {
    if s != [] {
      RemoveSpaceKeeps(s[1..]);
      assert [s[0]] + s[1..] == s;
    }
  }

  /** `_process_hex_directive` from token `i` on (directives.py:70-98). A
      string has its whitespace removed and must have an even length; each
      pair emits one byte. A hex number emits its low byte. Other tokens
      are passed over. One comma after each item is skipped. */
  function HexItems(e: Emitter, t: seq<Token>, i: nat): Emitted
    decreases |t| - i
  {
    if i >= |t| then Emitted(e, None)
    else if t[i].kind == String then
      var h := RemoveSpace(Inner(t[i].value));
      if |h| % 2 != 0 then Emitted(e, Some(OddHexString))
      else
        var d := HexPairs(h);
        if d.error.Some? then Emitted(EmitAll(e, d.bytes), d.error)
        else HexItems(EmitAll(e, d.bytes), t, SkipComma(t, i + 1))
    else if t[i].kind == HexNumber then
      var v := ParseNumber(t[i]);
      if v.Err? then Emitted(e, Some(v.error))
      else HexItems(Emit(e, v.value % 256), t, SkipComma(t, i + 1))
    else HexItems(e, t, SkipComma(t, i + 1))
  }

  /** A `!hex` string holding the hex text of some bytes emits exactly
      those bytes, with no error. */
  lemma HexOfHexText(e: Emitter, bs: seq<Byte>, line: int, col: nat)
    ensures HexItems(e, [Token(String, "\"" + HexText(bs) + "\"", line, col)], 0) == Emitted(EmitAll(e, bs), None)
  {
    var v := "\"" + HexText(bs) + "\"";
    assert Inner(v) == HexText(bs);
    HexTextHasNoSpace(bs);
    RemoveSpaceKeeps(HexText(bs));
    HexTextRoundTrip(bs);
  }

  /** A string of odd length (after whitespace is removed) emits nothing
      and stops the directive. */
  lemma OddHexStringFails(e: Emitter, t: seq<Token>, i: nat)
    requires i < |t| && t[i].kind == String && |RemoveSpace(Inner(t[i].value))| % 2 == 1
    ensures HexItems(e, t, i) == Emitted(e, Some(OddHexString))
  {
  }

  // ---- !align (directives.py:100-125) ----

  /** `((pc + a - 1) & ~(a - 1)) - pc`. */
  function AlignPadding(pc: int, a: int): int
  {
    BitAnd(pc + a - 1, Bits.Not(a - 1)) - pc
  }

  /** For a boundary `a` that passes the `a & (a - 1) == 0` test, the
      padding is the one count below `a` that brings the PC to a multiple
      of `a`; it is zero exactly when the PC is already aligned. */
  lemma AlignPaddingReachesBoundary(pc: int, a: int)
    requires a > 0 && BitAnd(a, a - 1) == 0
    ensures 0 <= AlignPadding(pc, a) < a
    ensures (pc + AlignPadding(pc, a)) % a == 0
    ensures AlignPadding(pc, a) == 0 <==> pc % a == 0
  {
    PowerOfTwoTest(a);
    var k :| Pow2(k) == a;
    ClearLowBits(pc + a - 1, k);
    PaddingArithmetic(pc, a);
  }

  lemma PaddingArithmetic(pc: int, a: int)
    requires a > 0
    ensures var pad := a - 1 - (pc + a - 1) % a;
      0 <= pad < a && (pc + pad) % a == 0 && (pad == 0 <==> pc % a == 0)
  {
    var x := pc + a - 1;
    var q := x / a;
    var m := x % a;
    assert x == a * q + m;
    assert pc + (a - 1 - m) == a * q;
    DivModUnique(a * q, a, q, 0);
    if pc % a == 0 {
      assert pc == a * (pc / a);
      DivModUnique(x, a, pc / a, a - 1);
    }
    if m == a - 1 {
      DivModUnique(pc, a, q, 0);
    }
  }

  /** The fill value after the boundary: 0 without a comma, otherwise the
      low byte of the expression after the comma. */
  function AlignFill(t: seq<Token>, j: nat, c: Ctx): (r: Result<int>)
    requires c.store.Valid()
    ensures r.Ok? ==> 0 <= r.value < 256
    ensures !(j < |t| && t[j].kind == Comma) ==> r == Ok(0)
  {
    if j < |t| && t[j].kind == Comma then
      var f := Evaluate(t, j + 1, c);
      if f.Err? then Err(f.error) else Ok(f.value.value % 256)
    else Ok(0)
  }

  /** `_process_align_directive`: no operand, an operand that fails to
      evaluate, and a boundary that is not a positive power of two are
      errors; otherwise the fill byte is emitted `AlignPadding` times. */
  function AlignItems(e: Emitter, t: seq<Token>, start: nat, vars: map<string, int>, st: Store): Emitted
    requires st.Valid()
  {
    if start >= |t| then Emitted(e, Some(AlignRequiresBoundary))
    else
      var c := Ctx(e.pc, vars, st);
      var a := Evaluate(t, start, c);
      if a.Err? then Emitted(e, Some(a.error))
      else if a.value.value <= 0 || BitAnd(a.value.value, a.value.value - 1) != 0 then Emitted(e, Some(AlignNotPowerOfTwo))
      else
        var fill := AlignFill(t, start + a.value.consumed, c);
        if fill.Err? then Emitted(e, Some(fill.error))
        else Emitted(EmitAll(e, Repeat(fill.value, AlignPadding(e.pc, a.value.value))), None)
  }

  /** A successful `!align` outside a pseudo-PC block leaves the PC at the
      next multiple of the boundary, fewer than boundary bytes on, with
      every padding byte the fill value (under the XOR mask). */
  lemma AlignReachesBoundary(e: Emitter, t: seq<Token>, start: nat, vars: map<string, int>, st: Store)
    requires st.Valid() && e.pseudo.None? && AlignItems(e, t, start, vars, st).error.None?
    ensures var a := Evaluate(t, start, Ctx(e.pc, vars, st)).value.value;
      var r := AlignItems(e, t, start, vars, st).e;
      r.pc % a == 0 && e.pc <= r.pc < e.pc + a && (r.pc == e.pc <==> e.pc % a == 0)
    ensures var r := AlignItems(e, t, start, vars, st).e;
      var fill := AlignFill(t, start + Evaluate(t, start, Ctx(e.pc, vars, st)).value.consumed, Ctx(e.pc, vars, st)).value;
      forall x :: e.pc <= x < r.pc ==> x in r.out && r.out[x] == Masked(fill, e.xor)
  {
    var c := Ctx(e.pc, vars, st);
    var a := Evaluate(t, start, c).value;
    var fill := AlignFill(t, start + a.consumed, c).value;
    var pad := AlignPadding(e.pc, a.value);
    assert AlignItems(e, t, start, vars, st).e == EmitAll(e, Repeat(fill, pad));
    AlignPaddingReachesBoundary(e.pc, a.value);
    EmitAllPlain(e, Repeat(fill, pad));
  }

  // ---- !fill, !skip, .org and .ds (directives.py:219-236, 376-395) ----

  /** `!fill count, value` with at least three operand tokens: the count
      is evaluated at the first and the value at the third, whatever the
      count's own length; the value is emitted `count` times. With fewer
      tokens nothing happens. */
  function FillItems(e: Emitter, t: seq<Token>, start: nat, vars: map<string, int>, st: Store): Emitted
    requires st.Valid()
  {
    if start + 2 < |t| then
      var c := Ctx(e.pc, vars, st);
      var count := Evaluate(t, start, c);
      if count.Err? then Emitted(e, Some(count.error))
      else
        var value := Evaluate(t, start + 2, c);
        if value.Err? then Emitted(e, Some(value.error))
        else Emitted(EmitAll(e, Repeat(value.value.value, count.value.value)), None)
    else Emitted(e, None)
  }

  /** A successful `!fill` outside a pseudo-PC block writes the value (under
      the XOR mask) at `count` addresses from the PC, and nothing for a
      count that is not positive. */
  lemma FillWritesCount(e: Emitter, t: seq<Token>, start: nat, vars: map<string, int>, st: Store)
    requires st.Valid() && e.pseudo.None? && start + 2 < |t| && FillItems(e, t, start, vars, st).error.None?
    ensures var c := Ctx(e.pc, vars, st);
      var n := Evaluate(t, start, c).value.value;
      var v := Evaluate(t, start + 2, c).value.value;
      var r := FillItems(e, t, start, vars, st).e;
      r.pc == e.pc + (if n <= 0 then 0 else n) &&
      (forall x :: e.pc <= x < r.pc ==> x in r.out && r.out[x] == Masked(v, e.xor)) &&
      (forall x :: x in e.out && !(e.pc <= x < r.pc) ==> x in r.out && r.out[x] == e.out[x])
  {
    var c := Ctx(e.pc, vars, st);
    EmitAllPlain(e, Repeat(Evaluate(t, start + 2, c).value.value, Evaluate(t, start, c).value.value));
  }

  /** `!skip count` moves the real PC on by `count` (the pseudo-PC is left
      as it is) and writes nothing; without an operand nothing happens. */
  function SkipItems(e: Emitter, t: seq<Token>, start: nat, vars: map<string, int>, st: Store): (r: Emitted)
    requires st.Valid()
    ensures r.e.out == e.out && r.e.pseudo == e.pseudo && r.e.xor == e.xor
    ensures r.error.None? && start < |t| ==> Evaluate(t, start, Ctx(e.pc, vars, st)).Ok? && r.e.pc == e.pc + Evaluate(t, start, Ctx(e.pc, vars, st)).value.value
    ensures r.error.Some? ==> r.e == e
  {
    if start < |t| then
      var count := Evaluate(t, start, Ctx(e.pc, vars, st));
      if count.Err? then Emitted(e, Some(count.error)) else Emitted(e.(pc := e.pc + count.value.value), None)
    else Emitted(e, None)
  }

  /** `.org address` sets the real PC; it needs an operand. */
  function OrgItems(e: Emitter, t: seq<Token>, start: nat, vars: map<string, int>, st: Store): (r: Emitted)
    requires st.Valid()
    ensures r.e.out == e.out && r.e.pseudo == e.pseudo && r.e.xor == e.xor
    ensures start >= |t| ==> r == Emitted(e, Some(ExpectedAddressAfterOrg))
    ensures r.error.None? ==> Evaluate(t, start, Ctx(e.pc, vars, st)).Ok? && r.e.pc == Evaluate(t, start, Ctx(e.pc, vars, st)).value.value
    ensures r.error.Some? ==> r.e == e
  {
    if start < |t| then
      var address := Evaluate(t, start, Ctx(e.pc, vars, st));
      if address.Err? then Emitted(e, Some(address.error)) else Emitted(e.(pc := address.value.value), None)
    else Emitted(e, Some(ExpectedAddressAfterOrg))
  }

  /** `.ds count` emits `count` zero bytes; it needs an operand. */
  function DsItems(e: Emitter, t: seq<Token>, start: nat, vars: map<string, int>, st: Store): (r: Emitted)
    requires st.Valid()
    ensures start >= |t| ==> r == Emitted(e, Some(ExpectedCountAfterDs))
    ensures r.error.Some? ==> r.e == e
    ensures r.error.None? ==> Evaluate(t, start, Ctx(e.pc, vars, st)).Ok? && r.e == EmitAll(e, Repeat(0, Evaluate(t, start, Ctx(e.pc, vars, st)).value.value))
  {
    if start < |t| then
      var count := Evaluate(t, start, Ctx(e.pc, vars, st));
      if count.Err? then Emitted(e, Some(count.error)) else Emitted(EmitAll(e, Repeat(0, count.value.value)), None)
    else Emitted(e, Some(ExpectedCountAfterDs))
  }

  // ---- text directives (directives.py:172-217) ----

  /** `!pet`, `!text`/`!raw` and `!scr`: a string operand is converted
      with the named table and emitted; anything else is ignored. */
  function TextItems(e: Emitter, t: seq<Token>, start: nat, table: Option<seq<int>>): Emitter
  {
    if start < |t| && t[start].kind == String then EmitAll(e, Convert(Inner(t[start].value), table)) else e
  }

  /** `!scrxor "text", mask`: the screen codes XOR the mask, each kept to
      a byte; it needs the string, a comma and a third token. */
  function ScrxorItems(e: Emitter, t: seq<Token>, start: nat, vars: map<string, int>, st: Store, table: Option<seq<int>>): Emitted
    requires st.Valid()
  {
    if start + 2 < |t| && t[start].kind == String && t[start + 1].kind == Comma then
      var mask := Evaluate(t, start + 2, Ctx(e.pc, vars, st));
      if mask.Err? then Emitted(e, Some(mask.error))
      else Emitted(EmitAll(e, XorBytes(Convert(Inner(t[start].value), table), mask.value.value)), None)
    else Emitted(e, None)
  }

  /** `!text` and `!raw` always emit plain character codes: the `raw` name
      selects no table, whatever table `!convtab` chose. */
  lemma RawTextIsCharacterCodes(e: Emitter, t: seq<Token>, start: nat, tables: map<string, seq<int>>)
    requires start < |t| && t[start].kind == String
    ensures TextItems(e, t, start, TableFor("raw", tables)) == EmitAll(e, Ords(Inner(t[start].value)))
  {
  }

  // ---- settings (directives.py:133-149, 242-273) ----

  /** `OutputFormat(name)`: the enumeration's values by name. */
  function FormatNamed(name: string): Option<Output.OutputFormat>
  {
    if name == "plain" then Some(Output.Plain)
    else if name == "cbm" then Some(Output.Cbm)
    else if name == "apple" then Some(Output.Apple)
    else if name == "hex" then Some(Output.Hex)
    else None
  }

  function FormatName(f: Output.OutputFormat): string
  {
    match f
    case Plain => "plain"
    case Cbm => "cbm"
    case Apple => "apple"
    case Hex => "hex"
  }

  /** Each format has exactly one name: looking a name up gives the format
      whose name it is, and nothing for any other string. */
  lemma FormatNamesRoundTrip(name: string, f: Output.OutputFormat)
    ensures FormatNamed(name) == Some(f) <==> name == FormatName(f)
    ensures FormatNamed(FormatName(f)) == Some(f)
  {
  }

  /** `!to "file" [, format]`: the file name and format after the
      directive, and the error for an unknown format name (the file name
      is set before the format is checked). */
  datatype ToResult = ToResult(filename: string, format: Output.OutputFormat, error: Option<Error>)

  function ToSettings(filename: string, format: Output.OutputFormat, t: seq<Token>, start: nat): (r: ToResult)
    ensures !(start < |t| && t[start].kind == String) ==> r == ToResult(filename, format, None)
    ensures start < |t| && t[start].kind == String ==> r.filename == Inner(t[start].value)
    ensures r.error.Some? ==> r.format == format && start + 2 < |t| && r.error.value == UnknownOutputFormat(Lower(t[start + 2].value))
    ensures r.format != format ==> start + 2 < |t| && FormatNamed(Lower(t[start + 2].value)) == Some(r.format)
  {
    if start < |t| && t[start].kind == String then
      var name := Inner(t[start].value);
      if start + 2 < |t| && t[start + 1].kind == Comma && t[start + 2].kind == Identifier then
        var f := FormatNamed(Lower(t[start + 2].value));
        if f.None? then ToResult(name, format, Some(UnknownOutputFormat(Lower(t[start + 2].value))))
        else ToResult(name, f.value, None)
      else ToResult(name, format, None)
    else ToResult(filename, format, None)
  }

  /** The zone name of `!zone`: a string's contents, an identifier, or "". */
  function ZoneName(t: seq<Token>, start: nat): string
  {
    if start < |t| && t[start].kind == String then Inner(t[start].value)
    else if start < |t| && t[start].kind == Identifier then t[start].value
    else ""
  }

  predicate IsCpuPart(tok: Token)
  {
    tok.kind == Identifier || tok.kind == DecNumber
  }

  /** The end of the run of identifier and decimal tokens from `i`. */
  function CpuRunEnd(t: seq<Token>, i: nat): (j: nat)
    requires i <= |t|
    ensures i <= j <= |t|
    ensures forall k :: i <= k < j ==> IsCpuPart(t[k])
    ensures j < |t| ==> !IsCpuPart(t[j])
    decreases |t| - i
  {
    if i < |t| && IsCpuPart(t[i]) then CpuRunEnd(t, i + 1) else i
  }

  /** The CPU type `!cpu` sets: the values of the run of identifier and
      decimal tokens joined together, so that `65c02`, which the tokenizer
      splits into `65` and `c02`, names one CPU; an empty run is an error. */
  function CpuType(t: seq<Token>, start: nat): (r: Result<string>)
    ensures r.Ok? <==> start < |t| && IsCpuPart(t[start])
    ensures r.Err? ==> r.error == ExpectedCpuType
  {
    if start < |t| then
      var j := CpuRunEnd(t, start);
      if j == start then Err(ExpectedCpuType) else Ok(Join(Values(t[start..j]), ""))
    else Err(ExpectedCpuType)
  }

  /** `!cpu 65c02` reaches the CMOS table although the tokenizer splits it. */
  lemma SplitCpuName(line: int, c1: nat, c2: nat)
    ensures var t := [Token(DecNumber, "65", line, c1), Token(Identifier, "c02", line, c2)];
      CpuType(t, 0) == Ok("65c02") && Opcodes.CpuOf("65c02") == Opcodes.Cmos65C02
  {
    var t := [Token(DecNumber, "65", line, c1), Token(Identifier, "c02", line, c2)];
    assert CpuRunEnd(t, 2) == 2;
    assert CpuRunEnd(t, 0) == 2;
    assert t[0..2] == t;
    assert Values(t) == ["65", "c02"];
    assert Join(["c02"], "") == "c02";
    assert Join(["65", "c02"], "") == "65" + "" + "c02";
    assert Lower("65c02") == "65c02";
    assert "65" + "" + "c02" == "65c02";
    assert CpuType(t, 0) == Ok(Join(Values(t[0..2]), ""));
  }

  // ---- debug directives (debug.py:39-115) ----

  /** The outcome of `!warn`, `!error`, `!serious` and `!symbollist`:
      only the argument checks and the fatal `!serious` reach the
      assembler; messages and the symbol list are output. */
  function DebugOutcome(d: string, t: seq<Token>, start: nat): (r: Outcome)
    ensures d == "!serious" ==> r.Fail?
    ensures d == "!warn" ==> (r.Pass? <==> start < |t| && t[start].kind == String)
    ensures d == "!error" ==> (r.Pass? <==> start < |t| && t[start].kind == String)
    ensures d !in {"!warn", "!error", "!serious"} ==> r.Pass?
  {
    var message := start < |t| && t[start].kind == String;
    if d == "!warn" then
      (if start >= |t| then Fail(WarnRequiresMessage) else if !message then Fail(WarnRequiresString) else Pass)
    else if d == "!error" then
      (if !message then Fail(ErrorRequiresMessage) else Pass)
    else if d == "!serious" then
      (if !message then Fail(SeriousRequiresMessage) else Fail(SeriousError(Inner(t[start].value))))
    else Pass
  }

  // ---- the dispatch table of process_acme_directive (directives.py:127-358) ----

  datatype CondDirective = IfDir | IfdefDir | IfndefDir | ElseDir | FiDir
  datatype LoopDirective = SetDir | ForDir | WhileDir | DoDir | OdDir | UntilDir

  /** What a (lower-cased) ACME directive name selects. */
  datatype AcmeKind =
    | To
    | Data(size: nat, little: bool)
    | Text(table: string)
    | Convtab
    | Scrxor
    | Fill
    | HexData
    | Skip
    | Align
    | NewZone
    | AddressMark
    | CpuSelect
    | Cond(c: CondDirective)
    | Loop(l: LoopDirective)
    | MacroDef
    | Source
    | Binary
    | SegmentDir(s: Directive)
    | Realpc
    | Debug(name: string)

  /** The branches of `process_acme_directive`, in the source's order. */
  function Classify(d: string): Option<AcmeKind>
  {
    if d == "!to" then Some(To)
    else if d == "!byte" || d == "!8" then Some(Data(1, true))
    else if d == "!word" || d == "!16" || d == "!le16" then Some(Data(2, true))
    else if d == "!be16" then Some(Data(2, false))
    else if d == "!24" || d == "!le24" then Some(Data(3, true))
    else if d == "!be24" then Some(Data(3, false))
    else if d == "!32" || d == "!le32" then Some(Data(4, true))
    else if d == "!be32" then Some(Data(4, false))
    else if d == "!pet" then Some(Text("pet"))
    else if d == "!text" || d == "!raw" then Some(Text("raw"))
    else if d == "!convtab" || d == "!ct" then Some(Convtab)
    else if d == "!scr" then Some(Text("scr"))
    else if d == "!scrxor" then Some(Scrxor)
    else if d == "!fill" then Some(Fill)
    else if d == "!hex" || d == "!h" then Some(HexData)
    else if d == "!skip" then Some(Skip)
    else if d == "!align" then Some(Align)
    else if d == "!zone" then Some(NewZone)
    else if d == "!address" || d == "!addr" then Some(AddressMark)
    else if d == "!cpu" then Some(CpuSelect)
    else if d == "!if" then Some(Cond(IfDir))
    else if d == "!ifdef" then Some(Cond(IfdefDir))
    else if d == "!ifndef" then Some(Cond(IfndefDir))
    else if d == "!else" then Some(Cond(ElseDir))
    else if d == "!fi" then Some(Cond(FiDir))
    else if d == "!set" then Some(Loop(SetDir))
    else if d == "!for" then Some(Loop(ForDir))
    else if d == "!while" then Some(Loop(WhileDir))
    else if d == "!do" then Some(Loop(DoDir))
    else if d == "!od" then Some(Loop(OdDir))
    else if d == "!until" then Some(Loop(UntilDir))
    else if d == "!macro" then Some(MacroDef)
    else if d == "!source" || d == "!src" then Some(Source)
    else if d == "!binary" || d == "!bin" then Some(Binary)
    else if d == "!pseudopc" then Some(SegmentDir(PseudopcDir))
    else if d == "!realpc" then Some(Realpc)
    else if d == "!initmem" then Some(SegmentDir(InitmemDir))
    else if d == "!xor" then Some(SegmentDir(XorDir))
    else if d == "!warn" || d == "!error" || d == "!serious" then Some(Debug(d))
    else if d == "!symbollist" || d == "!sl" then Some(Debug("!symbollist"))
    else None
  }

  /** The data directives and their sizes and byte orders: `!byte`/`!8`,
      `!word`/`!16`/`!le16`, `!24`/`!le24` and `!32`/`!le32` little-endian,
      `!be16`, `!be24` and `!be32` big-endian. */
  lemma DataDirectiveFormats()
    ensures Classify("!byte") == Some(Data(1, true)) && Classify("!8") == Some(Data(1, true))
    ensures Classify("!word") == Some(Data(2, true)) && Classify("!16") == Some(Data(2, true)) && Classify("!le16") == Some(Data(2, true))
    ensures Classify("!be16") == Some(Data(2, false))
    ensures Classify("!24") == Some(Data(3, true)) && Classify("!le24") == Some(Data(3, true))
    ensures Classify("!be24") == Some(Data(3, false))
    ensures Classify("!32") == Some(Data(4, true)) && Classify("!le32") == Some(Data(4, true))
    ensures Classify("!be32") == Some(Data(4, false))
  {
  }

  /** Every data kind the table selects has a size from 1 to 4, so that
      each numeric item emits exactly that many bytes (ValueBytesShape). */
  lemma DataSizesInRange(d: string)
    requires Classify(d).Some? && Classify(d).value.Data?
    ensures 1 <= Classify(d).value.size <= 4
  {
  }

  /** The conditional directives that answer with their own token count. */
  predicate OwnCount(k: AcmeKind)
  {
    k.Cond? && k.c in {IfDir, IfdefDir, IfndefDir}
  }

  // ---- the directives over the assembler ----

  /** What emitting bytes leaves alone: the symbols, the settings, the
      macro collection and the segment manager's other state. */
  function Others(asm: Assembler6502): (Store, Settings, Collection, (seq<Segment>, seq<(int, int)>, Option<Byte>))
    reads asm, asm.segments
  {
    (asm.store, asm.CurrentSettings(), asm.Collecting(), asm.SegmentRest())
  }

  /** The `for byte_val in ...: asm.emit_byte(byte_val)` loops. */
  method EmitValues(asm: Assembler6502, values: seq<int>)
    modifies asm, asm.segments
    ensures asm.EmitterState() == EmitAll(old(asm.EmitterState()), values)
    ensures Others(asm) == old(Others(asm))
  {
    ghost var e0 := asm.EmitterState();
    for k := 0 to |values|
      invariant asm.EmitterState() == EmitAll(e0, values[..k])
      invariant Others(asm) == old(Others(asm))
    {
      EmitAllAppend(e0, values[..k], [values[k]]);
      EmitAllOne(EmitAll(e0, values[..k]), values[k]);
      asm.EmitByte(values[k]);
      assert values[..k + 1] == values[..k] + [values[k]];
    }
    assert values[..|values|] == values;
  }

  /** The `for _ in range(count): asm.emit_byte(value)` loops; a count
      that is not positive emits nothing. */
  method EmitRepeated(asm: Assembler6502, value: int, count: int)
    modifies asm, asm.segments
    ensures asm.EmitterState() == EmitAll(old(asm.EmitterState()), Repeat(value, count))
    ensures Others(asm) == old(Others(asm))
  {
    ghost var e0 := asm.EmitterState();
    var n := if count < 0 then 0 else count;
    for k := 0 to n
      invariant asm.EmitterState() == EmitAll(e0, Repeat(value, k))
      invariant Others(asm) == old(Others(asm))
    {
      RepeatSnoc(value, k);
      EmitAllAppend(e0, Repeat(value, k), [value]);
      EmitAllOne(EmitAll(e0, Repeat(value, k)), value);
      asm.EmitByte(value);
    }
  }

  /** One step of `DataItems` on a string or character item. */
  lemma DataItemsTextStep(e: Emitter, t: seq<Token>, i: nat, size: nat, little: bool, vars: map<string, int>, st: Store)
    requires st.Valid() && i < |t| && (t[i].kind == String || t[i].kind == Char)
    ensures DataItems(e, t, i, size, little, vars, st)
      == DataItems(EmitAll(e, Ords(Inner(t[i].value))), t, SkipComma(t, i + 1), size, little, vars, st)
  {
  }

  /** One step of `DataItems` on an expression that fails to evaluate. */
  lemma DataItemsErrorStep(e: Emitter, t: seq<Token>, i: nat, size: nat, little: bool, vars: map<string, int>, st: Store)
    requires st.Valid() && i < |t| && t[i].kind != String && t[i].kind != Char
    requires Evaluate(t, i, Ctx(e.pc, vars, st)).Err?
    ensures DataItems(e, t, i, size, little, vars, st) == Emitted(e, Some(Evaluate(t, i, Ctx(e.pc, vars, st)).error))
  {
  }

  /** One step of `DataItems` on an expression item. */
  lemma DataItemsValueStep(e: Emitter, t: seq<Token>, i: nat, size: nat, little: bool, vars: map<string, int>, st: Store)
    requires st.Valid() && i < |t| && t[i].kind != String && t[i].kind != Char
    requires Evaluate(t, i, Ctx(e.pc, vars, st)).Ok?
    ensures var p := Evaluate(t, i, Ctx(e.pc, vars, st)).value;
      DataItems(e, t, i, size, little, vars, st)
        == DataItems(EmitAll(e, ValueBytes(p.value, size, little)), t, SkipComma(t, i + p.consumed), size, little, vars, st)
  {
    var p := Evaluate(t, i, Ctx(e.pc, vars, st));
    assert p.Ok? && !(i >= |t|) && !(t[i].kind == String || t[i].kind == Char);
    var e1 := EmitAll(e, ValueBytes(p.value.value, size, little));
    assert DataItems(e, t, i, size, little, vars, st) == DataItems(e1, t, SkipComma(t, i + p.value.consumed), size, little, vars, st);
  }

  /** One item of `_process_data_directive`: a string or character, or a
      value emitted in `size` bytes; `next` is the token after it and its comma. */
  method ProcessDataItem(asm: Assembler6502, t: seq<Token>, i: nat, size: nat, little: bool) returns (next: nat, err: Option<Error>)
    requires asm.Valid() && i < |t|
    modifies asm, asm.segments
    ensures Others(asm) == old(Others(asm)) && asm.Valid()
    ensures i < next
    ensures err.Some? ==> asm.EmitterState() == old(asm.EmitterState())
    ensures err.Some? ==> DataItems(asm.EmitterState(), t, i, size, little, asm.loops.variables, asm.store) == Emitted(asm.EmitterState(), err)
    ensures err.None? ==>
      DataItems(old(asm.EmitterState()), t, i, size, little, asm.loops.variables, asm.store)
        == DataItems(asm.EmitterState(), t, next, size, little, asm.loops.variables, asm.store)
  {
    ghost var e0 := asm.EmitterState();
    ghost var vars, st := asm.loops.variables, asm.store;
    if t[i].kind == String || t[i].kind == Char {
      DataItemsTextStep(e0, t, i, size, little, vars, st);
      EmitValues(asm, Ords(Inner(t[i].value)));
      next := SkipComma(t, i + 1);
      assert asm.EmitterState() == EmitAll(e0, Ords(Inner(t[i].value)));
    } else {
      var p := Evaluate(t, i, asm.Context());
      if p.Err? {
        DataItemsErrorStep(e0, t, i, size, little, vars, st);
        return i + 1, Some(p.error);
      }
      DataItemsValueStep(e0, t, i, size, little, vars, st);
      EmitValues(asm, ValueBytes(p.value.value, size, little));
      next := SkipComma(t, i + p.value.consumed);
      assert asm.EmitterState() == EmitAll(e0, ValueBytes(p.value.value, size, little));
    }
    err := None;
  }

  /** `_process_data_directive` (directives.py:16-68). */
  method ProcessDataDirective(asm: Assembler6502, t: seq<Token>, start: nat, size: nat, little: bool) returns (r: Outcome)
    requires asm.Valid()
    modifies asm, asm.segments
    ensures var spec := DataItems(old(asm.EmitterState()), t, start, size, little, asm.loops.variables, old(asm.store));
      asm.EmitterState() == spec.e && r == OutcomeOf(spec.error)
    ensures Others(asm) == old(Others(asm))
  {
    ghost var spec := DataItems(asm.EmitterState(), t, start, size, little, asm.loops.variables, asm.store);
    var i := start;
    while i < |t|
      invariant asm.Valid() && Others(asm) == old(Others(asm))
      invariant DataItems(asm.EmitterState(), t, i, size, little, asm.loops.variables, asm.store) == spec
      decreases |t| - i
    {
      var err;
      i, err := ProcessDataItem(asm, t, i, size, little);
      if err.Some? {
        return Fail(err.value);
      }
    }
    return Pass;
  }

  /** One step of `HexPairs` at an even offset. */
  lemma HexPairsAt(h: string, j: nat)
    requires |h| % 2 == 0 && j % 2 == 0 && j + 2 <= |h|
    ensures h[j..][..2] == h[j..j + 2] && h[j..][2..] == h[j + 2..]
    ensures (j + 2) % 2 == 0 && |h[j + 2..]| % 2 == 0
    ensures var b := PairValue(h[j..j + 2]);
      HexPairs(h[j..]) == if b.None? then Decoded([], Some(InvalidHexByte(h[j..j + 2])))
        else Decoded([b.value] + HexPairs(h[j + 2..]).bytes, HexPairs(h[j + 2..]).error)
  {
    assert h[j..][..2] == h[j..j + 2] && h[j..][2..] == h[j + 2..];
  }

  /** The pair loop of `_process_hex_directive` (directives.py:83-89). */
  method EmitHexPairs(asm: Assembler6502, h: string) returns (r: Outcome)
    requires |h| % 2 == 0
    modifies asm, asm.segments
    ensures asm.EmitterState() == EmitAll(old(asm.EmitterState()), HexPairs(h).bytes)
    ensures r == OutcomeOf(HexPairs(h).error)
    ensures Others(asm) == old(Others(asm))
  {
    ghost var spec := HexPairs(h);
    ghost var e1 := EmitAll(asm.EmitterState(), spec.bytes);
    assert h[0..] == h;
    var j := 0;
    while j < |h|
      invariant 0 <= j <= |h| && j % 2 == 0 && |h[j..]| % 2 == 0
      invariant EmitAll(asm.EmitterState(), HexPairs(h[j..]).bytes) == e1
      invariant HexPairs(h[j..]).error == spec.error
      invariant Others(asm) == old(Others(asm))
    {
      var pair := h[j..j + 2];
      HexPairsAt(h, j);
      var b := PairValue(pair);
      if b.None? {
        return Fail(InvalidHexByte(pair));
      }
      ghost var rest := HexPairs(h[j + 2..]).bytes;
      assert ([b.value] + rest)[1..] == rest;
      asm.EmitByte(b.value);
      j := j + 2;
    }
    assert h[j..] == [];
    return Pass;
  }

  /** `_process_hex_directive` (directives.py:70-98). */
  method ProcessHexDirective(asm: Assembler6502, t: seq<Token>, start: nat) returns (r: Outcome)
    modifies asm, asm.segments
    ensures var spec := HexItems(old(asm.EmitterState()), t, start);
      asm.EmitterState() == spec.e && r == OutcomeOf(spec.error)
    ensures Others(asm) == old(Others(asm))
  {
    ghost var spec := HexItems(asm.EmitterState(), t, start);
    var i := start;
    while i < |t|
      invariant Others(asm) == old(Others(asm))
      invariant HexItems(asm.EmitterState(), t, i) == spec
      decreases |t| - i
    {
      if t[i].kind == String {
        var h := RemoveSpace(Inner(t[i].value));
        if |h| % 2 != 0 {
          return Fail(OddHexString);
        }
        r := EmitHexPairs(asm, h);
        if r.Fail? {
          return;
        }
      } else if t[i].kind == HexNumber {
        var v := ParseNumber(t[i]);
        if v.Err? {
          return Fail(v.error);
        }
        asm.EmitByte(v.value % 256);
      }
      i := i + 1;
      if i < |t| && t[i].kind == Comma {
        i := i + 1;
      }
    }
    return Pass;
  }

  /** `_process_align_directive` (directives.py:100-125). */
  method ProcessAlignDirective(asm: Assembler6502, t: seq<Token>, start: nat) returns (r: Outcome)
    requires asm.Valid()
    modifies asm, asm.segments
    ensures var spec := AlignItems(old(asm.EmitterState()), t, start, asm.loops.variables, old(asm.store));
      asm.EmitterState() == spec.e && r == OutcomeOf(spec.error)
    ensures Others(asm) == old(Others(asm))
  {
    if start >= |t| {
      return Fail(AlignRequiresBoundary);
    }
    var a := Evaluate(t, start, asm.Context());
    if a.Err? {
      return Fail(a.error);
    }
    var alignment := a.value.value;
    if alignment <= 0 || BitAnd(alignment, alignment - 1) != 0 {
      return Fail(AlignNotPowerOfTwo);
    }
    var fill := AlignFill(t, start + a.value.consumed, asm.Context());
    if fill.Err? {
      return Fail(fill.error);
    }
    ghost var e0 := asm.EmitterState();
    assert AlignItems(e0, t, start, asm.loops.variables, asm.store)
      == Emitted(EmitAll(e0, Repeat(fill.value, AlignPadding(e0.pc, alignment))), None);
    EmitRepeated(asm, fill.value, AlignPadding(asm.pc, alignment));
    return Pass;
  }

  /** The `!fill` branch (directives.py:219-226). */
  method ProcessFillDirective(asm: Assembler6502, t: seq<Token>, start: nat) returns (r: Outcome)
    requires asm.Valid()
    modifies asm, asm.segments
    ensures var spec := FillItems(old(asm.EmitterState()), t, start, asm.loops.variables, old(asm.store));
      asm.EmitterState() == spec.e && r == OutcomeOf(spec.error)
    ensures Others(asm) == old(Others(asm))
  {
    if start + 2 < |t| {
      var count := Evaluate(t, start, asm.Context());
      if count.Err? {
        return Fail(count.error);
      }
      var value := Evaluate(t, start + 2, asm.Context());
      if value.Err? {
        return Fail(value.error);
      }
      EmitRepeated(asm, value.value.value, count.value.value);
    }
    return Pass;
  }

  /** The `!skip` branch (directives.py:232-236). */
  method ProcessSkipDirective(asm: Assembler6502, t: seq<Token>, start: nat) returns (r: Outcome)
    requires asm.Valid()
    modifies asm
    ensures var spec := SkipItems(old(asm.EmitterState()), t, start, asm.loops.variables, old(asm.store));
      asm.EmitterState() == spec.e && r == OutcomeOf(spec.error)
    ensures Others(asm) == old(Others(asm))
  {
    if start < |t| {
      var count := Evaluate(t, start, asm.Context());
      if count.Err? {
        return Fail(count.error);
      }
      asm.pc := asm.pc + count.value.value;
    }
    return Pass;
  }

  /** The `.org` branch of `process_directive` (directives.py:376-382). */
  method ProcessOrgDirective(asm: Assembler6502, t: seq<Token>, start: nat) returns (r: Outcome)
    requires asm.Valid()
    modifies asm
    ensures var spec := OrgItems(old(asm.EmitterState()), t, start, asm.loops.variables, old(asm.store));
      asm.EmitterState() == spec.e && r == OutcomeOf(spec.error)
    ensures Others(asm) == old(Others(asm))
  {
    if start >= |t| {
      return Fail(ExpectedAddressAfterOrg);
    }
    var address := Evaluate(t, start, asm.Context());
    if address.Err? {
      return Fail(address.error);
    }
    asm.pc := address.value.value;
    return Pass;
  }

  /** The `.ds` branch of `process_directive` (directives.py:388-395). */
  method ProcessDsDirective(asm: Assembler6502, t: seq<Token>, start: nat) returns (r: Outcome)
    requires asm.Valid()
    modifies asm, asm.segments
    ensures var spec := DsItems(old(asm.EmitterState()), t, start, asm.loops.variables, old(asm.store));
      asm.EmitterState() == spec.e && r == OutcomeOf(spec.error)
    ensures Others(asm) == old(Others(asm))
  {
    if start >= |t| {
      return Fail(ExpectedCountAfterDs);
    }
    var count := Evaluate(t, start, asm.Context());
    if count.Err? {
      return Fail(count.error);
    }
    EmitRepeated(asm, 0, count.value.value);
    return Pass;
  }

  /** The `!pet`, `!text`/`!raw` and `!scr` branches (directives.py:172-186,
      200-206): the string is converted with the named table. */
  method ProcessTextDirective(asm: Assembler6502, table: string, t: seq<Token>, start: nat)
    requires table != ""
    modifies asm, asm.segments
    ensures asm.EmitterState() == TextItems(old(asm.EmitterState()), t, start, TableFor(table, asm.text.customTables))
    ensures Others(asm) == old(Others(asm))
  {
    if start < |t| && t[start].kind == String {
      var codes := asm.text.ConvertString(Inner(t[start].value), Some(table));
      EmitValues(asm, codes);
    }
  }

  /** The `!scrxor` branch (directives.py:208-217). */
  method ProcessScrxorDirective(asm: Assembler6502, t: seq<Token>, start: nat) returns (r: Outcome)
    requires asm.Valid()
    modifies asm, asm.segments
    ensures var spec := ScrxorItems(old(asm.EmitterState()), t, start, asm.loops.variables, old(asm.store), TableFor("scr", asm.text.customTables));
      asm.EmitterState() == spec.e && r == OutcomeOf(spec.error)
    ensures Others(asm) == old(Others(asm))
  {
    if start + 2 < |t| && t[start].kind == String && t[start + 1].kind == Comma {
      var mask := Evaluate(t, start + 2, asm.Context());
      if mask.Err? {
        return Fail(mask.error);
      }
      var codes := asm.text.ConvertStringWithXor(Inner(t[start].value), mask.value.value, Some("scr"));
      EmitValues(asm, codes);
    }
    return Pass;
  }

  /** The table name `!convtab` takes: a string's contents or an identifier. */
  function TableArgument(t: seq<Token>, start: nat): Option<string>
  {
    if start < |t| && t[start].kind == String then Some(Inner(t[start].value))
    else if start < |t| && t[start].kind == Identifier then Some(t[start].value)
    else None
  }

  /** The `!convtab`/`!ct` branch (directives.py:188-198). */
  method ProcessConvtabDirective(asm: Assembler6502, t: seq<Token>, start: nat) returns (r: Outcome)
    modifies asm.text
    ensures TableArgument(t, start).None? ==> r.Pass? && asm.text.currentTable == old(asm.text.currentTable)
    ensures TableArgument(t, start).Some? ==>
      var name := TableArgument(t, start).value;
      (r.Pass? <==> name in ["raw", "pet", "scr"] || name in old(asm.text.customTables)) &&
      (r.Fail? ==> r.error == UnknownConversionTable(name)) &&
      asm.text.currentTable == (if r.Pass? then name else old(asm.text.currentTable))
    ensures asm.text.customTables == old(asm.text.customTables)
  {
    var name := TableArgument(t, start);
    if name.Some? {
      var ok := asm.text.SetConversionTable(name.value);
      if !ok {
        return Fail(UnknownConversionTable(name.value));
      }
    }
    return Pass;
  }

  /** The `!to` branch (directives.py:133-149). */
  method ProcessToDirective(asm: Assembler6502, t: seq<Token>, start: nat) returns (r: Outcome)
    modifies asm
    ensures var s := ToSettings(old(asm.outputFilename), old(asm.outputFormat), t, start);
      asm.outputFilename == s.filename && asm.outputFormat == s.format && r == OutcomeOf(s.error)
    ensures asm.pc == old(asm.pc) && asm.outputDict == old(asm.outputDict) && asm.store == old(asm.store)
    ensures asm.cpuType == old(asm.cpuType) && asm.cpu == old(asm.cpu) && asm.currentLine == old(asm.currentLine)
    ensures asm.Collecting() == old(asm.Collecting())
  {
    if start < |t| && t[start].kind == String {
      asm.outputFilename := Inner(t[start].value);
      if start + 2 < |t| && t[start + 1].kind == Comma && t[start + 2].kind == Identifier {
        var name := Lower(t[start + 2].value);
        var format := FormatNamed(name);
        if format.None? {
          return Fail(UnknownOutputFormat(name));
        }
        asm.outputFormat := format.value;
      }
    }
    return Pass;
  }

  /** The `!zone` branch (directives.py:242-250). */
  method ProcessZoneDirective(asm: Assembler6502, t: seq<Token>, start: nat)
    requires asm.Valid()
    modifies asm
    ensures asm.Valid() && asm.store == Symbols.CreateZone(old(asm.store), ZoneName(t, start))
    ensures asm.pc == old(asm.pc) && asm.outputDict == old(asm.outputDict)
    ensures asm.CurrentSettings() == old(asm.CurrentSettings()) && asm.Collecting() == old(asm.Collecting())
  {
    asm.CreateZone(ZoneName(t, start));
  }

  /** The `!cpu` branch (directives.py:257-273): the run of identifier and
      decimal tokens is gathered in a loop and joined. */
  method ProcessCpuDirective(asm: Assembler6502, t: seq<Token>, start: nat) returns (r: Outcome)
    modifies asm
    ensures CpuType(t, start).Err? ==> r == Fail(ExpectedCpuType) && asm.cpuType == old(asm.cpuType) && asm.cpu == old(asm.cpu)
    ensures CpuType(t, start).Ok? ==> r.Pass? && asm.cpuType == CpuType(t, start).value && asm.cpu == Opcodes.CpuOf(asm.cpuType)
    ensures asm.pc == old(asm.pc) && asm.outputDict == old(asm.outputDict) && asm.store == old(asm.store)
    ensures asm.currentLine == old(asm.currentLine) && asm.outputFormat == old(asm.outputFormat)
    ensures asm.outputFilename == old(asm.outputFilename) && asm.Collecting() == old(asm.Collecting())
  {
    if start >= |t| {
      return Fail(ExpectedCpuType);
    }
    var parts: seq<string> := [];
    var i := start;
    while i < |t| && IsCpuPart(t[i])
      invariant start <= i <= |t|
      invariant parts == Values(t[start..i])
      invariant CpuRunEnd(t, start) == CpuRunEnd(t, i)
      decreases |t| - i
    {
      assert Values(t[start..i + 1]) == Values(t[start..i]) + [t[i].value];
      parts := parts + [t[i].value];
      i := i + 1;
    }
    if parts == [] {
      return Fail(ExpectedCpuType);
    }
    asm.cpuType := Join(parts, "");
    asm.UpdateInstructions();
    return Pass;
  }

  // ---- the directive groups dispatched by process_acme_directive ----

  /** The kinds whose only effect is on the emitted bytes and the PC. */
  predicate Emitting(k: AcmeKind)
  {
    k.Data? || k.Text? || k.Scrxor? || k.Fill? || k.HexData? || k.Skip? || k.Align?
  }

  /** What an emitting directive emits and whether it fails, from the
      emitter state, the tokens after the directive, the loop variables,
      the symbols and the custom conversion tables. */
  function EmitEffect(k: AcmeKind, e: Emitter, t: seq<Token>, start: nat, vars: map<string, int>, st: Store, tables: map<string, seq<int>>): Emitted
    requires st.Valid()
  {
    match k
    case Data(size, little) => DataItems(e, t, start, size, little, vars, st)
    case Text(table) => Emitted(TextItems(e, t, start, TableFor(table, tables)), None)
    case Scrxor => ScrxorItems(e, t, start, vars, st, TableFor("scr", tables))
    case Fill => FillItems(e, t, start, vars, st)
    case HexData => HexItems(e, t, start)
    case Skip => SkipItems(e, t, start, vars, st)
    case Align => AlignItems(e, t, start, vars, st)
    case _ => Emitted(e, None)
  }

  /** The data, text, `!scrxor`, `!fill`, `!hex`, `!skip` and `!align`
      branches (directives.py:151-240). */
  method ProcessEmittingDirective(asm: Assembler6502, k: AcmeKind, t: seq<Token>, start: nat) returns (r: Outcome)
    requires asm.Valid() && Emitting(k) && (k.Text? ==> k.table != "")
    modifies asm, asm.segments
    ensures var spec := EmitEffect(k, old(asm.EmitterState()), t, start, asm.loops.variables, old(asm.store), asm.text.customTables);
      asm.EmitterState() == spec.e && r == OutcomeOf(spec.error)
    ensures Others(asm) == old(Others(asm))
  {
    match k {
      case Data(size, little) => r := ProcessDataDirective(asm, t, start, size, little);
      case Text(table) => ProcessTextDirective(asm, table, t, start); r := Pass;
      case Scrxor => r := ProcessScrxorDirective(asm, t, start);
      case Fill => r := ProcessFillDirective(asm, t, start);
      case HexData => r := ProcessHexDirective(asm, t, start);
      case Skip => r := ProcessSkipDirective(asm, t, start);
      case Align => r := ProcessAlignDirective(asm, t, start);
    }
  }

  /** The `!if`, `!ifdef`, `!ifndef`, `!else` and `!fi` branches
      (directives.py:276-293): the opening directives answer with the
      tokens they used, the others with the rest of the line. */
  method ProcessConditionalDirective(asm: Assembler6502, c: CondDirective, t: seq<Token>, start: nat) returns (r: Result<int>)
    requires asm.Valid()
    modifies asm.conditionals
    ensures ConditionalEffect(asm, c, t, start, r)
  {
    match c {
      case IfDir =>
        var o := asm.conditionals.ProcessIfDirective(t, start, asm.Context(), asm.currentLine);
        r := if o.Err? then Err(o.error) else Ok(o.value.1);
      case IfdefDir =>
        var o := asm.conditionals.ProcessIfdefDirective(t, start, asm.store, asm.currentLine, false);
        r := if o.Err? then Err(o.error) else Ok(o.value.1);
      case IfndefDir =>
        var o := asm.conditionals.ProcessIfdefDirective(t, start, asm.store, asm.currentLine, true);
        r := if o.Err? then Err(o.error) else Ok(o.value.1);
      case ElseDir =>
        var o := asm.conditionals.ProcessElseDirective(asm.currentLine);
        r := if o.Err? then Err(o.error) else Ok(|t| - start);
      case FiDir =>
        var o := asm.conditionals.ProcessFiDirective();
        r := if o.Fail? then Err(o.error) else Ok(|t| - start);
    }
  }

  /** What a conditional directive does: the transition of the conditional
      state, kept on an error, and the count answered, which for `!if`,
      `!ifdef` and `!ifndef` is their own. */
  twostate predicate ConditionalEffect(asm: Assembler6502, c: CondDirective, t: seq<Token>, start: nat, new r: Result<int>)
    requires old(asm.Valid())
    reads asm, asm.conditionals
  {
    var s0 := old(asm.conditionals.State());
    (c == IfDir ==>
      var spec := IfDirective(s0, t, start, old(asm.Context()), old(asm.currentLine));
      (spec.Err? ==> r == Err(spec.error) && asm.conditionals.State() == s0) &&
      (spec.Ok? ==> r == Ok(spec.value.consumed) && asm.conditionals.State() == spec.value.state)) &&
    (c == IfdefDir || c == IfndefDir ==>
      var spec := IfdefDirective(s0, t, start, old(asm.store), old(asm.currentLine), c == IfndefDir);
      (spec.Err? ==> r == Err(spec.error) && asm.conditionals.State() == s0) &&
      (spec.Ok? ==> r == Ok(spec.value.consumed) && asm.conditionals.State() == spec.value.state)) &&
    (c == ElseDir ==>
      var spec := Else(s0, old(asm.currentLine));
      (spec.Err? ==> r == Err(spec.error) && asm.conditionals.State() == s0) &&
      (spec.Ok? ==> r == Ok(|t| - start) && asm.conditionals.State() == spec.value.0)) &&
    (c == FiDir ==>
      var spec := Fi(s0);
      (spec.Err? ==> r == Err(spec.error) && asm.conditionals.State() == s0) &&
      (spec.Ok? ==> r == Ok(|t| - start) && asm.conditionals.State() == spec.value))
  }

  /** The lines a loop body processes are never gathered (`body_lines`
      stays empty), so running a body changes nothing. */
  function NoLines(lines: seq<string>, c: Ctx): Result<Ctx>
  {
    Ok(c)
  }

  lemma NoLinesKeepsValid()
    ensures KeepsValid(NoLines)
  {
  }

  /** What the loop directives do: `!set` assigns, `!for`, `!while` and `!do`
      open a loop, `!od` runs the innermost for-loop, or else the innermost
      while-loop, and `!until` the innermost do-loop; a completed run pops
      its loop and leaves the variables of the run. */
  twostate predicate LoopEffect(asm: Assembler6502, l: LoopDirective, t: seq<Token>, start: nat, new r: Outcome)
    requires old(asm.Valid())
    reads asm, asm.loops
  {
    NoLinesKeepsValid();
    var c := old(asm.Context());
    var fs := old(asm.loops.forLoops);
    var ws := old(asm.loops.whileLoops);
    var ds := old(asm.loops.doLoops);
    (l == SetDir ==>
      var spec := SetDirective(t, start, c);
      (spec.Err? ==> r == Fail(spec.error) && asm.loops.variables == old(asm.loops.variables)) &&
      (spec.Ok? ==> r.Pass? && asm.loops.variables == old(asm.loops.variables)[spec.value.0 := spec.value.1])) &&
    (l == ForDir ==>
      var spec := ForDirective(t, start, c, old(asm.currentLine));
      (spec.Err? ==> r == Fail(spec.error) && asm.loops.forLoops == fs) &&
      (spec.Ok? ==> r.Pass? && asm.loops.forLoops == fs + [spec.value])) &&
    (l == WhileDir ==>
      (start >= |t| ==> r == Fail(WhileRequiresCondition) && asm.loops.whileLoops == ws) &&
      (start < |t| ==> r.Pass? && asm.loops.whileLoops == ws + [WhileLoop(t[start..], old(asm.currentLine), [])])) &&
    (l == DoDir ==> r.Pass? && asm.loops.doLoops == ds + [DoLoop(old(asm.currentLine), [], None, None)]) &&
    (l == OdDir && fs == [] && ws == [] ==> r == Fail(OdWithoutLoop)) &&
    (l == OdDir && fs != [] ==>
      var spec := ForSpec(fs[|fs| - 1], c, NoLines);
      (spec.Err? ==> r == Fail(spec.error) && asm.loops.forLoops == fs) &&
      (spec.Ok? ==> r.Pass? && asm.loops.variables == spec.value.ctx.vars && asm.loops.forLoops == fs[..|fs| - 1]) &&
      asm.loops.whileLoops == ws) &&
    (l == OdDir && fs == [] && ws != [] ==>
      var w := ws[|ws| - 1];
      var spec := WhileExec(w.conditionTokens, 0, c, w.bodyLines, NoLines);
      (spec.Err? ==> r == Fail(spec.error) && asm.loops.whileLoops == ws) &&
      (spec.Ok? ==> r.Pass? && asm.loops.variables == spec.value.ctx.vars && asm.loops.whileLoops == ws[..|ws| - 1]) &&
      asm.loops.forLoops == fs) &&
    (l == UntilDir && ds == [] ==> r == Fail(UntilWithoutDo) && asm.loops.doLoops == ds) &&
    (l == UntilDir && ds != [] && start >= |t| ==> r == Fail(UntilRequiresCondition) && asm.loops.doLoops == ds) &&
    (l == UntilDir && ds != [] && start < |t| ==>
      var top := ds[|ds| - 1];
      var spec := DoExec(t[start..], DoUntil, 0, c, top.bodyLines, NoLines);
      (spec.Err? ==>
         r == Fail(spec.error) &&
         asm.loops.doLoops == ds[..|ds| - 1] + [top.(conditionTokens := Some(t[start..]), loopType := Some(DoUntil))]) &&
      (spec.Ok? ==> r.Pass? && asm.loops.variables == spec.value.ctx.vars && asm.loops.doLoops == ds[..|ds| - 1]))
  }

  /** The `!set`, `!for`, `!while`, `!do`, `!od` and `!until` branches
      (directives.py:295-315). */
  method ProcessLoopDirective(asm: Assembler6502, l: LoopDirective, t: seq<Token>, start: nat) returns (r: Outcome)
    requires asm.Valid()
    modifies asm.loops
    ensures LoopEffect(asm, l, t, start, r)
  {
    var c := asm.Context();
    match l {
      case SetDir => r := asm.loops.ProcessSetDirective(t, start, c);
      case ForDir =>
        var o := asm.loops.ProcessForDirective(t, start, c, asm.currentLine);
        r := if o.Err? then Fail(o.error) else Pass;
      case WhileDir =>
        var o := asm.loops.ProcessWhileDirective(t, start, asm.currentLine);
        r := if o.Err? then Fail(o.error) else Pass;
      case DoDir =>
        var _ := asm.loops.ProcessDoDirective(asm.currentLine);
        r := Pass;
      case OdDir =>
        NoLinesKeepsValid();
        var o := asm.loops.ProcessOdDirective(c, NoLines);
        r := if o.Err? then Fail(o.error) else Pass;
      case UntilDir =>
        NoLinesKeepsValid();
        var o := asm.loops.ProcessDoEnd(DoUntil, t, start, c, NoLines);
        r := if o.Err? then Fail(o.error) else Pass;
    }
  }

  /** What `!macro` does: a definition stored, a collection started, or
      the error with the collection state kept; the PC, the output, the
      symbols and the settings are kept. */
  twostate predicate MacroDefinitionEffect(asm: Assembler6502, t: seq<Token>, start: nat, new r: Outcome)
    reads asm, asm.macros
  {
    var spec := MacroDirective(t, start, old(asm.currentLine));
    (spec.Err? ==> r == Fail(spec.error) && asm.Collecting() == old(asm.Collecting())) &&
    (spec.Ok? && spec.value.Defined? ==>
       r.Pass? && asm.Collecting() == old(asm.Collecting()) &&
       asm.macros.macros == old(asm.macros.macros)[spec.value.m.name := spec.value.m]) &&
    (spec.Ok? && spec.value.BeginCollection? ==>
       r.Pass? && asm.macros.macros == old(asm.macros.macros) &&
       asm.Collecting() == Collection(true, spec.value.name, spec.value.parameters, [], 1)) &&
    asm.pc == old(asm.pc) && asm.outputDict == old(asm.outputDict) && asm.store == old(asm.store) &&
    asm.CurrentSettings() == old(asm.CurrentSettings())
  }

  /** The `!macro` branch (directives.py:317-319): a definition is stored,
      and a body opened by `{` and not closed on the line starts the
      assembler's collection of the lines that follow. */
  method ProcessMacroDefinition(asm: Assembler6502, t: seq<Token>, start: nat) returns (r: Outcome)
    modifies asm, asm.macros
    ensures MacroDefinitionEffect(asm, t, start, r)
  {
    var a := asm.macros.ProcessMacroDirective(t, start, asm.currentLine);
    if a.Err? {
      return Fail(a.error);
    }
    if a.value.BeginCollection? {
      asm.StartMacroCollection(a.value.name, a.value.parameters);
    }
    return Pass;
  }

  /** The remaining branches: `!to`, `!convtab`, `!zone`, `!address`,
      `!cpu`, `!source`, `!binary`, the segment directives and the debug
      directives (directives.py:133-149, 188-198, 242-274, 321-353). */
  predicate Setting(k: AcmeKind)
  {
    !Emitting(k) && !k.Cond? && !k.Loop? && !k.MacroDef?
  }

  /** What the setting branches do: `!to` sets the file name and format,
      `!convtab` selects a table, `!zone` opens a zone, `!cpu` selects the
      CPU, `!pseudopc`/`!initmem`/`!xor` act on the segment manager as
      DirectiveEffect says, `!realpc` leaves the innermost pseudo-PC block,
      and the debug directives answer as DebugOutcome. None of them moves
      the PC or writes a byte. */
  twostate predicate SettingEffect(asm: Assembler6502, k: AcmeKind, t: seq<Token>, start: nat, new r: Outcome)
    requires old(asm.Valid())
    reads asm, asm.segments, asm.text
  {
    (k == To ==>
      var s := ToSettings(old(asm.outputFilename), old(asm.outputFormat), t, start);
      asm.outputFilename == s.filename && asm.outputFormat == s.format && r == OutcomeOf(s.error)) &&
    (k == Convtab ==>
      (TableArgument(t, start).None? ==> r.Pass? && asm.text.currentTable == old(asm.text.currentTable)) &&
      (TableArgument(t, start).Some? ==>
         var name := TableArgument(t, start).value;
         (r.Pass? <==> name in ["raw", "pet", "scr"] || name in old(asm.text.customTables)) &&
         (r.Fail? ==> r.error == UnknownConversionTable(name)) &&
         asm.text.currentTable == (if r.Pass? then name else old(asm.text.currentTable)))) &&
    (k == NewZone ==> r.Pass? && asm.store == Symbols.CreateZone(old(asm.store), ZoneName(t, start))) &&
    (k != NewZone ==> asm.store == old(asm.store)) &&
    (k == CpuSelect ==>
      (CpuType(t, start).Err? ==> r == Fail(ExpectedCpuType) && asm.cpuType == old(asm.cpuType)) &&
      (CpuType(t, start).Ok? ==> r.Pass? && asm.cpuType == CpuType(t, start).value && asm.cpu == Opcodes.CpuOf(asm.cpuType))) &&
    (k.SegmentDir? ==> DirectiveEffect(asm.segments, k.s, t, start, old(asm.Context()), r)) &&
    (k == Realpc ==>
      var spec := Exit(old(asm.segments.PseudoState()));
      (spec.Err? ==> r == Fail(NoPseudopcToExit) && asm.segments.PseudoState() == old(asm.segments.PseudoState())) &&
      (spec.Ok? ==> r.Pass? && asm.segments.PseudoState() == spec.value) &&
      asm.segments.initMemory == old(asm.segments.initMemory) && asm.segments.xorValue == old(asm.segments.xorValue)) &&
    (k.Debug? ==> r == DebugOutcome(k.name, t, start)) &&
    (k == Binary ==> r == Fail(NotModelled("!binary"))) &&
    (k == AddressMark || k == Source ==> r.Pass?) &&
    (!k.SegmentDir? && k != Realpc ==> asm.EmitterState() == old(asm.EmitterState())) &&
    asm.pc == old(asm.pc) && asm.outputDict == old(asm.outputDict) &&
    asm.Collecting() == old(asm.Collecting()) && asm.text.customTables == old(asm.text.customTables)
  }

  method ProcessSettingDirective(asm: Assembler6502, k: AcmeKind, t: seq<Token>, start: nat) returns (r: Outcome)
    requires asm.Valid() && Setting(k)
    modifies asm, asm.segments, asm.text
    ensures asm.Valid() && SettingEffect(asm, k, t, start, r)
  {
    match k {
      case To => r := ProcessToDirective(asm, t, start);
      case Convtab => r := ProcessConvtabDirective(asm, t, start);
      case NewZone => ProcessZoneDirective(asm, t, start); r := Pass;
      case CpuSelect => r := ProcessCpuDirective(asm, t, start);
      case SegmentDir(d) => r := asm.segments.ProcessDirective(d, t, start, asm.Context());
      case Realpc => r := asm.segments.ExitPseudopc();
      case Debug(name) => r := DebugOutcome(name, t, start);
      case Binary => r := Fail(NotModelled("!binary"));
      case AddressMark => r := Pass;
      case Source => r := Pass;
    }
  }

  function ResultOf(o: Outcome, consumed: int): (r: Result<int>)
    ensures r.Ok? <==> o.Pass?
    ensures o.Fail? ==> r == Err(o.error)
    ensures o.Pass? ==> r == Ok(consumed)
  {
    if o.Fail? then Err(o.error) else Ok(consumed)
  }

  /** The outcome of a branch as `process_acme_directive` answers it. */
  function OutcomeOfCount(r: Result<int>): Outcome
  {
    if r.Err? then Fail(r.error) else Pass
  }

  /** What `process_acme_directive` does: an unknown name fails; every
      branch has the effect its group states, and answers with the tokens
      left on the line, or with its own count for the opening conditionals. */
  twostate predicate AcmeEffect(asm: Assembler6502, directive: string, t: seq<Token>, start: nat, new r: Result<int>)
    requires old(asm.Valid())
    reads asm, asm.segments, asm.text, asm.conditionals, asm.loops, asm.macros
  {
    var k := Classify(Lower(directive));
    (k.None? ==> r == Err(UnknownAcmeDirective(Lower(directive))) && asm.EmitterState() == old(asm.EmitterState())) &&
    (k.Some? && !OwnCount(k.value) && r.Ok? ==> r.value == |t| - start) &&
    (r.Ok? && start <= |t| ==> r.value >= 0) &&
    (k.Some? && k.value.Cond? ==> ConditionalEffect(asm, k.value.c, t, start, r)) &&
    (k.Some? && k.value.Loop? ==> LoopEffect(asm, k.value.l, t, start, OutcomeOfCount(r))) &&
    (k.Some? && k.value.MacroDef? ==> MacroDefinitionEffect(asm, t, start, OutcomeOfCount(r))) &&
    (k.Some? && Emitting(k.value) ==>
      var spec := EmitEffect(k.value, old(asm.EmitterState()), t, start,
                             old(asm.loops.variables), old(asm.store), old(asm.text.customTables));
      asm.EmitterState() == spec.e && (r.Ok? <==> spec.error.None?) && asm.store == old(asm.store)) &&
    (k.Some? && Setting(k.value) ==> SettingEffect(asm, k.value, t, start, OutcomeOfCount(r)))
  }

  /** `process_acme_directive` (directives.py:127-358): the lower-cased
      name selects a branch; every branch but the opening conditionals
      answers with the number of tokens left on the line. */
  method ProcessAcmeDirective(asm: Assembler6502, directive: string, t: seq<Token>, start: nat) returns (r: Result<int>)
    requires asm.Valid()
    modifies asm, asm.segments, asm.text, asm.conditionals, asm.loops, asm.macros
    ensures asm.Valid() && AcmeEffect(asm, directive, t, start, r)
  {
    var d := Lower(directive);
    var k := Classify(d);
    if k.None? {
      return Err(UnknownAcmeDirective(d));
    }
    var consumed := |t| - start;
    var kind := k.value;
    if kind.Cond? {
      r := ProcessConditionalDirective(asm, kind.c, t, start);
    } else if kind.Loop? {
      var o := ProcessLoopDirective(asm, kind.l, t, start);
      r := ResultOf(o, consumed);
      assert OutcomeOfCount(r) == o;
    } else if kind.MacroDef? {
      var o := ProcessMacroDefinition(asm, t, start);
      r := ResultOf(o, consumed);
      assert OutcomeOfCount(r) == o;
    } else if Emitting(kind) {
      var o := ProcessEmittingDirective(asm, kind, t, start);
      r := ResultOf(o, consumed);
    } else {
      var o := ProcessSettingDirective(asm, kind, t, start);
      r := ResultOf(o, consumed);
      assert OutcomeOfCount(r) == o;
    }
  }

  /** The traditional directives `process_directive` knows. */
  datatype Traditional = ByteAlias | WordAlias | TextAlias | Org | Equ | Ds | End

  function ClassifyTraditional(d: string): Option<Traditional>
  {
    if d == ".byte" || d == ".db" then Some(ByteAlias)
    else if d == ".word" || d == ".dw" then Some(WordAlias)
    else if d == ".text" then Some(TextAlias)
    else if d == ".org" then Some(Org)
    else if d == ".equ" then Some(Equ)
    else if d == ".ds" then Some(Ds)
    else if d == ".end" then Some(End)
    else None
  }

  /** The ACME kind a traditional alias runs: `.byte`/`.db` as `!byte`,
      `.word`/`.dw` as `!word` and `.text` as `!text`. */
  function AliasKind(k: Traditional): (r: AcmeKind)
    requires k == ByteAlias || k == WordAlias || k == TextAlias
    ensures r == Classify(match k case ByteAlias => "!byte" case WordAlias => "!word" case _ => "!text").value
  {
    match k
    case ByteAlias => Data(1, true)
    case WordAlias => Data(2, true)
    case _ => Text("raw")
  }

  /** What `process_directive` does: an unknown name fails, `.org` and
      `.ds` do what their ACME forms do, the aliases what the ACME
      directives they name do, and `.equ` and `.end` nothing; only the
      emitter's state changes. */
  twostate predicate TraditionalEffect(asm: Assembler6502, directive: string, t: seq<Token>, start: nat, new r: Outcome)
    requires old(asm.Valid())
    reads asm, asm.segments
  {
    Others(asm) == old(Others(asm)) &&
    (ClassifyTraditional(Lower(directive)).None? ==>
      r == Fail(UnknownDirective(Lower(directive))) && asm.EmitterState() == old(asm.EmitterState())) &&
    (ClassifyTraditional(Lower(directive)).Some? ==>
      var k := ClassifyTraditional(Lower(directive)).value;
      var e0 := old(asm.EmitterState());
      var spec := match k
        case Org => OrgItems(e0, t, start, old(asm.loops.variables), old(asm.store))
        case Ds => DsItems(e0, t, start, old(asm.loops.variables), old(asm.store))
        case Equ => Emitted(e0, None)
        case End => Emitted(e0, None)
        case _ => EmitEffect(AliasKind(k), e0, t, start, old(asm.loops.variables), old(asm.store), old(asm.text.customTables));
      asm.EmitterState() == spec.e && r == OutcomeOf(spec.error))
  }

  /** `process_directive` (directives.py:360-401). The aliases run the ACME
      branch they name; `.equ` is handled where the line is split and
      `.end` does nothing. */
  method ProcessDirective(asm: Assembler6502, directive: string, t: seq<Token>, start: nat) returns (r: Outcome)
    requires asm.Valid()
    modifies asm, asm.segments
    ensures asm.Valid() && TraditionalEffect(asm, directive, t, start, r)
  {
    var d := Lower(directive);
    var k := ClassifyTraditional(d);
    if k.None? {
      return Fail(UnknownDirective(d));
    }
    match k.value {
      case ByteAlias => r := ProcessEmittingDirective(asm, AliasKind(ByteAlias), t, start);
      case WordAlias => r := ProcessEmittingDirective(asm, AliasKind(WordAlias), t, start);
      case TextAlias => r := ProcessEmittingDirective(asm, AliasKind(TextAlias), t, start);
      case Org => r := ProcessOrgDirective(asm, t, start);
      case Equ => r := Pass;
      case Ds => r := ProcessDsDirective(asm, t, start);
      case End => r := Pass;
    }
  }
}
