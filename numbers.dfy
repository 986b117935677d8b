/** Literal parsing of the expression evaluator: `parse_number`
    (pyasm6502/package/evaluator.py:57-90). */
module Numbers {
  import opened Wrappers
  import opened Strings
  import opened Bits
  import opened Tokens

  /** The value of a digit character in bases up to 16, or -1. */
  function DigitValue(c: char): (d: int)
    ensures -1 <= d < 16
  {
    if '0' <= c <= '9' then c as int - '0' as int
    else if 'a' <= c <= 'f' then c as int - 'a' as int + 10
    else if 'A' <= c <= 'F' then c as int - 'A' as int + 10
    else -1
  }

  predicate DigitsIn(s: string, base: nat)
  {
    forall k :: 0 <= k < |s| ==> 0 <= DigitValue(s[k]) < base
  }

  /** The number a digit string denotes, most significant digit first. */
  function DigitsValue(s: string, base: nat): (n: nat)
    requires DigitsIn(s, base)
  {
    if s == [] then 0 else DigitsValue(s[..|s| - 1], base) * base + DigitValue(s[|s| - 1])
  }

  /** Python `int(s, base)` on the digit strings the tokenizer produces; an
      empty or malformed string raises ValueError. */
  function ParseInt(s: string, base: nat): (r: Result<int>)
    ensures r.Ok? <==> |s| > 0 && DigitsIn(s, base)
    ensures r.Ok? ==> r.value >= 0
  {
    if |s| > 0 && DigitsIn(s, base) then Ok(DigitsValue(s, base)) else Err(InvalidNumber(s))
  }

  /** The canonical lower-case digit for a value below 16. */
  function DigitChar(d: nat): (c: char)
    requires d < 16
    ensures DigitValue(c) == d
  {
    if d < 10 then ('0' as int + d) as char else ('a' as int + d - 10) as char
  }

  /** The digits of `n` in `base`, without leading zeros. */
  function ToDigits(n: nat, base: nat): (s: string)
    requires 2 <= base <= 16
    ensures |s| > 0 && DigitsIn(s, base)
    decreases n
  {
    if n < base then [DigitChar(n)]
    else
      DivStep(n, base);
      ToDigits(n / base, base) + [DigitChar(n % base)]
  }

  /** Parsing the digits of a number gives the number back. */
  lemma {:induction false} ParseIntToDigits(n: nat, base: nat)
    requires 2 <= base <= 16
    ensures ParseInt(ToDigits(n, base), base) == Ok(n)
    decreases n
  {
    var s := ToDigits(n, base);
    if n >= base {
      DivStep(n, base);
      ParseIntToDigits(n / base, base);
      var pre := ToDigits(n / base, base);
      assert s == pre + [DigitChar(n % base)];
      assert s[..|s| - 1] == pre;
      assert DigitValue(s[|s| - 1]) == n % base;
      assert DigitsValue(pre, base) == n / base;
      assert DigitsValue(s, base) == (n / base) * base + n % base;
    } else {
      assert s[..|s| - 1] == [];
      assert DigitsValue(s, base) == 0 * base + n;
    }
  }

  /** Python `s[1:]`. */
  function Tail(s: string): (r: string)
    ensures |s| > 0 ==> r == s[1..]
    ensures |s| == 0 ==> r == ""
  {
    if |s| > 0 then s[1..] else ""
  }

  /** Python `s[1:-1]`: "" when `s` has fewer than two characters. */
  function Inner(s: string): (r: string)
    ensures |s| >= 2 ==> r == s[1..|s| - 1]
    ensures |s| < 2 ==> r == ""
  {
    if |s| >= 2 then s[1..|s| - 1] else ""
  }

  function Reverse(s: string): (r: string)
    ensures |r| == |s| && forall k :: 0 <= k < |s| ==> r[k] == s[|s| - 1 - k]
  {
    seq(|s|, k requires 0 <= k < |s| => s[|s| - 1 - k])
  }

  predicate StartsWith(s: string, p: string)
  {
    |p| <= |s| && s[..|p|] == p
  }

  /** `.replace('.', '0').replace('#', '1')` on a binary literal. */
  function BinaryDigits(s: string): (r: string)
    ensures |r| == |s|
    ensures forall k :: 0 <= k < |s| ==>
      r[k] == (if s[k] == '.' then '0' else if s[k] == '#' then '1' else s[k])
  {
    seq(|s|, k requires 0 <= k < |s| => if s[k] == '.' then '0' else if s[k] == '#' then '1' else s[k])
  }

  /** The accumulator of the packing loop after the characters of `rs`
      (the reversed constant) have been OR-ed in, character i shifted by 8i. */
  function Pack(rs: string): int
  {
    if rs == [] then 0
    else BitOr(Pack(rs[..|rs| - 1]), (rs[|rs| - 1] as int) * Pow2(8 * (|rs| - 1)))
  }

  /** Little-endian value of a byte string, byte 0 lowest. */
  function LittleEndian(rs: string): nat
  {
    if rs == [] then 0 else LittleEndian(rs[..|rs| - 1]) + (rs[|rs| - 1] as int) * Pow2(8 * (|rs| - 1))
  }

  predicate AllBytes(s: string)
  {
    forall k :: 0 <= k < |s| ==> s[k] as int < 256
  }

  lemma {:induction false} LittleEndianBound(rs: string)
    requires AllBytes(rs)
    ensures LittleEndian(rs) < Pow2(8 * |rs|)
  {
    if rs != [] {
      var n := |rs| - 1;
      LittleEndianBound(rs[..n]);
      var c := rs[n] as int;
      var p := Pow2(8 * n);
      Pow2Add(8 * n, 8);
      assert Pow2(8) == 256;
      assert Pow2(8 * |rs|) == p * 256;
      MulMono(c, 255, p);
      assert LittleEndian(rs) == LittleEndian(rs[..n]) + c * p;
    }
  }

  lemma {:induction false} Pow2Add(a: nat, b: nat)
    ensures Pow2(a + b) == Pow2(a) * Pow2(b)
    decreases b
  {
    if b > 0 {
      Pow2Add(a, b - 1);
    }
  }

  /** For characters below 256 the OR-packing is plain little-endian
      arithmetic: no two characters share a bit. */
  lemma {:induction false} PackIsLittleEndian(rs: string)
    requires AllBytes(rs)
    ensures Pack(rs) == LittleEndian(rs)
  {
    if rs != [] {
      var n := |rs| - 1;
      PackIsLittleEndian(rs[..n]);
      LittleEndianBound(rs[..n]);
      OrDisjoint(LittleEndian(rs[..n]), rs[n] as int, 8 * n);
    }
  }

  /** The low byte of the packed value is the first packed character, which
      is the last character of the constant. */
  lemma {:induction false} PackLowByte(rs: string)
    requires AllBytes(rs) && |rs| > 0
    ensures LittleEndian(rs) % 256 == rs[0] as int
    decreases |rs|
  {
    var n := |rs| - 1;
    if n > 0 {
      PackLowByte(rs[..n]);
      var c := rs[n] as int;
      var q := Pow2(8 * (n - 1));
      Pow2Add(8, 8 * (n - 1));
      assert Pow2(8) == 256;
      assert Pow2(8 * n) == 256 * q;
      var hi := c * q;
      assert c * (256 * q) == 256 * hi;
      assert LittleEndian(rs) == LittleEndian(rs[..n]) + 256 * hi;
      ModAddMultiple(LittleEndian(rs[..n]), hi, 256);
      assert rs[..n][0] == rs[0];
    }
  }

  /** A character constant `'...'` (evaluator.py:78-88). The source raises
      its "too long" error through an undefined name, which fails all the
      same. */
  function CharConstant(v: string): (r: Result<int>)
  {
    var cv := Inner(v);
    if |cv| == 1 then Ok(cv[0] as int)
    else if |cv| <= 4 then Ok(Pack(Reverse(cv)))
    else Err(CharConstantTooLong(v))
  }

  /** The packing loop itself, over the reversed characters. */
  method PackCharConstant(cv: string) returns (value: int)
    requires |cv| <= 4
    ensures value == Pack(Reverse(cv))
  {
    var rs := Reverse(cv);
    value := 0;
    var i := 0;
    while i < |rs|
      invariant 0 <= i <= |rs|
      invariant value == Pack(rs[..i])
    {
      assert rs[..i + 1][..i] == rs[..i];
      value := BitOr(value, (rs[i] as int) * Pow2(8 * i));
      i := i + 1;
    }
    assert rs[..i] == rs;
  }

  /** `parse_number` (evaluator.py:57-90); floating-point literals are
      outside the model. */
  function ParseNumber(tok: Token): (r: Result<int>)
  {
    var v := tok.value;
    match tok.kind
    case HexNumber => if StartsWith(v, "0x") then ParseInt(v[2..], 16) else ParseInt(Tail(v), 16)
    case BinNumber => ParseInt(BinaryDigits(if StartsWith(v, "0b") then v[2..] else Tail(v)), 2)
    case OctNumber => ParseInt(Tail(v), 8)
    case DecNumber => if '.' in v then Err(NotModelled("float literal")) else ParseInt(v, 10)
    case Char => CharConstant(v)
    case _ => Err(InvalidNumber(v))
  }

  // ---- properties of literal parsing ----

  /** `$` and `0x` literals are hexadecimal. */
  lemma HexLiteral(n: nat, line: int, col: nat)
    ensures ParseNumber(Token(HexNumber, "$" + ToDigits(n, 16), line, col)) == Ok(n)
    ensures ParseNumber(Token(HexNumber, "0x" + ToDigits(n, 16), line, col)) == Ok(n)
  {
    var d := ToDigits(n, 16);
    ParseIntToDigits(n, 16);
    var dollar := "$" + d;
    assert !StartsWith(dollar, "0x") by {
      assert dollar[0] == '$';
    }
    assert Tail(dollar) == d by {
      assert dollar[1..] == d;
    }
    var prefixed := "0x" + d;
    assert StartsWith(prefixed, "0x") && prefixed[2..] == d by {
      assert prefixed[..2] == "0x";
    }
  }

  /** `%` and `0b` literals are binary, with `.` for 0 and `#` for 1. */
  lemma BinaryLiteral(s: string, line: int, col: nat)
    requires |s| > 0 && forall k :: 0 <= k < |s| ==> s[k] in ".#"
    ensures ParseNumber(Token(BinNumber, "%" + s, line, col)) == ParseInt(BinaryDigits(s), 2)
    ensures ParseInt(BinaryDigits(s), 2).Ok?
  {
    var v := "%" + s;
    assert !StartsWith(v, "0b") by {
      assert v[0] == '%';
    }
    assert Tail(v) == s by {
      assert v[1..] == s;
    }
    var d := BinaryDigits(s);
    forall k | 0 <= k < |d|
      ensures 0 <= DigitValue(d[k]) < 2
    {
      assert d[k] == '0' || d[k] == '1';
    }
  }

  /** `&` literals are octal, and decimal literals without a point are
      decimal integers. */
  lemma OctalAndDecimalLiterals(n: nat, line: int, col: nat)
    ensures ParseNumber(Token(OctNumber, "&" + ToDigits(n, 8), line, col)) == Ok(n)
    ensures ParseNumber(Token(DecNumber, ToDigits(n, 10), line, col)) == Ok(n)
  {
    ParseIntToDigits(n, 8);
    ParseIntToDigits(n, 10);
    assert ("&" + ToDigits(n, 8))[1..] == ToDigits(n, 8);
    assert DigitValue('.') == -1;
  }

  /** A one-character constant is that character's code; two to four
      characters pack little-endian with the last character in the low byte;
      more than four is an error. */
  lemma CharConstantRules(v: string)
    ensures |Inner(v)| == 1 ==> CharConstant(v) == Ok(Inner(v)[0] as int)
    ensures |Inner(v)| > 4 ==> CharConstant(v).Err?
    ensures 2 <= |Inner(v)| <= 4 && AllBytes(Inner(v)) ==>
      CharConstant(v).Ok? && CharConstant(v).value % 256 == Inner(v)[|Inner(v)| - 1] as int &&
      CharConstant(v).value == LittleEndian(Reverse(Inner(v)))
  {
    var cv := Inner(v);
    if 2 <= |cv| <= 4 && AllBytes(cv) {
      var rs := Reverse(cv);
      assert AllBytes(rs);
      PackIsLittleEndian(rs);
      PackLowByte(rs);
    }
  }
}
