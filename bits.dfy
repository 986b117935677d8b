/** Python's arbitrary-precision integer operators as the core uses them:
    floor division and modulo, shifts, and the two's-complement bitwise
    operators on unbounded integers. */
module Bits {
  import opened Wrappers

  /** A value stored in the assembler's output map. */
  type Byte = x: int | 0 <= x < 256

  function Pow2(k: nat): (r: nat)
    ensures r >= 1
  {
    if k == 0 then 1 else 2 * Pow2(k - 1)
  }

  function IntPow(b: int, e: nat): int
  {
    if e == 0 then 1 else b * IntPow(b, e - 1)
  }

  function Abs(x: int): nat { if x < 0 then -x else x }

  /** Python `a // b` (rounds toward negative infinity). */
  function FloorDiv(a: int, b: int): int
    requires b != 0
  {
    if b > 0 then a / b else (-a) / (-b)
  }

  /** Python `a % b` (the result has the sign of `b`). */
  function FloorMod(a: int, b: int): int
    requires b != 0
  {
    a - b * FloorDiv(a, b)
  }

  /** Floor division and modulo split `a` exactly, with the remainder on
      the divisor's side of zero. */
  lemma FloorDivMod(a: int, b: int)
    requires b != 0
    ensures a == b * FloorDiv(a, b) + FloorMod(a, b)
    ensures b > 0 ==> 0 <= FloorMod(a, b) < b
    ensures b < 0 ==> b < FloorMod(a, b) <= 0
  {
    if b < 0 {
      var q := (-a) / (-b);
      assert -a == (-b) * q + (-a) % (-b);
      assert FloorMod(a, b) == -((-a) % (-b));
    }
  }

  /** Python `~x`. */
  function Not(x: int): int { -x - 1 }

  /** Python `x & y` on unbounded two's-complement integers. */
  function BitAnd(x: int, y: int): int
    decreases Abs(x) + Abs(y)
  {
    if x == 0 then 0
    else if x == -1 then y
    else if y == 0 then 0
    else if y == -1 then x
    else 2 * BitAnd(x / 2, y / 2) + (if x % 2 == 1 && y % 2 == 1 then 1 else 0)
  }

  /** Python `x | y`. */
  function BitOr(x: int, y: int): int
    decreases Abs(x) + Abs(y)
  {
    if x == 0 then y
    else if x == -1 then -1
    else if y == 0 then x
    else if y == -1 then -1
    else 2 * BitOr(x / 2, y / 2) + (if x % 2 == 1 || y % 2 == 1 then 1 else 0)
  }

  /** Python `x ^ y`. */
  function BitXor(x: int, y: int): int
    decreases Abs(x) + Abs(y)
  {
    if x == 0 then y
    else if x == -1 then Not(y)
    else if y == 0 then x
    else if y == -1 then Not(x)
    else 2 * BitXor(x / 2, y / 2) + (if x % 2 != y % 2 then 1 else 0)
  }

  /** Python `v << n`: a negative count raises ValueError. */
  function ShiftLeft(v: int, n: int): (r: Result<int>)
    ensures r.Err? <==> n < 0
    ensures r.Ok? ==> r.value == v * Pow2(n)
  {
    if n < 0 then Err(NegativeShiftCount) else Ok(v * Pow2(n))
  }

  /** Python `v >> n`: floor division by 2^n; a negative count raises. */
  function ShiftRight(v: int, n: int): (r: Result<int>)
    ensures r.Err? <==> n < 0
    ensures r.Ok? ==> r.value == FloorDiv(v, Pow2(n))
  {
    if n < 0 then Err(NegativeShiftCount) else Ok(v / Pow2(n))
  }

  /** `v >> n` for a non-negative count, as a plain value. */
  function Shr(v: int, n: nat): int
  {
    v / Pow2(n)
  }

  /** Python `b ** e` on integers: a negative exponent gives a float
      (or ZeroDivisionError for a zero base), which the model does not carry. */
  function Power(b: int, e: int): (r: Result<int>)
    ensures r.Ok? <==> e >= 0
    ensures r.Ok? ==> r.value == IntPow(b, e)
  {
    if e < 0 then (if b == 0 then Err(DivisionByZero) else Err(NotModelled("float power")))
    else Ok(IntPow(b, e))
  }

  // ---- arithmetic helpers ----

  lemma MulSign(d: int, t: int)
    requires d > 0
    ensures t > 0 ==> d * t >= d
    ensures t < 0 ==> d * t <= -d
    decreases Abs(t)
  {
    if t > 1 {
      MulSign(d, t - 1);
      assert d * t == d * (t - 1) + d;
    } else if t < -1 {
      MulSign(d, t + 1);
      assert d * t == d * (t + 1) - d;
    }
  }

  lemma DivModUnique(x: int, d: int, q: int, r: int)
    requires d > 0 && 0 <= r < d && x == d * q + r
    ensures x / d == q && x % d == r
  {
    var q0 := x / d;
    var r0 := x % d;
    assert x == d * q0 + r0;
    assert d * (q - q0) == r0 - r;
    MulSign(d, q - q0);
  }

  lemma {:induction false} MulMono(a: int, b: int, c: nat)
    requires a <= b
    ensures a * c <= b * c
    decreases c
  {
    if c > 0 {
      MulMono(a, b, c - 1);
      assert a * c == a * (c - 1) + a;
      assert b * c == b * (c - 1) + b;
    }
  }

  /** Dividing by at least 2 makes a number smaller and splits it exactly. */
  lemma DivStep(n: nat, d: int)
    requires d >= 2 && n >= d
    ensures 0 <= n % d < d && 0 < n / d < n && (n / d) * d + n % d == n
  {
    var q := n / d;
    var r := n % d;
    assert n == d * q + r;
    if q <= 0 {
      MulSign(d, q);
      assert false;
    }
    MulMono(2, d, q);
  }

  lemma ModAddMultiple(a: int, h: int, d: int)
    requires d > 0
    ensures (a + d * h) % d == a % d
  {
    var q := a / d;
    var r := a % d;
    assert a + d * h == d * (q + h) + r;
    DivModUnique(a + d * h, d, q + h, r);
  }

  /** One binary digit more: the low k+1 bits are the low bit plus twice the
      low k bits of the rest. */
  lemma ModDouble(x: int, m: int)
    requires m > 0
    ensures x % (2 * m) == 2 * ((x / 2) % m) + x % 2
  {
    var q := x / 2;
    var r := x % 2;
    var a := q / m;
    var b := q % m;
    assert x == 2 * q + r;
    assert q == m * a + b;
    assert x == (2 * m) * a + (2 * b + r);
    DivModUnique(x, 2 * m, a, 2 * b + r);
  }

  lemma Pow2Half(k: nat)
    requires k > 0
    ensures (Pow2(k) - 1) / 2 == Pow2(k - 1) - 1 && (Pow2(k) - 1) % 2 == 1
    ensures (-(Pow2(k) as int)) / 2 == -(Pow2(k - 1) as int) && (-(Pow2(k) as int)) % 2 == 0
  {
    DivModUnique(Pow2(k) - 1, 2, Pow2(k - 1) - 1, 1);
    DivModUnique(-(Pow2(k) as int), 2, -(Pow2(k - 1) as int), 0);
  }

  lemma LowBitsCombine(x: int, m: int, p: int, a: int, b: int)
    requires m > 0 && p == 2 * m && a == (x / 2) % m && b == 2 * a + x % 2
    ensures b == x % p
  {
    ModDouble(x, m);
  }

  lemma HighBitsCombine(x: int, m: int, p: int, a: int, b: int)
    requires m > 0 && p == 2 * m && a == x / 2 - (x / 2) % m && b == 2 * a
    ensures b == x - x % p
  {
    ModDouble(x, m);
  }

  lemma AndStep(x: int, y: int)
    requires x != 0 && x != -1 && y != 0 && y != -1
    ensures BitAnd(x, y) == 2 * BitAnd(x / 2, y / 2) + (if x % 2 == 1 && y % 2 == 1 then 1 else 0)
  {
  }

  /** Masking with 2^k - 1 keeps the value modulo 2^k. */
  lemma {:induction false} MaskIsMod(x: int, k: nat)
    ensures BitAnd(x, Pow2(k) - 1) == x % Pow2(k)
    decreases k
  {
    if k == 0 {
      assert x % 1 == 0;
    } else if x == 0 {
      DivModUnique(0, Pow2(k), 0, 0);
    } else if x == -1 {
      DivModUnique(-1, Pow2(k), -1, Pow2(k) - 1);
    } else {
      var m := Pow2(k - 1);
      var y := Pow2(k) - 1;
      Pow2Half(k);
      AndStep(x, y);
      MaskIsMod(x / 2, k - 1);
      LowBitsCombine(x, m, Pow2(k), BitAnd(x / 2, m - 1), BitAnd(x, y));
    }
  }

  /** `x & 0xFF` is the low byte of `x`, for negative `x` too. */
  lemma LowByte(x: int)
    ensures BitAnd(x, 255) == x % 256
    ensures 0 <= BitAnd(x, 255) < 256
  {
    MaskIsMod(x, 8);
  }

  /** Masking with the complement of 2^k - 1 rounds down to a multiple of 2^k. */
  lemma {:induction false} ClearLowBits(x: int, k: nat)
    ensures BitAnd(x, Not(Pow2(k) - 1)) == x - x % Pow2(k)
    decreases k
  {
    if k == 0 {
      assert x % 1 == 0;
    } else if x == 0 {
      DivModUnique(0, Pow2(k), 0, 0);
    } else if x == -1 {
      DivModUnique(-1, Pow2(k), -1, Pow2(k) - 1);
    } else {
      var m := Pow2(k - 1);
      var y := Not(Pow2(k) - 1);
      Pow2Half(k);
      assert y / 2 == Not(m - 1) && y % 2 == 0;
      AndStep(x, y);
      ClearLowBits(x / 2, k - 1);
      HighBitsCombine(x, m, Pow2(k), BitAnd(x / 2, Not(m - 1)), BitAnd(x, y));
    }
  }

  lemma {:induction false} AndSelf(x: int)
    ensures BitAnd(x, x) == x
    decreases Abs(x)
  {
    if x != 0 && x != -1 {
      AndStep(x, x);
      AndSelf(x / 2);
    }
  }

  ghost predicate IsPowerOfTwo(a: int)
  {
    exists k: nat :: Pow2(k) == a
  }

  /** The `a & (a - 1) == 0` test accepts exactly the powers of two. */
  lemma {:induction false} PowerOfTwoTest(a: int)
    requires a > 0
    ensures BitAnd(a, a - 1) == 0 <==> IsPowerOfTwo(a)
    decreases a
  {
    if IsPowerOfTwo(a) {
      var k: nat :| Pow2(k) == a;
      MaskIsMod(a, k);
    }
    if BitAnd(a, a - 1) == 0 && a > 1 {
      if a % 2 == 1 {
        AndStep(a, a - 1);
        assert (a - 1) / 2 == a / 2;
        AndSelf(a / 2);
        assert false;
      } else {
        var b := a / 2;
        AndStep(a, a - 1);
        assert (a - 1) / 2 == b - 1;
        PowerOfTwoTest(b);
        var k: nat :| Pow2(k) == b;
        assert Pow2(k + 1) == a;
      }
    }
    if a == 1 {
      assert Pow2(0) == a;
    }
  }

  /** OR-ing a value into bits that are free is addition. */
  lemma {:induction false} OrDisjoint(a: int, c: nat, k: nat)
    requires 0 <= a < Pow2(k)
    ensures BitOr(a, c * Pow2(k)) == a + c * Pow2(k)
    decreases k
  {
    if k == 0 || a == 0 || c == 0 {
    } else {
      var y := c * Pow2(k);
      assert y == 2 * (c * Pow2(k - 1));
      assert y / 2 == c * Pow2(k - 1) && y % 2 == 0;
      OrDisjoint(a / 2, c, k - 1);
    }
  }

  lemma XorIdentities(v: int)
    ensures BitXor(0, v) == v && BitXor(v, 0) == v
    ensures BitXor(-1, v) == Not(v) && BitXor(v, -1) == Not(v)
  {
  }

  /** The recursive step of `^` holds for every pair, not only away from 0
      and -1. */
  lemma XorStep(x: int, y: int)
    ensures BitXor(x, y) == 2 * BitXor(x / 2, y / 2) + (if x % 2 != y % 2 then 1 else 0)
  {
    XorIdentities(x / 2);
    XorIdentities(y / 2);
    if x == 0 || x == -1 {
      assert y == 2 * (y / 2) + y % 2;
    } else if y == 0 || y == -1 {
      assert x == 2 * (x / 2) + x % 2;
    }
  }

  /** `(x ^ y) ^ y == x`. */
  lemma {:induction false} XorInvolution(x: int, y: int)
    ensures BitXor(BitXor(x, y), y) == x
    decreases Abs(x) + Abs(y)
  {
    if (x == 0 || x == -1) && (y == 0 || y == -1) {
    } else {
      var h := BitXor(x / 2, y / 2);
      var b := if x % 2 != y % 2 then 1 else 0;
      var z := BitXor(x, y);
      XorStep(x, y);
      assert z == 2 * h + b;
      DivModUnique(z, 2, h, b);
      XorStep(z, y);
      XorInvolution(x / 2, y / 2);
      assert x == 2 * (x / 2) + x % 2;
    }
  }

  /** `^` of two values below `2^k` stays below `2^k`. */
  lemma {:induction false} XorBound(x: int, y: int, k: nat)
    requires 0 <= x < Pow2(k) && 0 <= y < Pow2(k)
    ensures 0 <= BitXor(x, y) < Pow2(k)
  {
    if k > 0 {
      XorStep(x, y);
      XorBound(x / 2, y / 2, k - 1);
    }
  }
}
