/**
  Fixed-width C integer types and the C operators the drivers rely on,
  written out over Dafny's unbounded integers.
 */
module CTypes {

  /** uint8_t */
  type byte = x: int | 0 <= x < 0x100

  /** uint16_t */
  type u16 = x: int | 0 <= x < 0x1_0000

  /** uint32_t */
  type u32 = x: int | 0 <= x < 0x1_0000_0000

  /** int32_t */
  type i32 = x: int | InInt32(x)

  /** x is representable as a C int32_t. */
  predicate InInt32(x: int)
  {
    -0x8000_0000 <= x < 0x8000_0000
  }

  const TWO_POW_32: int := 0x1_0000_0000

  /** Conversion of any integer to uint32_t: reduction modulo 2^32. */
  function U32(x: int): (r: u32)
    ensures (r - x) % TWO_POW_32 == 0
    ensures 0 <= x < TWO_POW_32 ==> r == x
  {
    x % TWO_POW_32
  }

  function Pow2(k: nat): (r: nat)
    ensures r >= 1
  {
    if k == 0 then 1 else 2 * Pow2(k - 1)
  }

  lemma {:induction false} Pow2Add(a: nat, b: nat)
    ensures Pow2(a + b) == Pow2(a) * Pow2(b)
    decreases b
  {
    if b > 0 {
      Pow2Add(a, b - 1);
    }
  }

  /**
    `x >> k` on a signed operand. GCC for ARM shifts arithmetically, which is
    division by 2^k rounded towards minus infinity; Dafny's `/` by a positive
    divisor already rounds that way.
   */
  function Asr(x: int, k: nat): (r: int)
    ensures r * Pow2(k) <= x < (r + 1) * Pow2(k)
  {
    x / Pow2(k)
  }

  function Abs(x: int): nat
  {
    if x < 0 then -x else x
  }

  lemma DivNonNegative(n: nat, m: int)
    requires m > 0
    ensures 0 <= n / m <= n
  {
    if n / m > 0 {
      MulAtLeast(n / m, m);
    }
  }

  /** A non-negative number times a positive integer is at least that number. */
  lemma MulAtLeast(d: int, k: int)
    requires d >= 0 && k >= 1
    ensures d * k >= d
  {
  }

  /** `a / b` in C99: the quotient is truncated towards zero. */
  function TruncDiv(a: int, b: int): (q: int)
    requires b != 0
    ensures 0 <= a && 0 < b ==> q == a / b
    ensures (a < 0) == (b < 0) || q <= 0
    ensures Abs(q) <= Abs(a)
  {
    DivNonNegative(Abs(a), Abs(b));
    if (a < 0) == (b < 0) then Abs(a) / Abs(b) else -(Abs(a) / Abs(b))
  }

  /** The remainder left by C division is smaller than the divisor and has the sign of the dividend. */
  lemma TruncDivRemainder(a: int, b: int)
    requires b != 0
    ensures Abs(a - TruncDiv(a, b) * b) < Abs(b)
    ensures a - TruncDiv(a, b) * b == 0 || (a - TruncDiv(a, b) * b < 0 <==> a < 0)
  {
    var m: int, n: int := Abs(b), Abs(a);
    assert n == (n / m) * m + n % m && 0 <= n % m < m;
    TruncDivTimesDivisor(a, b);
    RemainderSign(a, TruncDiv(a, b) * b, (n / m) * m, n % m, m);
  }

  /** The truncated quotient times the divisor is the floor product of the magnitudes, with the sign of the dividend. */
  lemma TruncDivTimesDivisor(a: int, b: int)
    requires b != 0
    ensures a < 0 ==> TruncDiv(a, b) * b == -((Abs(a) / Abs(b)) * Abs(b))
    ensures a >= 0 ==> TruncDiv(a, b) * b == (Abs(a) / Abs(b)) * Abs(b)
  {
    var q0: int, m: int := Abs(a) / Abs(b), Abs(b);
    assert TruncDiv(a, b) == (if (a < 0) != (b < 0) then -q0 else q0);
    assert b == (if b < 0 then -m else m);
    SignedProduct(q0, m, (a < 0) != (b < 0), b < 0);
  }

  lemma SignedProduct(x: int, y: int, negX: bool, negY: bool)
    ensures (if negX then -x else x) * (if negY then -y else y) == (if negX == negY then x * y else -(x * y))
  {
    MulSigns(x, y);
  }

  lemma MulSigns(x: int, y: int)
    ensures (-x) * y == -(x * y) && x * (-y) == -(x * y) && (-x) * (-y) == x * y
  {
  }

  lemma RemainderSign(a: int, qb: int, p: int, rem: int, m: int)
    requires 0 <= rem < m
    requires a < 0 ==> a == -p - rem && qb == -p
    requires a >= 0 ==> a == p + rem && qb == p
    ensures Abs(a - qb) < m
    ensures a - qb == 0 || (a - qb < 0 <==> a < 0)
  {
  }

  /** Conversion of a 16-bit pattern to int16_t (two's complement). */
  function Int16(w: u16): (r: int)
    ensures -0x8000 <= r < 0x8000
    ensures (r - w) % 0x1_0000 == 0
  {
    if w < 0x8000 then w else w - 0x1_0000
  }

  /** The 16-bit pattern that stores the int16_t value `v`. */
  function Int16Bits(v: int): (w: u16)
    requires -0x8000 <= v < 0x8000
    ensures Int16(w) == v
  {
    if v < 0 then v + 0x1_0000 else v
  }

  lemma Int16BitsRoundTrip(w: u16)
    ensures Int16Bits(Int16(w)) == w
  {
  }

  /** `(hi << 8) | lo` for two bytes: the unsigned 16-bit word. */
  function Word(hi: byte, lo: byte): (w: u16)
    ensures w / 0x100 == hi && w % 0x100 == lo
  {
    hi * 0x100 + lo
  }

  function HighByte(w: u16): byte { w / 0x100 }

  function LowByte(w: u16): byte { w % 0x100 }

  lemma WordRoundTrip(w: u16)
    ensures Word(HighByte(w), LowByte(w)) == w
  {
  }

  /**
    Bitwise exclusive or on naturals, one binary digit at a time: the low
    digit of the result is the sum of the low digits modulo 2.
   */
  function XorDigit(x: nat, y: nat): nat
  {
    if x == y then 0 else 1
  }

  function XorNat(a: nat, b: nat): nat
    decreases a + b
  {
    if a == 0 && b == 0 then 0 else 2 * XorNat(a / 2, b / 2) + XorDigit(a % 2, b % 2)
  }

  lemma XorNatDigits(a: nat, b: nat)
    ensures XorNat(a, b) == 2 * XorNat(a / 2, b / 2) + XorDigit(a % 2, b % 2)
    ensures XorNat(a, b) / 2 == XorNat(a / 2, b / 2)
    ensures XorNat(a, b) % 2 == XorDigit(a % 2, b % 2)
  {
  }

  lemma {:induction false} XorNatBelow(a: nat, b: nat, k: nat)
    requires a < Pow2(k) && b < Pow2(k)
    ensures XorNat(a, b) < Pow2(k)
    decreases a + b
  {
    if a == 0 && b == 0 {
    } else {
      assert k > 0;
      XorNatBelow(a / 2, b / 2, k - 1);
    }
  }

  lemma {:induction false} XorNatZero(a: nat)
    ensures XorNat(a, 0) == a && XorNat(0, a) == a
  {
    if a != 0 {
      XorNatZero(a / 2);
    }
  }

  lemma {:induction false} XorNatSelf(a: nat)
    ensures XorNat(a, a) == 0
  {
    if a != 0 {
      XorNatSelf(a / 2);
    }
  }

  lemma {:induction false} XorNatCommutes(a: nat, b: nat)
    ensures XorNat(a, b) == XorNat(b, a)
    decreases a + b
  {
    if a != 0 || b != 0 {
      XorNatCommutes(a / 2, b / 2);
    }
  }

  lemma {:induction false} XorNatAssociates(a: nat, b: nat, c: nat)
    ensures XorNat(XorNat(a, b), c) == XorNat(a, XorNat(b, c))
    decreases a + b + c
  {
    if a == 0 && b == 0 && c == 0 {
    } else {
      var ab, bc := XorNat(a, b), XorNat(b, c);
      XorNatDigits(a, b);
      XorNatDigits(b, c);
      XorNatDigits(ab, c);
      XorNatDigits(a, bc);
      XorNatAssociates(a / 2, b / 2, c / 2);
      var x, y, z := a % 2, b % 2, c % 2;
      assert XorDigit(XorDigit(x, y), z) == XorDigit(x, XorDigit(y, z));
      calc {
        XorNat(ab, c);
        2 * XorNat(ab / 2, c / 2) + XorDigit(ab % 2, z);
        2 * XorNat(XorNat(a / 2, b / 2), c / 2) + XorDigit(XorDigit(x, y), z);
        2 * XorNat(a / 2, XorNat(b / 2, c / 2)) + XorDigit(x, XorDigit(y, z));
        2 * XorNat(a / 2, bc / 2) + XorDigit(x, bc % 2);
        XorNat(a, bc);
      }
    }
  }

  /** Bitwise exclusive or of two bytes (C's `^` on uint8_t). */
  function Xor(a: byte, b: byte): (r: byte)
  {
    XorNatBelow(a, b, 8);
    XorNat(a, b)
  }

  lemma XorSelf(a: byte)
    ensures Xor(a, a) == 0
  {
    XorNatSelf(a);
  }

  lemma XorZero(a: byte)
    ensures Xor(a, 0) == a && Xor(0, a) == a
  {
    XorNatZero(a);
  }

  lemma XorCommutes(a: byte, b: byte)
    ensures Xor(a, b) == Xor(b, a)
  {
    XorNatCommutes(a, b);
  }

  lemma XorAssociates(a: byte, b: byte, c: byte)
    ensures Xor(Xor(a, b), c) == Xor(a, Xor(b, c))
  {
    XorNatAssociates(a, b, c);
  }

  /** Exclusive or with a fixed byte is injective. */
  lemma XorCancel(a: byte, b: byte, c: byte)
    requires Xor(a, c) == Xor(b, c)
    ensures a == b
  {
    calc {
      a;
      { XorZero(a); }
      Xor(a, 0);
      { XorSelf(c); }
      Xor(a, Xor(c, c));
      { XorAssociates(a, c, c); }
      Xor(Xor(a, c), c);
      Xor(Xor(b, c), c);
      { XorAssociates(b, c, c); }
      Xor(b, Xor(c, c));
      { XorSelf(c); XorZero(b); }
      b;
    }
  }

  /** Concatenation of sequences is associative. */
  lemma AppendAssociates<T>(a: seq<T>, b: seq<T>, c: seq<T>)
    ensures a + b + c == a + (b + c)
  {
  }

  /** The runs f(from), f(from + step), ..., n of them, concatenated in order. */
  function Runs<T>(f: nat -> seq<T>, from: nat, step: nat, n: nat): seq<T>
    decreases n
  {
    if n == 0 then [] else f(from) + Runs(f, from + step, step, n - 1)
  }

  /** One more run goes at the end. */
  lemma {:induction false} RunsSnoc<T>(f: nat -> seq<T>, from: nat, step: nat, n: nat)
    ensures Runs(f, from, step, n + 1) == Runs(f, from, step, n) + f(from + step * n)
    decreases n
  {
    if n > 0 {
      RunsSnoc(f, from + step, step, n - 1);
      assert from + step + step * (n - 1) == from + step * n;
      AppendAssociates(f(from), Runs(f, from + step, step, n - 1), f(from + step * n));
    }
  }

  /** A log that held s and then the first n runs, extended by the run at position at, holds s and the first n + 1 runs. */
  lemma RunsStep<T>(s: seq<T>, f: nat -> seq<T>, from: nat, step: nat, n: nat, at: nat, before: seq<T>, after: seq<T>)
    requires at == from + step * n
    requires before == s + Runs(f, from, step, n)
    requires after == before + f(at)
    ensures after == s + Runs(f, from, step, n + 1)
  {
    RunsSnoc(f, from, step, n);
    AppendAssociates(s, Runs(f, from, step, n), f(at));
  }
}
