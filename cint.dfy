/** The integer semantics of the AVR target the controller runs on, written out:
    `int` and `unsigned int` are 16 bits wide, `unsigned char` is 8 bits,
    division truncates toward zero and a float-to-int cast truncates.
    Also the one optional-value type the model uses for "no temperature". */
module CInt {

  /** A float that may be "not a number", made explicit. */
  datatype Option<T> = None | Some(value: T)

  const U16_MOD: nat := 0x1_0000
  const U8_MOD: nat := 0x100

  type UInt16 = x: int | 0 <= x < 0x1_0000
  type Byte = x: int | 0 <= x < 0x100

  /** Conversion of a mathematical integer to `unsigned int` (wraps modulo 2^16). */
  function U16(x: int): (r: UInt16)
    ensures 0 <= x < U16_MOD ==> r == x
    ensures (r - x) % U16_MOD == 0
  {
    x % U16_MOD
  }

  /** Conversion of a mathematical integer to `unsigned char` (wraps modulo 2^8). */
  function U8(x: int): (r: Byte)
    ensures 0 <= x < U8_MOD ==> r == x
    ensures (r - x) % U8_MOD == 0
  {
    x % U8_MOD
  }

  /** Conversion of a mathematical integer to a two's-complement 16-bit `int`. */
  function I16(x: int): (r: int)
    ensures -0x8000 <= r < 0x8000
    ensures -0x8000 <= x < 0x8000 ==> r == x
    ensures (r - x) % U16_MOD == 0
  {
    var u := x % U16_MOD;
    if u >= 0x8000 then u - U16_MOD else u
  }

  /** C integer division: the quotient is truncated toward zero. */
  function CDiv(a: int, b: int): (q: int)
    requires b != 0
    ensures 0 <= a && 0 < b ==> q == a / b
    ensures (0 <= a) == (0 < b) ==> 0 <= q
    ensures (a <= 0) == (0 < b) ==> q <= 0
  {
    var m: int := NatDiv(Abs(a), Abs(b));
    if (0 <= a) == (0 < b) then m else -m
  }

  /** Division of a natural number by a positive one. */
  function NatDiv(x: nat, y: nat): (r: nat)
    requires 0 < y
    ensures r * y <= x < (r + 1) * y
  {
    x / y
  }

  /** A quotient is at most c when the dividend is at most c divisors. */
  lemma DivBound(a: nat, b: nat, c: nat)
    requires 0 < b && a <= c * b
    ensures a / b <= c
  {
    var q := a / b;
    assert q * b <= a;
    assert q * b <= c * b;
  }

  /** The truncated quotient's magnitude is the floor of the magnitudes' ratio. */
  lemma CDivMagnitude(a: int, b: int)
    requires b != 0
    ensures Abs(CDiv(a, b)) * Abs(b) <= Abs(a) < (Abs(CDiv(a, b)) + 1) * Abs(b)
  {
    assert Abs(CDiv(a, b)) == NatDiv(Abs(a), Abs(b));
  }

  function Abs(x: int): nat { if x < 0 then -x else x }

  /** The float-to-int cast of C: truncation toward zero (for values in range). */
  function Trunc(x: real): (r: int)
    ensures 0.0 <= x ==> r as real <= x < r as real + 1.0
    ensures x < 0.0 ==> r as real - 1.0 < x <= r as real
  {
    if 0.0 <= x then x.Floor else -((-x).Floor)
  }

  /** Arduino's `constrain(x, lo, hi)`. */
  function Constrain(x: int, lo: int, hi: int): (r: int)
    requires lo <= hi
    ensures lo <= r <= hi
    ensures lo <= x <= hi ==> r == x
    ensures x < lo ==> r == lo
    ensures hi < x ==> r == hi
  {
    if x < lo then lo else if x > hi then hi else x
  }

  /** `1 << n` */
  function Pow2(n: nat): (r: nat)
    ensures 1 <= r
  {
    if n == 0 then 1 else 2 * Pow2(n - 1)
  }

  /** 4^n, the oversampling sample count for n oversample bits. */
  function Pow4(n: nat): (r: nat)
    ensures r == Pow2(n) * Pow2(n)
  {
    if n == 0 then 1 else 4 * Pow4(n - 1)
  }
}
