/** C++ integer arithmetic on Dafny's unbounded integers: the ranges of
    `int` and `qint64`, division that truncates toward zero, and the
    conversion of a wider value to a 32-bit `int`. */
module CInts {
  const Two31: int := 0x8000_0000
  const Two32: int := 0x1_0000_0000
  const Two63: int := 0x8000_0000_0000_0000

  predicate InInt32(x: int)
  {
    -Two31 <= x < Two31
  }

  predicate InInt64(x: int)
  {
    -Two63 <= x < Two63
  }

  function Abs(x: int): nat
  {
    if x < 0 then -x else x
  }

  /** C++ `a / b`: the quotient rounded toward zero, so the remainder is
      smaller than the divisor and never of the opposite sign to `a`. */
  function TruncDiv(a: int, b: int): (q: int)
    requires b != 0
    ensures Abs(a - q * b) < Abs(b)
    ensures a - q * b == 0 || (a - q * b < 0 <==> a < 0)
  {
    var m := Abs(a) / Abs(b);
    assert Abs(a) - m * Abs(b) < Abs(b);
    if (a < 0) == (b < 0) then m else -m
  }

  /** On non-negative operands it is Dafny's division. */
  lemma TruncDivOfNonNegative(a: int, b: int)
    requires a >= 0 && b > 0
    ensures TruncDiv(a, b) == a / b
  {
    var q := TruncDiv(a, b);
    var r := a - q * b;
    assert 0 <= r < b;
    assert a == q * b + r;
  }

  /** Rounding toward zero differs from Dafny's rounding down: -1 / 3 is 0. */
  lemma TruncDivRoundsTowardZero()
    ensures TruncDiv(-1, 3) == 0 && -1 / 3 == -1
  {
  }

  /** static_cast<int> of a wider integer: the value modulo 2^32, read as
      a two's-complement number. */
  function ToInt32(x: int): (r: int)
    ensures InInt32(r)
    ensures (x - r) % Two32 == 0
    ensures InInt32(x) ==> r == x
  {
    var m := x % Two32;
    if m >= Two31 then m - Two32 else m
  }
}
