/** Python's integer bit operations.

    Python treats an `int` as an infinite two's-complement bit string, so
    `~x == -x - 1` and `x & y`, `x | y` are defined for negative numbers too.
    Bit j of x is the j-th digit of that string; Dafny's Euclidean `/` and `%`
    by 2 give exactly the arithmetic shift and the low bit. */
module Bits {

  /** A value in a byte of a Python `bytes` object. */
  type Byte = b: int | 0 <= b < 256

  /** The number has no bits besides its (infinitely repeated) sign bit. */
  predicate IsSign(x: int) {
    x == 0 || x == -1
  }

  /** A measure that shrinks under an arithmetic right shift. */
  function Size(x: int): nat {
    if x >= 0 then x else -x - 1
  }

  /** Bit j of x (Python: `(x >> j) & 1 == 1`). */
  function Bit(x: int, j: nat): bool
    decreases j
  {
    if j == 0 then x % 2 == 1 else Bit(x / 2, j - 1)
  }

  /** 2 to the n. */
  function Pow2(n: nat): (p: int)
    ensures p >= 1
  {
    if n == 0 then 1 else 2 * Pow2(n - 1)
  }

  lemma EightBits()
    ensures Pow2(8) == 256
  {
  }

  /** Python `a | b`. */
  function Or(a: int, b: int): int
    decreases Size(a) + Size(b)
  {
    if IsSign(a) && IsSign(b) then
      if a == -1 || b == -1 then -1 else 0
    else
      2 * Or(a / 2, b / 2) + (if a % 2 == 1 || b % 2 == 1 then 1 else 0)
  }

  /** Python `a & b`. */
  function And(a: int, b: int): int
    decreases Size(a) + Size(b)
  {
    if IsSign(a) && IsSign(b) then
      if a == -1 && b == -1 then -1 else 0
    else
      2 * And(a / 2, b / 2) + (if a % 2 == 1 && b % 2 == 1 then 1 else 0)
  }

  /** Python `~a`. */
  function Not(a: int): int {
    -a - 1
  }

  /** Python `x << n`. */
  function Shl(x: int, n: nat): int {
    if n == 0 then x else 2 * Shl(x, n - 1)
  }

  /** The bits 0..7 of x, which is all a byte-wide reader of x sees. */
  function Low8(x: int): Byte {
    x % 256
  }

  /** One step of `a | b` : the or of the halves, shifted up, and the low bit. */
  lemma OrStep(a: int, b: int, h: int)
    requires !(IsSign(a) && IsSign(b)) && Or(a / 2, b / 2) == h
    ensures Or(a, b) == 2 * h + (if a % 2 == 1 || b % 2 == 1 then 1 else 0)
  {
  }

  /** One step of `a & b`. */
  lemma AndStep(a: int, b: int, h: int)
    requires !(IsSign(a) && IsSign(b)) && And(a / 2, b / 2) == h
    ensures And(a, b) == 2 * h + (if a % 2 == 1 && b % 2 == 1 then 1 else 0)
  {
  }

  // ---------------------------------------------------------------------
  // Bitwise laws, bit by bit

  lemma SignBits(x: int, j: nat)
    requires IsSign(x)
    ensures Bit(x, j) == (x == -1)
    decreases j
  {
    if j > 0 {
      SignBits(x / 2, j - 1);
    }
  }

  lemma {:induction false} OrBit(a: int, b: int, j: nat)
    ensures Bit(Or(a, b), j) == (Bit(a, j) || Bit(b, j))
    decreases j
  {
    OrHalf(a, b);
    if j > 0 {
      OrBit(a / 2, b / 2, j - 1);
    }
  }

  lemma {:induction false} AndBit(a: int, b: int, j: nat)
    ensures Bit(And(a, b), j) == (Bit(a, j) && Bit(b, j))
    decreases j
  {
    AndHalf(a, b);
    if j > 0 {
      AndBit(a / 2, b / 2, j - 1);
    }
  }

  lemma OrHalf(a: int, b: int)
    ensures Or(a, b) / 2 == Or(a / 2, b / 2)
    ensures Or(a, b) % 2 == (if a % 2 == 1 || b % 2 == 1 then 1 else 0)
  {
    if IsSign(a) && IsSign(b) {
      assert a / 2 == a && b / 2 == b;
    } else {
      var c := if a % 2 == 1 || b % 2 == 1 then 1 else 0;
      assert Or(a, b) == 2 * Or(a / 2, b / 2) + c;
    }
  }

  lemma AndHalf(a: int, b: int)
    ensures And(a, b) / 2 == And(a / 2, b / 2)
    ensures And(a, b) % 2 == (if a % 2 == 1 && b % 2 == 1 then 1 else 0)
  {
    if IsSign(a) && IsSign(b) {
      assert a / 2 == a && b / 2 == b;
    } else {
      var c := if a % 2 == 1 && b % 2 == 1 then 1 else 0;
      assert And(a, b) == 2 * And(a / 2, b / 2) + c;
    }
  }

  lemma {:induction false} NotBit(a: int, j: nat)
    ensures Bit(Not(a), j) == !Bit(a, j)
    decreases j
  {
    if j > 0 {
      assert Not(a) / 2 == Not(a / 2);
      NotBit(a / 2, j - 1);
    }
  }

  lemma {:induction false} ShlBit(x: int, n: nat, j: nat)
    ensures Bit(Shl(x, n), j) == (j >= n && Bit(x, j - n))
    decreases n
  {
    if n > 0 {
      if j == 0 {
      } else {
        assert Shl(x, n) / 2 == Shl(x, n - 1);
        ShlBit(x, n - 1, j - 1);
      }
    }
  }

  lemma {:induction false} ShlMul(x: int, n: nat)
    ensures Shl(x, n) == x * Pow2(n)
    decreases n
  {
    if n > 0 {
      ShlMul(x, n - 1);
      assert x * Pow2(n) == 2 * (x * Pow2(n - 1));
    }
  }

  /** Two integers with the same bits are equal. */
  lemma {:induction false} BitsDetermine(a: int, b: int)
    requires forall j: nat :: Bit(a, j) == Bit(b, j)
    ensures a == b
    decreases Size(a) + Size(b)
  {
    assert Bit(a, 0) == Bit(b, 0);
    if !(IsSign(a) && IsSign(b)) {
      forall j: nat
        ensures Bit(a / 2, j) == Bit(b / 2, j)
      {
        assert Bit(a, j + 1) == Bit(b, j + 1);
      }
      BitsDetermine(a / 2, b / 2);
    }
  }

  /** Python's `x & (1 << j) != 0` tests exactly bit j of x. */
  lemma MaskTest(x: int, j: nat)
    ensures (And(x, Shl(1, j)) != 0) == Bit(x, j)
  {
    var m := And(x, Shl(1, j));
    forall i: nat
      ensures Bit(m, i) == (i == j && Bit(x, j))
    {
      AndBit(x, Shl(1, j), i);
      ShlBit(1, j, i);
      if i > j {
        SignBits(0, i - j - 1);
        assert Bit(1, i - j) == Bit(0, i - j - 1);
      }
    }
    if Bit(x, j) {
      SignBits(0, j);
    } else {
      forall i: nat
        ensures Bit(m, i) == Bit(0, i)
      {
        SignBits(0, i);
      }
      BitsDetermine(m, 0);
    }
  }

  /** `x % (2 * m)` splits into the low bit and the rest shifted down. */
  lemma ModDouble(x: int, m: int)
    requires m > 0
    ensures x % (2 * m) == x % 2 + 2 * ((x / 2) % m)
  {
    var q, r := x / 2, x % 2;
    var s, t := q / m, q % m;
    assert x == (2 * m) * s + (2 * t + r) by {
      assert q == m * s + t;
      assert x == 2 * q + r;
    }
    DivModUnique(x, 2 * m, s, 2 * t + r);
  }

  lemma DivModUnique(x: int, d: int, q: int, r: int)
    requires d > 0 && 0 <= r < d && x == d * q + r
    ensures x / d == q && x % d == r
  {
    var q', r' := x / d, x % d;
    assert d * q + r == d * q' + r';
    if q > q' {
      assert d * (q - q') == d * q - d * q';
      MulAtLeast(d, q - q');
    } else if q < q' {
      assert d * (q' - q) == d * q' - d * q;
      MulAtLeast(d, q' - q);
    }
  }

  lemma {:induction false} MulAtLeast(d: int, k: int)
    requires d > 0 && k > 0
    ensures d * k >= d
    decreases k
  {
    if k > 1 {
      MulAtLeast(d, k - 1);
      assert d * k == d * (k - 1) + d;
    }
  }

  /** The low n bits of x: bit j of `x % 2^n` is bit j of x below n, else 0. */
  lemma {:induction false} LowBits(x: int, n: nat, j: nat)
    ensures Bit(x % Pow2(n), j) == (j < n && Bit(x, j))
    decreases n
  {
    if n == 0 {
      SignBits(0, j);
    } else {
      ModDouble(x, Pow2(n - 1));
      var rest := (x / 2) % Pow2(n - 1);
      assert x % Pow2(n) == x % 2 + 2 * rest;
      if j > 0 {
        assert (x % 2 + 2 * rest) / 2 == rest;
        LowBits(x / 2, n - 1, j - 1);
      }
    }
  }

  /** A byte-wide reader sees bit j of x for j below 8 and nothing above. */
  lemma Low8Bit(x: int, j: nat)
    ensures Bit(Low8(x), j) == (j < 8 && Bit(x, j))
  {
    assert Pow2(8) == 256;
    LowBits(x, 8, j);
  }

  /** The low byte of `~x` is the byte complement `255 - b` of x's low byte. */
  lemma Low8Not(x: int)
    ensures Low8(Not(x)) == 255 - Low8(x)
  {
    DivModUnique(Not(x), 256, -(x / 256) - 1, 255 - x % 256);
  }

  /** `a | b` keeps every bit of `a`: or-ing never clears a bit. */
  lemma OrKeepsBits(a: int, b: int, j: nat)
    requires Bit(a, j)
    ensures Bit(Or(a, b), j)
  {
    OrBit(a, b, j);
  }

  /** Or-ing the same bits twice is or-ing them once. */
  lemma OrAbsorb(a: int, b: int)
    ensures Or(Or(a, b), b) == Or(a, b)
  {
    forall j: nat
      ensures Bit(Or(Or(a, b), b), j) == Bit(Or(a, b), j)
    {
      OrBit(Or(a, b), b, j);
      OrBit(a, b, j);
    }
    BitsDetermine(Or(Or(a, b), b), Or(a, b));
  }
}
