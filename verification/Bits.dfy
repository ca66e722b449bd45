// Powers of two and the three machine operators that the address decoder uses,
// on natural numbers.
module Bits {

  function Pow2(k: nat): (p: nat)
    ensures p >= 1
  {
    if k == 0 then 1 else 2 * Pow2(k - 1)
  }

  lemma {:induction false} Pow2Add(a: nat, b: nat)
    ensures Pow2(a + b) == Pow2(a) * Pow2(b)
  {
    if a == 0 {
    } else {
      Pow2Add(a - 1, b);
      assert Pow2(a + b) == 2 * Pow2((a - 1) + b);
    }
  }

  lemma {:induction false} Pow2Monotone(a: nat, b: nat)
    requires a < b
    ensures Pow2(a) < Pow2(b)
  {
    if a + 1 < b {
      Pow2Monotone(a, b - 1);
    }
  }

  // x >> w, one bit at a time.
  function Shr(x: nat, w: nat): (y: nat)
    ensures y <= x
  {
    if w == 0 then x else Shr(x / 2, w - 1)
  }

  lemma {:induction false} ShrIsDivision(x: nat, w: nat)
    ensures Shr(x, w) == x / Pow2(w)
  {
    if w == 0 {
    } else {
      ShrIsDivision(x / 2, w - 1);
      DivTwice(x, Pow2(w - 1));
    }
  }

  const TWO_32: nat := 0x1_0000_0000
  const TWO_64: nat := 0x1_0000_0000_0000_0000

  // x << w on 64-bit words: bits shifted out at the top are lost.
  function Shl64(x: nat, w: nat): nat {
    (x * Pow2(w)) % TWO_64
  }

  lemma Pow2Squares(k: nat, p: nat)
    requires Pow2(k) == p
    ensures Pow2(2 * k) == p * p
  {
    Pow2Add(k, k);
  }

  lemma Pow2Upto32(w: nat)
    requires w <= 32
    ensures Pow2(w) <= TWO_32
  {
    var two := 2;
    assert Pow2(two) == 4;
    Pow2Squares(two, 4);
    Pow2Squares(2 * two, 16);
    Pow2Squares(4 * two, 256);
    Pow2Squares(8 * two, 65536);
    if w < 16 * two {
      Pow2Monotone(w, 16 * two);
    }
  }

  // Bitwise exclusive or, bit by bit from the bottom.
  function Xor(a: nat, b: nat): nat
    decreases a + b
  {
    if a == 0 && b == 0 then 0
    else (if a % 2 == b % 2 then 0 else 1) + 2 * Xor(a / 2, b / 2)
  }

  lemma {:induction false} XorSelf(a: nat)
    ensures Xor(a, a) == 0
  {
    if a > 0 {
      XorSelf(a / 2);
    }
  }

  // Clearing the low w bits of x and xor-ing with x leaves the low w bits.
  lemma {:induction false} XorKeepsLowBits(x: nat, w: nat)
    ensures Xor(x, Shr(x, w) * Pow2(w)) == x % Pow2(w)
    decreases w
  {
    if w == 0 {
      XorSelf(x);
    } else {
      var p := Pow2(w - 1);
      var y := Shr(x, w) * Pow2(w);
      HalfShift(x, w);
      XorKeepsLowBits(x / 2, w - 1);
      assert y % 2 == 0 && y / 2 == Shr(x / 2, w - 1) * p;
      LowBitsStep(x, p);
      if x == 0 {
        assert y == 0;
      }
    }
  }

  lemma HalfShift(x: nat, w: nat)
    requires w > 0
    ensures (Shr(x, w) * Pow2(w)) % 2 == 0
    ensures (Shr(x, w) * Pow2(w)) / 2 == Shr(x / 2, w - 1) * Pow2(w - 1)
  {
    var q, p := Shr(x, w), Pow2(w - 1);
    assert q * Pow2(w) == 2 * (q * p);
  }

  lemma DivTwice(x: nat, p: nat)
    requires p > 0
    ensures x / (2 * p) == (x / 2) / p
  {
    var y := x / 2;
    var q, r := y / p, y % p;
    assert y == q * p + r;
    assert q * (2 * p) == 2 * (q * p);
    DivUnique(x, 2 * p, q, 2 * r + x % 2);
  }

  lemma DivUnique(x: nat, d: nat, q: nat, r: nat)
    requires d > 0 && r < d && x == q * d + r
    ensures x / d == q && x % d == r
  {
    MultipleBelow(x / d - q, d, r - x % d);
  }

  // A multiple of d strictly between -d and d is zero.
  lemma MultipleBelow(k: int, d: int, v: int)
    requires k * d == v && -d < v && v < d
    ensures k == 0
  {
    if k != 0 {
      ScalesUp(k, d);
    }
  }

  lemma ScalesUp(k: int, d: int)
    requires d > 0
    ensures k >= 1 ==> k * d >= d
    ensures k <= -1 ==> k * d <= -d
  {
    assert k >= 1 ==> k * d == d + (k - 1) * d;
    assert k <= -1 ==> k * d == -d + (k + 1) * d;
  }

  lemma LowBitsStep(x: nat, p: nat)
    requires p > 0
    ensures x % (2 * p) == x % 2 + 2 * ((x / 2) % p)
  {
    var q, r := (x / 2) / p, (x / 2) % p;
    assert x / 2 == q * p + r;
    assert x == 2 * (q * p) + 2 * r + x % 2;
    assert q * (2 * p) == 2 * (q * p);
    DivUnique(x, 2 * p, q, 2 * r + x % 2);
  }

  lemma MulMonotone(p: nat, a: nat, b: nat)
    requires a <= b
    ensures p * a <= p * b
  {
    assert p * b == p * a + p * (b - a);
  }

  // Two successive divisions, stated without division.
  lemma NestedParts(p: nat, q: nat, y: nat, r: nat, z: nat, s: nat)
    requires r < p && s < q && y == z * q + s
    ensures y * p + r == z * (p * q) + (p * s + r)
    ensures p * s + r < p * q
  {
    assert (z * q + s) * p == z * (p * q) + p * s;
    MulMonotone(p, s, q - 1);
    assert p * (q - 1) == p * q - p;
  }

  lemma DivModTwice(x: nat, p: nat, q: nat)
    requires p > 0 && q > 0
    ensures p * q > 0
    ensures (x / p) / q == x / (p * q)
    ensures x % (p * q) == x % p + p * ((x / p) % q)
  {
    var y, r := x / p, x % p;
    var z, s := y / q, y % q;
    NestedParts(p, q, y, r, z, s);
    DivUnique(x, p * q, z, p * s + r);
  }

  // A digit below p on top of a number below q stays below p * q.
  lemma DigitBound(d: nat, p: nat, y: nat, q: nat)
    requires d < p && y < q
    ensures d + p * y < p * q
  {
    MulMonotone(p, y, q - 1);
    assert p * (q - 1) == p * q - p;
  }

  // Bitwise and, bit by bit from the bottom.
  function And(a: nat, b: nat): nat
    decreases a
  {
    if a == 0 then 0
    else (if a % 2 == 1 && b % 2 == 1 then 1 else 0) + 2 * And(a / 2, b / 2)
  }

  lemma {:induction false} AndZero(a: nat)
    ensures And(a, 0) == 0
  {
    if a > 0 {
      AndZero(a / 2);
    }
  }

  lemma AndOdd(a: nat, m: nat)
    ensures And(a, 2 * m + 1) == a % 2 + 2 * And(a / 2, m)
  {
    assert (2 * m + 1) / 2 == m && (2 * m + 1) % 2 == 1;
  }

  lemma AndEven(a: nat, m: nat)
    ensures And(a, 2 * m) == 2 * And(a / 2, m)
  {
    assert (2 * m) / 2 == m && (2 * m) % 2 == 0;
    if a > 0 {
      assert And(a, 2 * m) == 2 * And(a / 2, (2 * m) / 2);
    }
  }

  // Masking with 2^w - 1 keeps the low w bits.
  lemma {:induction false} AndMask(a: nat, w: nat)
    ensures And(a, Pow2(w) - 1) == a % Pow2(w)
    decreases w
  {
    if w == 0 {
      AndZero(a);
    } else {
      var p := Pow2(w - 1);
      AndMask(a / 2, w - 1);
      AndOdd(a, p - 1);
      LowBitsStep(a, p);
      hide And;
      assert Pow2(w) == 2 * p;
    }
  }

  // Masking with a band of ones above the low w bits.
  lemma {:induction false} AndShifted(a: nat, m: nat, w: nat)
    ensures And(a, m * Pow2(w)) == And(Shr(a, w), m) * Pow2(w)
    decreases w
  {
    hide And;
    if w > 0 {
      var p := Pow2(w - 1);
      AndShifted(a / 2, m, w - 1);
      AndEven(a, m * p);
      var y := And(Shr(a, w), m);
      Doubled(m, p);
      Doubled(y, p);
    }
  }

  lemma Doubled(m: nat, p: nat)
    ensures m * (2 * p) == 2 * (m * p)
  {
  }
}
