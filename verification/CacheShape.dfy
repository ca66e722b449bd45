// The sizes of a cache: its line shift as the position of the highest set bit, found by
// halving with masks.
module CacheShapes {
  import opened Bits

  // The band of w ones above the low w bits.
  function Band(w: nat): nat {
    (Pow2(w) - 1) * Pow2(w)
  }

  lemma Bands()
    ensures Pow2(1) == 2 && Pow2(2) == 4 && Pow2(4) == 16 && Pow2(8) == 0x100 && Pow2(16) == 0x1_0000 && Pow2(32) == TWO_32
    ensures Band(16) == 0xffff0000 && Band(8) == 0xff00 && Band(4) == 0xf0 && Band(2) == 0xc && Band(1) == 2
  {
    Pow2Small();
    Pow2Squares(4, 16);
    Pow2Squares(8, 0x100);
    Pow2Squares(16, 0x1_0000);
  }

  lemma Pow2Small()
    ensures Pow2(1) == 2 && Pow2(2) == 4 && Pow2(4) == 16
  {
    assert Pow2(3) == 8;
  }

  // The mask test asks whether any of bits w to 2w - 1 is set.
  lemma BandTest(n: nat, w: nat)
    ensures And(n, Band(w)) != 0 <==> Shr(n, w) % Pow2(w) != 0
  {
    AndShifted(n, Pow2(w) - 1, w);
    AndMask(Shr(n, w), w);
    var y, p := Shr(n, w) % Pow2(w), Pow2(w);
    assert y != 0 ==> y * p >= p by {
      MulMonotone(p, 1, if y == 0 then 1 else y);
    }
  }

  // p is the position of the highest set bit of n.
  ghost predicate HighestBit(n: nat, p: nat) {
    Pow2(p) <= n < Pow2(p + 1)
  }

  // The number is shifted down when the test finds a bit in its upper half.
  ghost predicate Stage(n: nat, w: nat, n': nat, d: nat) {
    if And(n, Band(w)) != 0 then n' == Shr(n, w) && d == w else n' == n && d == 0
  }

  // For a 32-bit word, n has at most w bits and its highest bit is p below the word's.
  ghost predicate Narrowed(word: nat, n: nat, p: nat, w: nat) {
    0 < word < TWO_32 ==> 0 < n < Pow2(w) && forall q: nat :: HighestBit(n, q) ==> HighestBit(word, p + q)
  }

  lemma NarrowStep(word: nat, n: nat, p: nat, w: nat, n': nat, d: nat)
    requires Narrowed(word, n, p, 2 * w) && Stage(n, w, n', d)
    ensures Narrowed(word, n', p + d, w)
  {
    if 0 < word < TWO_32 {
      hide Stage, HighestBit;
      Halving(n, w, n', d);
      forall q: nat | HighestBit(n', q) ensures HighestBit(word, p + d + q) {
        assert HighestBit(n, d + q);
        assert p + d + q == p + (d + q);
      }
    }
  }

  // Below 2^2w the test tells which half the highest bit is in.
  lemma TestIsHalf(n: nat, w: nat)
    requires n < Pow2(2 * w)
    ensures And(n, Band(w)) != 0 <==> n >= Pow2(w)
    ensures Shr(n, w) < Pow2(w) && (n >= Pow2(w) ==> Shr(n, w) > 0)
  {
    hide And, Band, Pow2, Shr;
    BandTest(n, w);
    ShrIsDivision(n, w);
    Pow2Squares(w, Pow2(w));
    DivBelow(n, Pow2(w), Pow2(w));
  }

  lemma Halving(n: nat, w: nat, n': nat, d: nat)
    requires 0 < n < Pow2(2 * w) && Stage(n, w, n', d)
    ensures 0 < n' < Pow2(w)
    ensures forall p: nat :: HighestBit(n', p) ==> HighestBit(n, d + p)
  {
    hide And, Band, Pow2, Shr, HighestBit;
    TestIsHalf(n, w);
    ShrParts(n, w);
    if n >= Pow2(w) {
      forall p: nat | HighestBit(n', p) ensures HighestBit(n, w + p) {
        UpperHalf(n, n', w, p);
      }
    }
  }

  lemma ShrParts(n: nat, w: nat)
    ensures 0 <= n - Pow2(w) * Shr(n, w) < Pow2(w)
  {
    ShrIsDivision(n, w);
    hide Shr, Pow2;
    assert n == Pow2(w) * (n / Pow2(w)) + n % Pow2(w);
  }

  lemma UpperHalf(n: nat, d: nat, w: nat, p: nat)
    requires 0 <= n - Pow2(w) * d < Pow2(w) && HighestBit(d, p)
    ensures HighestBit(n, w + p)
  {
    hide Pow2;
    var q, lo, hi := Pow2(w), Pow2(p), Pow2(p + 1);
    Scaled(n, q, d, n - q * d, lo, hi);
    Pow2Add(w, p);
    Pow2Add(w, p + 1);
    assert w + p + 1 == w + (p + 1);
  }

  lemma DivBelow(n: nat, q: nat, k: nat)
    requires q > 0 && n < q * k
    ensures n / q < k && (n / q == 0 <==> n < q) && (n / q) % k == n / q
  {
    var d, r := n / q, n % q;
    assert n == q * d + r && r < q;
    QuotientBelow(n, q, d, r, k);
    DivUnique(d, k, 0, d);
  }

  lemma QuotientBelow(n: nat, q: nat, d: nat, r: nat, k: nat)
    requires n == q * d + r && r < q && n < q * k
    ensures d < k && (d == 0 <==> n < q)
  {
    if d >= k {
      MulMonotone(q, k, d);
    }
    if d >= 1 {
      MulMonotone(q, 1, d);
    }
  }

  lemma Scaled(n: nat, q: nat, d: nat, r: nat, lo: nat, hi: nat)
    requires n == q * d + r && r < q && lo <= d < hi
    ensures q * lo <= n < q * hi
  {
    MulMonotone(q, lo, d);
    MulMonotone(q, d, hi - 1);
    assert q * (hi - 1) == q * hi - q;
  }

  // The position of the highest set bit, -1 for 0.  The masks cover 32 bits of a 64-bit
  // word, so the answer is right exactly for words below 2^32.
  method FloorLog2(word: nat) returns (p: int)
    ensures word == 0 ==> p == -1
    ensures word > 0 ==> 0 <= p <= 31 && (HighestBit(word, p) <==> word < TWO_32)
  {
    hide And, Shr, HighestBit, Pow2, Band, Narrowed;
    Bands();
    if word == 0 {
      return -1;
    }
    var n := word;
    p := 0;
    StartsNarrow(word);
    ghost var n0, p0 := n, p;
    if And(n, 0xffff0000) != 0 { p := p + 16; n := Shr(n, 16); }
    NarrowStep(word, n0, p0, 16, n, p - p0);
    n0, p0 := n, p;
    if And(n, 0x0000ff00) != 0 { p := p + 8; n := Shr(n, 8); }
    NarrowStep(word, n0, p0, 8, n, p - p0);
    n0, p0 := n, p;
    if And(n, 0x000000f0) != 0 { p := p + 4; n := Shr(n, 4); }
    NarrowStep(word, n0, p0, 4, n, p - p0);
    n0, p0 := n, p;
    if And(n, 0x0000000c) != 0 { p := p + 2; n := Shr(n, 2); }
    NarrowStep(word, n0, p0, 2, n, p - p0);
    n0, p0 := n, p;
    if And(n, 0x00000002) != 0 { p := p + 1; }
    NarrowStep(word, n0, p0, 1, if p > p0 then Shr(n0, 1) else n0, p - p0);
    EndsNarrow(word, if p > p0 then Shr(n0, 1) else n0, p);
  }

  lemma StartsNarrow(word: nat)
    ensures Narrowed(word, word, 0, 32)
  {
    Pow2Squares(16, Pow2(16));
    Bands();
  }

  lemma EndsNarrow(word: nat, n: nat, p: nat)
    requires word > 0 && Narrowed(word, n, p, 1) && p <= 31
    ensures HighestBit(word, p) <==> word < TWO_32
  {
    Bands();
    if word < TWO_32 {
      assert HighestBit(n, 0);
      assert HighestBit(word, p + 0);
    } else {
      TooWide(word, p);
    }
  }

  lemma TooWide(word: nat, p: nat)
    requires word >= TWO_32 && p <= 31
    ensures !HighestBit(word, p)
  {
    Pow2Upto32(p + 1);
  }
}
