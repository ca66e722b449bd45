// Which bits of an address each field is cut from, scheme by scheme, and what changes
// from one aligned address to the next.
module AddressFields {
  import opened Bits
  import opened SystemConfiguration
  import opened AddressMapping

  // The bits of x from number `from` on, `width` of them.
  function Cut(x: nat, from: nat, width: nat): nat {
    x / Pow2(from) % Pow2(width)
  }

  lemma CutIs(x: nat, low: nat, from: nat, width: nat)
    ensures Cut(x, low + from, width) == Shr(Shr(x, low), from) % Pow2(width)
  {
    ShrTwice(x, low, from);
    ShrIsDivision(x, low + from);
  }

  // Five fields cut off one after the other.
  lemma FiveCuts(g: Geometry, address: nat, a: Field, b: Field, c: Field, d: Field, e: Field)
    requires Order(g.scheme) == [a, b, c, d, e]
    ensures var low := g.byteOffsetBits + g.colLowBits;
      var (wa, wb, wc, wd, we) := (Width(g, a), Width(g, b), Width(g, c), Width(g, d), Width(g, e));
      Decode(g, address) == ORIGIN.Set(a, Cut(address, low, wa)).Set(b, Cut(address, low + wa, wb))
        .Set(c, Cut(address, low + wa + wb, wc)).Set(d, Cut(address, low + wa + wb + wc, wd))
        .Set(e, Cut(address, low + wa + wb + wc + wd, we))
  {
    hide Fill, Pow2, Cut, Shr;
    var low := g.byteOffsetBits + g.colLowBits;
    var (wa, wb, wc, wd, we) := (Width(g, a), Width(g, b), Width(g, c), Width(g, d), Width(g, e));
    ShrTwice(address, g.byteOffsetBits, g.colLowBits);
    var x := Shr(address, low);
    FillFive(g, a, b, c, d, e, x);
    CutIs(address, low, 0, wa);
    ShrTwice(x, 0, 0);
    CutIs(address, low, wa, wb);
    ShrTwice(x, wa, wb);
    CutIs(address, low, wa + wb, wc);
    ShrTwice(x, wa + wb, wc);
    CutIs(address, low, wa + wb + wc, wd);
    ShrTwice(x, wa + wb + wc, wd);
    CutIs(address, low, wa + wb + wc + wd, we);
    assert Shr(x, 0) == x by { ShrNothing(x); }
  }

  lemma ShrNothing(x: nat)
    ensures Shr(x, 0) == x
  {
  }

  // Above the byte offset and the low column bits, every scheme cuts the five fields off
  // in the order its name in the configuration says, lowest bits last.
  lemma DecodedFields(g: Geometry, address: nat)
    ensures var loc, low := Decode(g, address), g.byteOffsetBits + g.colLowBits;
      var (ch, ra, ba, ro, co) := (g.chanBits, g.rankBits, g.bankBits, g.rowBits, g.colHighBits);
      match g.scheme
      case Scheme1 => // channel, rank, row, column, bank
        && loc.bank == Cut(address, low, ba)
        && loc.column == Cut(address, low + ba, co)
        && loc.row == Cut(address, low + ba + co, ro)
        && loc.rank == Cut(address, low + ba + co + ro, ra)
        && loc.chan == Cut(address, low + ba + co + ro + ra, ch)
      case Scheme2 => // channel, row, column, bank, rank
        && loc.rank == Cut(address, low, ra)
        && loc.bank == Cut(address, low + ra, ba)
        && loc.column == Cut(address, low + ra + ba, co)
        && loc.row == Cut(address, low + ra + ba + co, ro)
        && loc.chan == Cut(address, low + ra + ba + co + ro, ch)
      case Scheme3 => // channel, rank, bank, column, row
        && loc.row == Cut(address, low, ro)
        && loc.column == Cut(address, low + ro, co)
        && loc.bank == Cut(address, low + ro + co, ba)
        && loc.rank == Cut(address, low + ro + co + ba, ra)
        && loc.chan == Cut(address, low + ro + co + ba + ra, ch)
      case Scheme4 => // channel, rank, bank, row, column
        && loc.column == Cut(address, low, co)
        && loc.row == Cut(address, low + co, ro)
        && loc.bank == Cut(address, low + co + ro, ba)
        && loc.rank == Cut(address, low + co + ro + ba, ra)
        && loc.chan == Cut(address, low + co + ro + ba + ra, ch)
      case Scheme5 => // channel, row, column, rank, bank
        && loc.bank == Cut(address, low, ba)
        && loc.rank == Cut(address, low + ba, ra)
        && loc.column == Cut(address, low + ba + ra, co)
        && loc.row == Cut(address, low + ba + ra + co, ro)
        && loc.chan == Cut(address, low + ba + ra + co + ro, ch)
      case Scheme6 => // channel, row, bank, rank, column
        && loc.column == Cut(address, low, co)
        && loc.rank == Cut(address, low + co, ra)
        && loc.bank == Cut(address, low + co + ra, ba)
        && loc.row == Cut(address, low + co + ra + ba, ro)
        && loc.chan == Cut(address, low + co + ra + ba + ro, ch)
      case Scheme7 => // row, column, rank, bank, channel
        && loc.chan == Cut(address, low, ch)
        && loc.bank == Cut(address, low + ch, ba)
        && loc.rank == Cut(address, low + ch + ba, ra)
        && loc.column == Cut(address, low + ch + ba + ra, co)
        && loc.row == Cut(address, low + ch + ba + ra + co, ro)
  {
    hide Decode, Cut;
    match g.scheme
    case Scheme1 => FiveCuts(g, address, Bank, Column, Row, Rank, Chan);
    case Scheme2 => FiveCuts(g, address, Rank, Bank, Column, Row, Chan);
    case Scheme3 => FiveCuts(g, address, Row, Column, Bank, Rank, Chan);
    case Scheme4 => FiveCuts(g, address, Column, Row, Bank, Rank, Chan);
    case Scheme5 => FiveCuts(g, address, Bank, Rank, Column, Row, Chan);
    case Scheme6 => FiveCuts(g, address, Column, Rank, Bank, Row, Chan);
    case Scheme7 => FiveCuts(g, address, Chan, Bank, Rank, Column, Row);
  }

  // ---- Neighbours ----

  // The bits below number `from` of n are all ones.
  predicate AllOnes(n: nat, from: nat) {
    n % Pow2(from) == Pow2(from) - 1
  }

  // A field that holds its last value.
  predicate Last(v: nat, width: nat) {
    v == Pow2(width) - 1
  }

  // A field that counts on, from its last value back to zero, when there is a carry.
  function Count(v: nat, width: nat, carry: bool): nat {
    if !carry then v else if Last(v, width) then 0 else v + 1
  }

  lemma NextQuotient(n: nat, p: nat)
    requires p > 0
    ensures (n + 1) / p == n / p + if n % p == p - 1 then 1 else 0
  {
    var q, r := n / p, n % p;
    assert n == q * p + r;
    if r == p - 1 {
      assert n + 1 == (q + 1) * p + 0;
      DivUnique(n + 1, p, q + 1, 0);
    } else {
      DivUnique(n + 1, p, q, r + 1);
    }
  }

  lemma NextRemainder(n: nat, p: nat)
    requires p > 0
    ensures (n + 1) % p == if n % p == p - 1 then 0 else n % p + 1
  {
    var q, r := n / p, n % p;
    assert n == q * p + r;
    if r == p - 1 {
      assert n + 1 == (q + 1) * p + 0;
      DivUnique(n + 1, p, q + 1, 0);
    } else {
      DivUnique(n + 1, p, q, r + 1);
    }
  }

  // A cut counts on when all bits below it are ones.
  lemma NextCut(n: nat, from: nat, width: nat)
    ensures Cut(n + 1, from, width) == Count(Cut(n, from, width), width, AllOnes(n, from))
  {
    NextQuotient(n, Pow2(from));
    NextRemainder(n / Pow2(from), Pow2(width));
  }

  // The bits below a cut's end are all ones when those below it are, and its own.
  lemma OnesThroughCut(n: nat, from: nat, width: nat)
    ensures AllOnes(n, from + width) <==> AllOnes(n, from) && Last(Cut(n, from, width), width)
  {
    ModSplit(n, from, width);
    ShrIsDivision(n, from);
    Pow2Add(from, width);
    var (p, q, a, b) := (Pow2(from), Pow2(width), n % Pow2(from), Cut(n, from, width));
    assert n % Pow2(from + width) == a + p * b && a < p && b < q;
    TopDigits(a, p, b, q);
  }

  lemma TopDigits(a: nat, p: nat, b: nat, q: nat)
    requires a < p && b < q
    ensures a + p * b == p * q - 1 <==> a == p - 1 && b == q - 1
  {
    if b == q - 1 {
      assert p * b == p * q - p;
    } else {
      MulMonotone(p, b + 1, q - 1);
      assert p * (b + 1) == p * b + p && p * (q - 1) == p * q - p;
    }
  }

  // Cuts of an address above its alignment bits.
  lemma CutAbove(x: nat, low: nat, from: nat, width: nat)
    ensures Cut(x, low + from, width) == Cut(Shr(x, low), from, width)
  {
    CutIs(x, low, from, width);
    ShrIsDivision(Shr(x, low), from);
  }

  // One step of alignment counts the rest of the address on by one.
  lemma NextAligned(x: nat, low: nat)
    ensures Shr(x + Pow2(low), low) == Shr(x, low) + 1
  {
    ShrIsDivision(x, low);
    ShrIsDivision(x + Pow2(low), low);
    OneMore(x, Pow2(low));
  }

  lemma OneMore(x: nat, p: nat)
    requires p > 0
    ensures (x + p) / p == x / p + 1
  {
    DivUnique(x + p, p, x / p + 1, x % p);
  }

  // Five cuts of neighbouring addresses, by their widths, lowest first.
  lemma FiveCount(x: nat, low: nat, a: nat, b: nat, c: nat, d: nat, e: nat)
    ensures var y := x + Pow2(low);
      var (va, vb, vc, vd) := (Cut(x, low, a), Cut(x, low + a, b), Cut(x, low + a + b, c), Cut(x, low + a + b + c, d));
      var (la, lb, lc, ld) := (Last(va, a), Last(vb, b), Last(vc, c), Last(vd, d));
      && Cut(y, low, a) == Count(va, a, true)
      && Cut(y, low + a, b) == Count(vb, b, la)
      && Cut(y, low + a + b, c) == Count(vc, c, la && lb)
      && Cut(y, low + a + b + c, d) == Count(vd, d, la && lb && lc)
      && Cut(y, low + a + b + c + d, e) == Count(Cut(x, low + a + b + c + d, e), e, la && lb && lc && ld)
  {
    hide Cut, Count, Last, AllOnes, Pow2, Shr;
    var n := Shr(x, low);
    NextAligned(x, low);
    CountAt(x, low, 0, a);
    CountAt(x, low, a, b);
    CountAt(x, low, a + b, c);
    CountAt(x, low, a + b + c, d);
    CountAt(x, low, a + b + c + d, e);
    NoBits(n);
  }

  // One cut and the carry into and out of it.
  lemma CountAt(x: nat, low: nat, from: nat, width: nat)
    ensures var n := Shr(x, low);
      && Cut(x + Pow2(low), low + from, width) == Count(Cut(x, low + from, width), width, AllOnes(n, from))
      && (AllOnes(n, from + width) <==> AllOnes(n, from) && Last(Cut(x, low + from, width), width))
  {
    hide Cut, Count, Last, AllOnes, Pow2, Shr;
    var n := Shr(x, low);
    NextAligned(x, low);
    CutAbove(x, low, from, width);
    CutAbove(x + Pow2(low), low, from, width);
    NextCut(n, from, width);
    OnesThroughCut(n, from, width);
  }

  lemma NoBits(n: nat)
    ensures AllOnes(n, 0)
  {
    assert Pow2(0) == 1;
  }

  // From one aligned address to the next, the lowest field of the scheme counts on; every
  // other field does exactly when all fields below it start over.
  lemma NextAddress(g: Geometry, address: nat)
    ensures var (a, b) := (Decode(g, address), Decode(g, address + Pow2(g.byteOffsetBits + g.colLowBits)));
      var (ch, ra, ba, ro, co) := (g.chanBits, g.rankBits, g.bankBits, g.rowBits, g.colHighBits);
      var (lastCh, lastRa, lastBa, lastRo, lastCo) :=
        (Last(a.chan, ch), Last(a.rank, ra), Last(a.bank, ba), Last(a.row, ro), Last(a.column, co));
      match g.scheme
      case Scheme1 =>
        && b.bank == Count(a.bank, ba, true)
        && b.column == Count(a.column, co, lastBa)
        && b.row == Count(a.row, ro, lastBa && lastCo)
        && b.rank == Count(a.rank, ra, lastBa && lastCo && lastRo)
        && b.chan == Count(a.chan, ch, lastBa && lastCo && lastRo && lastRa)
      case Scheme2 =>
        && b.rank == Count(a.rank, ra, true)
        && b.bank == Count(a.bank, ba, lastRa)
        && b.column == Count(a.column, co, lastRa && lastBa)
        && b.row == Count(a.row, ro, lastRa && lastBa && lastCo)
        && b.chan == Count(a.chan, ch, lastRa && lastBa && lastCo && lastRo)
      case Scheme3 =>
        && b.row == Count(a.row, ro, true)
        && b.column == Count(a.column, co, lastRo)
        && b.bank == Count(a.bank, ba, lastRo && lastCo)
        && b.rank == Count(a.rank, ra, lastRo && lastCo && lastBa)
        && b.chan == Count(a.chan, ch, lastRo && lastCo && lastBa && lastRa)
      case Scheme4 =>
        && b.column == Count(a.column, co, true)
        && b.row == Count(a.row, ro, lastCo)
        && b.bank == Count(a.bank, ba, lastCo && lastRo)
        && b.rank == Count(a.rank, ra, lastCo && lastRo && lastBa)
        && b.chan == Count(a.chan, ch, lastCo && lastRo && lastBa && lastRa)
      case Scheme5 =>
        && b.bank == Count(a.bank, ba, true)
        && b.rank == Count(a.rank, ra, lastBa)
        && b.column == Count(a.column, co, lastBa && lastRa)
        && b.row == Count(a.row, ro, lastBa && lastRa && lastCo)
        && b.chan == Count(a.chan, ch, lastBa && lastRa && lastCo && lastRo)
      case Scheme6 =>
        && b.column == Count(a.column, co, true)
        && b.rank == Count(a.rank, ra, lastCo)
        && b.bank == Count(a.bank, ba, lastCo && lastRa)
        && b.row == Count(a.row, ro, lastCo && lastRa && lastBa)
        && b.chan == Count(a.chan, ch, lastCo && lastRa && lastBa && lastRo)
      case Scheme7 =>
        && b.chan == Count(a.chan, ch, true)
        && b.bank == Count(a.bank, ba, lastCh)
        && b.rank == Count(a.rank, ra, lastCh && lastBa)
        && b.column == Count(a.column, co, lastCh && lastBa && lastRa)
        && b.row == Count(a.row, ro, lastCh && lastBa && lastRa && lastCo)
  {
    hide Decode, Cut, Count, Last;
    var low := g.byteOffsetBits + g.colLowBits;
    var (ch, ra, ba, ro, co) := (g.chanBits, g.rankBits, g.bankBits, g.rowBits, g.colHighBits);
    DecodedFields(g, address);
    DecodedFields(g, address + Pow2(low));
    match g.scheme
    case Scheme1 => FiveCount(address, low, ba, co, ro, ra, ch);
    case Scheme2 => FiveCount(address, low, ra, ba, co, ro, ch);
    case Scheme3 => FiveCount(address, low, ro, co, ba, ra, ch);
    case Scheme4 => FiveCount(address, low, co, ro, ba, ra, ch);
    case Scheme5 => FiveCount(address, low, ba, ra, co, ro, ch);
    case Scheme6 => FiveCount(address, low, co, ra, ba, ro, ch);
    case Scheme7 => FiveCount(address, low, ch, ba, ra, co, ro);
  }
}
