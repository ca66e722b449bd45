// Splitting a physical address into channel, rank, bank, row and column.
module AddressMapping {
  import opened Bits
  import opened SystemConfiguration

  datatype Field = Chan | Rank | Bank | Row | Column

  datatype Location = Location(chan: nat, rank: nat, bank: nat, row: nat, column: nat)
  {
    function Get(f: Field): nat {
      match f
      case Chan => chan
      case Rank => rank
      case Bank => bank
      case Row => row
      case Column => column
    }

    function Set(f: Field, v: nat): Location {
      match f
      case Chan => this.(chan := v)
      case Rank => this.(rank := v)
      case Bank => this.(bank := v)
      case Row => this.(row := v)
      case Column => this.(column := v)
    }
  }

  const ORIGIN := Location(0, 0, 0, 0, 0)

  function Width(g: Geometry, f: Field): nat {
    match f
    case Chan => g.chanBits
    case Rank => g.rankBits
    case Bank => g.bankBits
    case Row => g.rowBits
    case Column => g.colHighBits
  }

  // The fields of each scheme, lowest bits first.
  function Order(s: AddressMappingScheme): seq<Field> {
    match s
    case Scheme1 => [Bank, Column, Row, Rank, Chan]
    case Scheme2 => [Rank, Bank, Column, Row, Chan]
    case Scheme3 => [Row, Column, Bank, Rank, Chan]
    case Scheme4 => [Column, Row, Bank, Rank, Chan]
    case Scheme5 => [Bank, Rank, Column, Row, Chan]
    case Scheme6 => [Column, Rank, Bank, Row, Chan]
    case Scheme7 => [Chan, Bank, Rank, Column, Row]
  }

  ghost predicate Distinct(order: seq<Field>) {
    forall i, j :: 0 <= i < j < |order| ==> order[i] != order[j]
  }

  lemma OrderIsPermutation(s: AddressMappingScheme, f: Field)
    ensures Distinct(Order(s)) && |Order(s)| == 5 && f in Order(s)
  {
    var o := Order(s);
    assert o[0] == f || o[1] == f || o[2] == f || o[3] == f || o[4] == f;
  }

  function TotalWidth(g: Geometry, order: seq<Field>): nat {
    if order == [] then 0 else Width(g, order[0]) + TotalWidth(g, order[1..])
  }

  // Cut the fields named by order off x, lowest first, into loc.
  function Fill(g: Geometry, order: seq<Field>, x: nat, loc: Location): Location {
    if order == [] then loc
    else
      var w := Width(g, order[0]);
      Fill(g, order[1..], Shr(x, w), loc.Set(order[0], x % Pow2(w)))
  }

  // The number whose fields, in that order, are those of loc.
  function Pack(g: Geometry, order: seq<Field>, loc: Location): nat {
    if order == [] then 0
    else loc.Get(order[0]) + Pow2(Width(g, order[0])) * Pack(g, order[1..], loc)
  }

  // Bits below the column: the byte offset and the low column bits.
  function LowBits(g: Geometry): nat {
    g.byteOffsetBits + g.colLowBits
  }

  function Decode(g: Geometry, address: nat): Location {
    Fill(g, Order(g.scheme), Shr(Shr(address, g.byteOffsetBits), g.colLowBits), ORIGIN)
  }

  function Encode(g: Geometry, loc: Location): nat {
    Pow2(LowBits(g)) * Pack(g, Order(g.scheme), loc)
  }

  ghost predicate InRange(g: Geometry, loc: Location) {
    forall f: Field :: loc.Get(f) < Pow2(Width(g, f))
  }

  // One field: keep the low w bits, as a 32-bit value, and shift them off.
  method TakeField(physicalAddress: nat, w: nat) returns (rest: nat, field: nat)
    requires physicalAddress < TWO_64 && w <= 32
    ensures rest == Shr(physicalAddress, w) && rest < TWO_64
    ensures field == physicalAddress % Pow2(w)
  {
    var tempA := physicalAddress;
    rest := Shr(physicalAddress, w);
    var tempB := Shl64(rest, w);
    field := Xor(tempA, tempB) % TWO_32;
    ShiftBackFits(physicalAddress, w);
    SmallMod(rest * Pow2(w), TWO_64);
    XorKeepsLowBits(physicalAddress, w);
    Pow2Upto32(w);
    SmallMod(physicalAddress % Pow2(w), TWO_32);
  }

  lemma SmallMod(x: nat, m: nat)
    requires x < m
    ensures x % m == x
  {
    DivUnique(x, m, 0, x);
  }

  lemma ShiftBackFits(x: nat, w: nat)
    ensures Shr(x, w) * Pow2(w) <= x
  {
    ShrIsDivision(x, w);
    var p := Pow2(w);
    assert x == (x / p) * p + x % p;
  }

  method AddressMapping(g: Geometry, address: nat) returns (loc: Location)
    requires g.Valid() && address < TWO_64
    ensures loc == Decode(g, address)
  {
    var physicalAddress := Shr(address, g.byteOffsetBits);
    physicalAddress := Shr(physicalAddress, g.colLowBits);
    var chan, rank, bank, row, column;
    ghost var x := physicalAddress;
    match g.scheme
    case Scheme1 =>
      physicalAddress, bank := TakeField(physicalAddress, g.bankBits);
      physicalAddress, column := TakeField(physicalAddress, g.colHighBits);
      physicalAddress, row := TakeField(physicalAddress, g.rowBits);
      physicalAddress, rank := TakeField(physicalAddress, g.rankBits);
      physicalAddress, chan := TakeField(physicalAddress, g.chanBits);
      FillFive(g, Bank, Column, Row, Rank, Chan, x);
      loc := Location(chan, rank, bank, row, column);
    case Scheme2 =>
      physicalAddress, rank := TakeField(physicalAddress, g.rankBits);
      physicalAddress, bank := TakeField(physicalAddress, g.bankBits);
      physicalAddress, column := TakeField(physicalAddress, g.colHighBits);
      physicalAddress, row := TakeField(physicalAddress, g.rowBits);
      physicalAddress, chan := TakeField(physicalAddress, g.chanBits);
      FillFive(g, Rank, Bank, Column, Row, Chan, x);
      loc := Location(chan, rank, bank, row, column);
    case Scheme3 =>
      physicalAddress, row := TakeField(physicalAddress, g.rowBits);
      physicalAddress, column := TakeField(physicalAddress, g.colHighBits);
      physicalAddress, bank := TakeField(physicalAddress, g.bankBits);
      physicalAddress, rank := TakeField(physicalAddress, g.rankBits);
      physicalAddress, chan := TakeField(physicalAddress, g.chanBits);
      FillFive(g, Row, Column, Bank, Rank, Chan, x);
      loc := Location(chan, rank, bank, row, column);
    case Scheme4 =>
      physicalAddress, column := TakeField(physicalAddress, g.colHighBits);
      physicalAddress, row := TakeField(physicalAddress, g.rowBits);
      physicalAddress, bank := TakeField(physicalAddress, g.bankBits);
      physicalAddress, rank := TakeField(physicalAddress, g.rankBits);
      physicalAddress, chan := TakeField(physicalAddress, g.chanBits);
      FillFive(g, Column, Row, Bank, Rank, Chan, x);
      loc := Location(chan, rank, bank, row, column);
    case Scheme5 =>
      physicalAddress, bank := TakeField(physicalAddress, g.bankBits);
      physicalAddress, rank := TakeField(physicalAddress, g.rankBits);
      physicalAddress, column := TakeField(physicalAddress, g.colHighBits);
      physicalAddress, row := TakeField(physicalAddress, g.rowBits);
      physicalAddress, chan := TakeField(physicalAddress, g.chanBits);
      FillFive(g, Bank, Rank, Column, Row, Chan, x);
      loc := Location(chan, rank, bank, row, column);
    case Scheme6 =>
      physicalAddress, column := TakeField(physicalAddress, g.colHighBits);
      physicalAddress, rank := TakeField(physicalAddress, g.rankBits);
      physicalAddress, bank := TakeField(physicalAddress, g.bankBits);
      physicalAddress, row := TakeField(physicalAddress, g.rowBits);
      physicalAddress, chan := TakeField(physicalAddress, g.chanBits);
      FillFive(g, Column, Rank, Bank, Row, Chan, x);
      loc := Location(chan, rank, bank, row, column);
    case Scheme7 =>
      physicalAddress, chan := TakeField(physicalAddress, g.chanBits);
      physicalAddress, bank := TakeField(physicalAddress, g.bankBits);
      physicalAddress, rank := TakeField(physicalAddress, g.rankBits);
      physicalAddress, column := TakeField(physicalAddress, g.colHighBits);
      physicalAddress, row := TakeField(physicalAddress, g.rowBits);
      FillFive(g, Chan, Bank, Rank, Column, Row, x);
      loc := Location(chan, rank, bank, row, column);
  }

  lemma FillStep(g: Geometry, f: Field, rest: seq<Field>, x: nat, loc: Location)
    ensures Fill(g, [f] + rest, x, loc)
         == Fill(g, rest, Shr(x, Width(g, f)), loc.Set(f, x % Pow2(Width(g, f))))
  {
    assert ([f] + rest)[1..] == rest;
  }

  lemma FillFive(g: Geometry, a: Field, b: Field, c: Field, d: Field, e: Field, x: nat)
    ensures
      var x1 := Shr(x, Width(g, a));
      var x2 := Shr(x1, Width(g, b));
      var x3 := Shr(x2, Width(g, c));
      var x4 := Shr(x3, Width(g, d));
      Fill(g, [a, b, c, d, e], x, ORIGIN)
      == ORIGIN.Set(a, x % Pow2(Width(g, a))).Set(b, x1 % Pow2(Width(g, b))).Set(c, x2 % Pow2(Width(g, c)))
               .Set(d, x3 % Pow2(Width(g, d))).Set(e, x4 % Pow2(Width(g, e)))
  {
    var l1 := ORIGIN.Set(a, x % Pow2(Width(g, a)));
    var x1 := Shr(x, Width(g, a));
    assert [a, b, c, d, e] == [a] + [b, c, d, e];
    FillStep(g, a, [b, c, d, e], x, ORIGIN);
    var l2 := l1.Set(b, x1 % Pow2(Width(g, b)));
    var x2 := Shr(x1, Width(g, b));
    assert [b, c, d, e] == [b] + [c, d, e];
    FillStep(g, b, [c, d, e], x1, l1);
    var l3 := l2.Set(c, x2 % Pow2(Width(g, c)));
    var x3 := Shr(x2, Width(g, c));
    assert [c, d, e] == [c] + [d, e];
    FillStep(g, c, [d, e], x2, l2);
    var l4 := l3.Set(d, x3 % Pow2(Width(g, d)));
    assert [d, e] == [d] + [e];
    FillStep(g, d, [e], x3, l3);
    assert [e] == [e] + [];
    FillStep(g, e, [], Shr(x3, Width(g, d)), l4);
  }

  // ---- The map is a bijection ----

  lemma {:induction false} FillKeepsOthers(g: Geometry, order: seq<Field>, x: nat, loc: Location, f: Field)
    requires f !in order
    ensures Fill(g, order, x, loc).Get(f) == loc.Get(f)
  {
    if order != [] {
      var w := Width(g, order[0]);
      FillKeepsOthers(g, order[1..], Shr(x, w), loc.Set(order[0], x % Pow2(w)), f);
    }
  }

  lemma {:induction false} FillInRange(g: Geometry, order: seq<Field>, x: nat, loc: Location, f: Field)
    requires f in order && Distinct(order)
    ensures Fill(g, order, x, loc).Get(f) < Pow2(Width(g, f))
  {
    var w := Width(g, order[0]);
    var loc' := loc.Set(order[0], x % Pow2(w));
    if f == order[0] {
      FillKeepsOthers(g, order[1..], Shr(x, w), loc', f);
    } else {
      FillInRange(g, order[1..], Shr(x, w), loc', f);
    }
  }

  lemma {:induction false} PackOfFill(g: Geometry, order: seq<Field>, x: nat, loc: Location)
    requires Distinct(order)
    ensures Pack(g, order, Fill(g, order, x, loc)) == x % Pow2(TotalWidth(g, order))
  {
    if order != [] {
      var f, rest := order[0], order[1..];
      var w := Width(g, f);
      var loc' := loc.Set(f, x % Pow2(w));
      FillKeepsOthers(g, rest, Shr(x, w), loc', f);
      PackOfFill(g, rest, Shr(x, w), loc');
      ModSplit(x, w, TotalWidth(g, rest));
    }
  }

  // The low a + b bits of x are its low a bits below the next b bits.
  lemma ModSplit(x: nat, a: nat, b: nat)
    ensures x % Pow2(a + b) == x % Pow2(a) + Pow2(a) * (Shr(x, a) % Pow2(b))
  {
    ShrIsDivision(x, a);
    Pow2Add(a, b);
    DivModTwice(x, Pow2(a), Pow2(b));
  }

  lemma {:induction false} PackBound(g: Geometry, order: seq<Field>, loc: Location)
    requires InRange(g, loc)
    ensures Pack(g, order, loc) < Pow2(TotalWidth(g, order))
  {
    if order != [] {
      PackBound(g, order[1..], loc);
      Pow2Add(Width(g, order[0]), TotalWidth(g, order[1..]));
      DigitBound(loc.Get(order[0]), Pow2(Width(g, order[0])),
                 Pack(g, order[1..], loc), Pow2(TotalWidth(g, order[1..])));
    }
  }

  lemma {:induction false} FillOfPack(g: Geometry, order: seq<Field>, loc: Location, into: Location, f: Field)
    requires InRange(g, loc) && Distinct(order) && f in order
    ensures Fill(g, order, Pack(g, order, loc), into).Get(f) == loc.Get(f)
  {
    var h, rest := order[0], order[1..];
    var w := Width(g, h);
    var x := Pack(g, order, loc);
    var y := Pack(g, rest, loc);
    assert x == y * Pow2(w) + loc.Get(h);
    ShrIsDivision(x, w);
    DivUnique(x, Pow2(w), y, loc.Get(h));
    if f == h {
      FillKeepsOthers(g, rest, y, into.Set(h, loc.Get(h)), f);
    } else {
      FillOfPack(g, rest, loc, into.Set(h, loc.Get(h)), f);
    }
  }

  // Every scheme reads each field within its configured count.
  lemma DecodeInRange(g: Geometry, address: nat)
    ensures InRange(g, Decode(g, address))
  {
    var x := Shr(Shr(address, g.byteOffsetBits), g.colLowBits);
    forall f: Field
      ensures Decode(g, address).Get(f) < Pow2(Width(g, f))
    {
      OrderIsPermutation(g.scheme, f);
      FillInRange(g, Order(g.scheme), x, ORIGIN, f);
    }
  }

  lemma {:induction false} ShrTwice(x: nat, a: nat, b: nat)
    ensures Shr(Shr(x, a), b) == Shr(x, a + b)
  {
    if a > 0 {
      ShrTwice(x / 2, a - 1, b);
    }
  }

  // Decoding loses only the alignment bits and the bits above the total size.
  lemma EncodeOfDecode(g: Geometry, address: nat)
    requires address % Pow2(LowBits(g)) == 0
    requires address < Pow2(LowBits(g) + TotalWidth(g, Order(g.scheme)))
    ensures Encode(g, Decode(g, address)) == address
  {
    hide Fill, Pack;
    var order := Order(g.scheme);
    OrderIsPermutation(g.scheme, Chan);
    ShrTwice(address, g.byteOffsetBits, g.colLowBits);
    var x := Shr(address, LowBits(g));
    PackOfFill(g, order, x, ORIGIN);
    Pow2Add(LowBits(g), TotalWidth(g, order));
    ShrIsDivision(address, LowBits(g));
    QuotientBelow(address, Pow2(LowBits(g)), Pow2(TotalWidth(g, order)));
  }

  lemma QuotientBelow(address: nat, p: nat, q: nat)
    requires p > 0 && address % p == 0 && address < p * q
    ensures p * (address / p) == address
    ensures address / p < q && (address / p) % q == address / p
  {
    var x := address / p;
    assert address == x * p + 0;
    assert x * p == p * x;
    if x >= q {
      MulMonotone(p, q, x);
    }
    SmallMod(x, q);
  }

  // Every location within the configured counts is reached by its encoding.
  lemma DecodeOfEncode(g: Geometry, loc: Location)
    requires InRange(g, loc)
    ensures Decode(g, Encode(g, loc)) == loc
    ensures Encode(g, loc) % Pow2(LowBits(g)) == 0
    ensures Encode(g, loc) < Pow2(LowBits(g) + TotalWidth(g, Order(g.scheme)))
  {
    hide Fill, Pack;
    var order := Order(g.scheme);
    var x := Pack(g, order, loc);
    var address, p := Encode(g, loc), Pow2(LowBits(g));
    assert address == x * p + 0;
    DivUnique(address, p, x, 0);
    ShrTwice(address, g.byteOffsetBits, g.colLowBits);
    ShrIsDivision(address, LowBits(g));
    PackBound(g, order, loc);
    Pow2Add(LowBits(g), TotalWidth(g, order));
    DigitBound(0, p, x, Pow2(TotalWidth(g, order)));
    forall f: Field
      ensures Decode(g, address).Get(f) == loc.Get(f)
    {
      OrderIsPermutation(g.scheme, f);
      FillOfPack(g, order, loc, ORIGIN, f);
    }
    var d := Decode(g, address);
    assert d.Get(Chan) == loc.chan && d.Get(Rank) == loc.rank && d.Get(Bank) == loc.bank
        && d.Get(Row) == loc.row && d.Get(Column) == loc.column;
  }
}
