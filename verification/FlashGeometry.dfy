// The layout of a flash module: where a page address lies, and the rotating write pointer.
module FlashGeometry {
  import opened Wrappers
  import opened Bits

  datatype Geometry = Geometry(
    pageSize: nat, pagesPerBlock: nat, blocksPerPlane: nat, planesPerDie: nat, diesPerPackage: nat, numPackages: nat)
  {
    predicate Valid() {
      && pageSize >= 1 && pagesPerBlock >= 1 && blocksPerPlane >= 1
      && planesPerDie >= 1 && diesPerPackage >= 1 && numPackages >= 1
    }

    // Planes, blocks and bytes of the whole module.
    function Planes(): nat { planesPerDie * (diesPerPackage * numPackages) }
    function Blocks(): nat { blocksPerPlane * Planes() }
    function BlockSize(): nat { pageSize * pagesPerBlock }
    function TotalSize(): nat { BlockSize() * Blocks() }
  }

  // The write pointer names a plane.
  datatype Pointer = Pointer(channel: nat, die: nat, plane: nat)

  // A page of the module.
  datatype Location = Location(page: nat, block: nat, plane: nat, die: nat, package: nat)

  datatype Failure = InvalidAddress | Deadlocked | OutOfBounds

  predicate Within(g: Geometry, l: Location) {
    && l.page < g.pagesPerBlock && l.block < g.blocksPerPlane && l.plane < g.planesPerDie
    && l.die < g.diesPerPackage && l.package < g.numPackages
  }

  predicate Named(g: Geometry, at: Pointer) {
    at.channel < g.numPackages && at.die < g.diesPerPackage && at.plane < g.planesPerDie
  }

  function PageAddress(g: Geometry, block: nat, page: nat): nat {
    block * g.BlockSize() + page * g.pageSize
  }

  // The first block of the plane that the write pointer names.
  function StartBlock(g: Geometry, at: Pointer): nat {
    g.blocksPerPlane * PlaneIndex(g, at)
  }

  function PlaneIndex(g: Geometry, at: Pointer): nat {
    at.plane + g.planesPerDie * (at.die + g.diesPerPackage * at.channel)
  }

  function BlockIndex(g: Geometry, l: Location): nat {
    l.block + StartBlock(g, Pointer(l.package, l.die, l.plane))
  }

  // Take an address apart, from the byte in the page up to the package.
  function Translate(g: Geometry, address: nat): Result<Location, Failure>
    requires g.Valid()
  {
    if address >= g.TotalSize() then Halt(InvalidAddress)
    else
      var page := address / g.pageSize;
      var block := page / g.pagesPerBlock;
      var plane := block / g.blocksPerPlane;
      var die := plane / g.planesPerDie;
      var package := die / g.diesPerPackage;
      Ok(Location(page % g.pagesPerBlock, block % g.blocksPerPlane, plane % g.planesPerDie,
                  die % g.diesPerPackage, package % g.numPackages))
  }

  lemma Digit(low: nat, radix: nat, rest: nat)
    requires low < radix
    ensures (low + radix * rest) / radix == rest && (low + radix * rest) % radix == low
  {
    assert low + radix * rest == rest * radix + low;
    DivUnique(low + radix * rest, radix, rest, low);
  }

  // The plane of a location is one of the module's, and so is its block.
  lemma IndexInRange(g: Geometry, l: Location)
    requires Within(g, l)
    ensures PlaneIndex(g, Pointer(l.package, l.die, l.plane)) < g.Planes()
    ensures BlockIndex(g, l) < g.Blocks()
  {
    DigitBound(l.die, g.diesPerPackage, l.package, g.numPackages);
    DigitBound(l.plane, g.planesPerDie, l.die + g.diesPerPackage * l.package, g.diesPerPackage * g.numPackages);
    DigitBound(l.block, g.blocksPerPlane, PlaneIndex(g, Pointer(l.package, l.die, l.plane)), g.Planes());
  }

  lemma AddressBelow(g: Geometry, block: nat, page: nat, offset: nat)
    requires g.Valid() && block < g.Blocks() && page < g.pagesPerBlock && offset < g.pageSize
    ensures PageAddress(g, block, page) + offset == offset + g.pageSize * (page + g.pagesPerBlock * block) < g.TotalSize()
  {
    var k, blocks, per, size := page + g.pagesPerBlock * block, g.Blocks(), g.pagesPerBlock, g.pageSize;
    DigitBound(page, per, block, blocks);
    DigitBound(offset, size, k, per * blocks);
    Regroup(size, per, block, page, blocks);
    hide *;
  }

  lemma Regroup(size: nat, per: nat, block: nat, page: nat, blocks: nat)
    ensures block * (size * per) + page * size == size * (page + per * block)
    ensures size * (per * blocks) == size * per * blocks
  {
    assert block * (size * per) == size * (per * block);
  }

  // Translation finds exactly the page an address lies in.
  lemma TranslateIsExact(g: Geometry, l: Location, offset: nat)
    requires g.Valid() && Within(g, l) && offset < g.pageSize
    ensures Translate(g, PageAddress(g, BlockIndex(g, l), l.page) + offset) == Ok(l)
  {
    var die := l.die + g.diesPerPackage * l.package;
    var plane := l.plane + g.planesPerDie * die;
    var block := l.block + g.blocksPerPlane * plane;
    var page := l.page + g.pagesPerBlock * block;
    IndexInRange(g, l);
    assert plane == PlaneIndex(g, Pointer(l.package, l.die, l.plane)) && block == BlockIndex(g, l);
    AddressBelow(g, block, l.page, offset);
    Digit(offset, g.pageSize, page);
    Digit(l.page, g.pagesPerBlock, block);
    Digit(l.block, g.blocksPerPlane, plane);
    Digit(l.plane, g.planesPerDie, die);
    Digit(l.die, g.diesPerPackage, l.package);
    Digit(l.package, g.numPackages, 0);
    hide *;
  }

  lemma SplitDigit(x: nat, radix: nat)
    requires radix >= 1
    ensures x % radix < radix && x == x % radix + radix * (x / radix)
  {
  }

  lemma QuotientBelow(x: nat, radix: nat, n: nat)
    requires radix >= 1 && x < radix * n
    ensures x / radix < n
  {
    SplitDigit(x, radix);
    hide *;
    if x / radix >= n {
      MulMonotone(radix, n, x / radix);
    }
  }

  lemma QuotientsInRange(g: Geometry, address: nat, page: nat, block: nat, plane: nat, die: nat, package: nat)
    requires g.Valid() && address < g.TotalSize()
    requires page == address / g.pageSize && block == page / g.pagesPerBlock && plane == block / g.blocksPerPlane
    requires die == plane / g.planesPerDie && package == die / g.diesPerPackage
    ensures package < g.numPackages
  {
    Regroup(g.pageSize, g.pagesPerBlock, 0, 0, g.Blocks());
    hide *;
    QuotientBelow(address, g.pageSize, g.pagesPerBlock * g.Blocks());
    QuotientBelow(page, g.pagesPerBlock, g.Blocks());
    QuotientBelow(block, g.blocksPerPlane, g.Planes());
    QuotientBelow(plane, g.planesPerDie, g.diesPerPackage * g.numPackages);
    QuotientBelow(die, g.diesPerPackage, g.numPackages);
  }

  // Every address of the module is in the page that its translation names.
  lemma TranslateCovers(g: Geometry, address: nat) returns (l: Location)
    requires g.Valid() && address < g.TotalSize()
    ensures Translate(g, address) == Ok(l) && Within(g, l)
    ensures 0 <= address - PageAddress(g, BlockIndex(g, l), l.page) < g.pageSize
  {
    var page := address / g.pageSize;
    var block := page / g.pagesPerBlock;
    var plane := block / g.blocksPerPlane;
    var die := plane / g.planesPerDie;
    var package := die / g.diesPerPackage;
    QuotientsInRange(g, address, page, block, plane, die, package);
    Digit(package, g.numPackages, 0);
    l := Location(page % g.pagesPerBlock, block % g.blocksPerPlane, plane % g.planesPerDie,
                  die % g.diesPerPackage, package);
    assert Translate(g, address) == Ok(l);
    hide Translate;
    SplitDigit(address, g.pageSize);
    SplitDigit(page, g.pagesPerBlock);
    SplitDigit(block, g.blocksPerPlane);
    SplitDigit(plane, g.planesPerDie);
    SplitDigit(die, g.diesPerPackage);
    assert BlockIndex(g, l) == block;
    AddressOfDigits(g, block, l.page, page, address % g.pageSize, address);
  }

  lemma AddressOfDigits(g: Geometry, block: nat, low: nat, page: nat, offset: nat, address: nat)
    requires page == low + g.pagesPerBlock * block && address == offset + g.pageSize * page
    ensures address - PageAddress(g, block, low) == offset
  {
    Regroup(g.pageSize, g.pagesPerBlock, block, low, 0);
  }

  // A page found by its address, as the table of used pages is indexed.
  lemma PageOfAddress(g: Geometry, block: nat, page: nat)
    requires g.Valid() && block < g.Blocks() && page < g.pagesPerBlock
    ensures PageAddress(g, block, page) < g.TotalSize()
    ensures g.BlockSize() > 0 && PageAddress(g, block, page) / g.BlockSize() == block
    ensures (PageAddress(g, block, page) / g.pageSize) % g.pagesPerBlock == page
  {
    AddressBelow(g, block, page, 0);
    var k := page + g.pagesPerBlock * block;
    Digit(0, g.pageSize, k);
    Digit(page, g.pagesPerBlock, block);
    DivModTwice(PageAddress(g, block, page), g.pageSize, g.pagesPerBlock);
  }

  lemma PagesDiffer(g: Geometry, b1: nat, p1: nat, b2: nat, p2: nat)
    requires g.Valid() && b1 < g.Blocks() && p1 < g.pagesPerBlock && b2 < g.Blocks() && p2 < g.pagesPerBlock
    requires PageAddress(g, b1, p1) == PageAddress(g, b2, p2)
    ensures b1 == b2 && p1 == p2
  {
    PageOfAddress(g, b1, p1);
    PageOfAddress(g, b2, p2);
  }

  // ---- The write pointer ----

  function NextPointer(g: Geometry, at: Pointer): (next: Pointer)
    requires g.Valid()
  {
    var channel := (at.channel + 1) % g.numPackages;
    if channel != 0 then at.(channel := channel)
    else
      var die := (at.die + 1) % g.diesPerPackage;
      if die != 0 then at.(channel := channel, die := die)
      else Pointer(channel, die, (at.plane + 1) % g.planesPerDie)
  }

  function PointerAfter(g: Geometry, at: Pointer, k: nat): Pointer
    requires g.Valid()
  {
    if k == 0 then at else NextPointer(g, PointerAfter(g, at, k - 1))
  }

  // Planes in the order of the pointer: the channel turns fastest.
  function Turn(g: Geometry, at: Pointer): nat {
    at.channel + g.numPackages * (at.die + g.diesPerPackage * at.plane)
  }

  function Turns(g: Geometry): nat {
    g.numPackages * (g.diesPerPackage * g.planesPerDie)
  }

  // One digit of the pointer moves on, or turns over.
  lemma NextDigit(x: nat, radix: nat)
    requires x < radix
    ensures (x + 1) % radix == if x + 1 < radix then x + 1 else 0
  {
    if x + 1 < radix {
      DivUnique(x + 1, radix, 0, x + 1);
    }
  }

  lemma NextTurn(g: Geometry, at: Pointer)
    requires g.Valid() && Named(g, at)
    ensures Named(g, NextPointer(g, at)) && Turn(g, at) < Turns(g)
    ensures Turn(g, NextPointer(g, at)) == if Turn(g, at) + 1 < Turns(g) then Turn(g, at) + 1 else 0
  {
    var rest := at.die + g.diesPerPackage * at.plane;
    NextDigit(at.channel, g.numPackages);
    NextDigit(at.die, g.diesPerPackage);
    NextDigit(at.plane, g.planesPerDie);
    Carry(at.die, g.diesPerPackage, at.plane, g.planesPerDie);
    Carry(at.channel, g.numPackages, rest, g.diesPerPackage * g.planesPerDie);
  }

  // Adding one to a two-digit number.
  lemma Carry(low: nat, radix: nat, high: nat, n: nat)
    requires low < radix && high < n
    ensures low + radix * high < radix * n
    ensures low + 1 < radix ==> low + 1 + radix * high < radix * n
    ensures low + 1 == radix ==> low + radix * high + 1 == 0 + radix * (high + 1)
    ensures high + 1 == n ==> radix * (high + 1) == radix * n
    ensures high + 1 < n ==> radix * (high + 1) < radix * n
    ensures radix * 0 == 0
  {
    DigitBound(low, radix, high, n);
    assert radix * (high + 1) == radix * high + radix;
    if low + 1 < radix {
      DigitBound(low + 1, radix, high, n);
    }
    if high + 1 < n {
      DigitBound(0, radix, high + 1, n);
    }
  }

  lemma TurnInjective(g: Geometry, a: Pointer, b: Pointer)
    requires g.Valid() && Named(g, a) && Named(g, b) && Turn(g, a) == Turn(g, b)
    ensures a == b
  {
    Digit(a.channel, g.numPackages, a.die + g.diesPerPackage * a.plane);
    Digit(b.channel, g.numPackages, b.die + g.diesPerPackage * b.plane);
    Digit(a.die, g.diesPerPackage, a.plane);
    Digit(b.die, g.diesPerPackage, b.plane);
  }

  function Wrapped(k: nat, n: nat): nat {
    if k < n then k else k - n
  }

  lemma {:induction false} TurnAfter(g: Geometry, at: Pointer, k: nat)
    requires g.Valid() && Named(g, at) && k <= Turns(g)
    ensures Named(g, PointerAfter(g, at, k))
    ensures Turn(g, at) < Turns(g) && Turn(g, PointerAfter(g, at, k)) == Wrapped(Turn(g, at) + k, Turns(g))
  {
    hide Turn, Turns, Named, NextPointer;
    NextTurn(g, at);
    if k > 0 {
      TurnAfter(g, at, k - 1);
      NextTurn(g, PointerAfter(g, at, k - 1));
    }
  }

  // A lap of the write pointer: it is back where it was after as many writes as the module
  // has planes, and not before.
  lemma PointerLap(g: Geometry, at: Pointer, k: nat)
    requires g.Valid() && Named(g, at) && 0 < k <= Turns(g)
    ensures PointerAfter(g, at, k) == at <==> k == Turns(g)
  {
    hide Turn, Turns, Named;
    TurnAfter(g, at, k);
    if k == Turns(g) {
      TurnInjective(g, PointerAfter(g, at, k), at);
    }
  }

  // Every plane gets its turn in a lap.
  lemma PointerVisits(g: Geometry, at: Pointer, target: Pointer) returns (k: nat)
    requires g.Valid() && Named(g, at) && Named(g, target)
    ensures k < Turns(g) && PointerAfter(g, at, k) == target
  {
    hide Turn, Turns, Named;
    var x, y, n := Turn(g, at), Turn(g, target), Turns(g);
    NextTurn(g, at);
    NextTurn(g, target);
    k := if y >= x then y - x else n - x + y;
    TurnAfter(g, at, k);
    TurnInjective(g, PointerAfter(g, at, k), target);
  }

  // The blocks of the plane that the write pointer names.
  lemma BlockOfPlane(g: Geometry, at: Pointer, block: nat, page: nat)
    requires g.Valid() && Named(g, at) && page < g.pagesPerBlock
    requires StartBlock(g, at) <= block < StartBlock(g, at) + g.blocksPerPlane
    ensures block < g.Blocks()
    ensures Translate(g, PageAddress(g, block, page))
         == Ok(Location(page, block - StartBlock(g, at), at.plane, at.die, at.channel))
  {
    var l := Location(page, block - StartBlock(g, at), at.plane, at.die, at.channel);
    hide StartBlock;
    IndexInRange(g, l);
    TranslateIsExact(g, l, 0);
  }

  lemma StartInRange(g: Geometry, at: Pointer)
    requires g.Valid() && Named(g, at)
    ensures StartBlock(g, at) < g.Blocks() && g.BlockSize() >= 1 && StartBlock(g, at) / g.BlockSize() <= StartBlock(g, at)
  {
    hide Translate;
    BlockOfPlane(g, at, StartBlock(g, at), 0);
    PageOfAddress(g, StartBlock(g, at), 0);
    var start, size := StartBlock(g, at), g.BlockSize();
    assert start == start / size * size + start % size;
    MulMonotone(start / size, 1, size);
  }
}
