// The two tables of the flash translation layer, the used pages and the address map, and
// the search for a free page.
module PageTables {
  import opened Wrappers
  import opened FlashGeometry

  type Used = seq<seq<bool>>

  ghost predicate Shaped(g: Geometry, used: Used) {
    |used| == g.Blocks() && forall b :: 0 <= b < |used| ==> |used[b]| == g.pagesPerBlock
  }

  predicate InModule(g: Geometry, b: nat, p: nat) {
    b < g.Blocks() && p < g.pagesPerBlock
  }

  ghost predicate IsPage(g: Geometry, address: nat) {
    exists b: nat, p: nat :: InModule(g, b, p) && address == PageAddress(g, b, p)
  }

  // Some virtual address, other than the one whose page has been given up, maps to it.
  ghost predicate Owned(m: map<nat, nat>, hole: Option<nat>, address: nat) {
    exists v :: v in m && hole != Some(v) && m[v] == address
  }

  // The used pages are exactly the image of an injective address map, but for the page of
  // a virtual address that is about to be written elsewhere.
  ghost predicate Exact(g: Geometry, used: Used, m: map<nat, nat>, hole: Option<nat>) {
    && Shaped(g, used)
    && (forall v :: v in m ==> IsPage(g, m[v]))
    && (forall v, w :: v in m && w in m && v != w ==> m[v] != m[w])
    && forall b: nat, p: nat :: InModule(g, b, p) ==> (used[b][p] <==> Owned(m, hole, PageAddress(g, b, p)))
  }

  function Set(used: Used, b: nat, p: nat, value: bool): Used
    requires b < |used| && p < |used[b]|
  {
    used[b := used[b][p := value]]
  }

  lemma SetAt(g: Geometry, used: Used, b: nat, p: nat, value: bool)
    requires Shaped(g, used) && InModule(g, b, p)
    ensures var used' := Set(used, b, p, value);
      && Shaped(g, used')
      && forall c: nat, q: nat :: InModule(g, c, q) ==> used'[c][q] == if c == b && q == p then value else used[c][q]
  {
  }

  // Giving up the page of a virtual address leaves that hole, once or repeatedly.
  lemma GiveUp(g: Geometry, used: Used, m: map<nat, nat>, hole: Option<nat>, v: nat, b: nat, p: nat)
    requires g.Valid() && Exact(g, used, m, hole) && (hole == None || hole == Some(v)) && v in m
    requires InModule(g, b, p) && m[v] == PageAddress(g, b, p)
    ensures Exact(g, Set(used, b, p, false), m, Some(v))
  {
    var used' := Set(used, b, p, false);
    SetAt(g, used, b, p, false);
    forall c: nat, q: nat | InModule(g, c, q)
      ensures used'[c][q] <==> Owned(m, Some(v), PageAddress(g, c, q))
    {
      if c == b && q == p {
        assert !Owned(m, Some(v), m[v]);
      } else {
        if PageAddress(g, c, q) == m[v] {
          PagesDiffer(g, b, p, c, q);
        }
        assert Owned(m, Some(v), PageAddress(g, c, q)) <==> Owned(m, hole, PageAddress(g, c, q));
      }
    }
  }

  // A free page belongs to no virtual address but the one it was given up for.
  lemma FreeIsUnowned(g: Geometry, used: Used, m: map<nat, nat>, hole: Option<nat>, b: nat, p: nat)
    requires Exact(g, used, m, hole) && InModule(g, b, p) && !used[b][p]
    ensures forall u :: u in m && hole != Some(u) ==> m[u] != PageAddress(g, b, p)
  {
  }

  // Taking a free page for a virtual address fills the hole.
  lemma Take(g: Geometry, used: Used, m: map<nat, nat>, hole: Option<nat>, v: nat, b: nat, p: nat)
    requires g.Valid() && Exact(g, used, m, hole) && hole == (if v in m then Some(v) else None)
    requires InModule(g, b, p) && !used[b][p]
    ensures Exact(g, Set(used, b, p, true), m[v := PageAddress(g, b, p)], None)
  {
    var used', a := Set(used, b, p, true), PageAddress(g, b, p);
    var m' := m[v := a];
    SetAt(g, used, b, p, true);
    FreeIsUnowned(g, used, m, hole, b, p);
    forall c: nat, q: nat | InModule(g, c, q)
      ensures used'[c][q] <==> Owned(m', None, PageAddress(g, c, q))
    {
      if c == b && q == p {
        assert m'[v] == a;
      } else {
        if PageAddress(g, c, q) == a {
          PagesDiffer(g, b, p, c, q);
        }
        OwnedByOthers(m, hole, v, a, PageAddress(g, c, q));
      }
    }
  }

  lemma OwnedByOthers(m: map<nat, nat>, hole: Option<nat>, v: nat, a: nat, other: nat)
    requires hole == (if v in m then Some(v) else None) && other != a
    ensures Owned(m[v := a], None, other) <==> Owned(m, hole, other)
  {
    var m' := m[v := a];
    if Owned(m', None, other) {
      var u :| u in m' && m'[u] == other;
      assert u in m && hole != Some(u) && m[u] == other;
    }
    if Owned(m, hole, other) {
      var u :| u in m && hole != Some(u) && m[u] == other;
      assert u in m' && m'[u] == other;
    }
  }

  // ---- What is stored ----

  // The content of a page: data of the last write sent to it, or data that was there first.
  datatype Content = Written(data: nat) | FromDisk

  ghost predicate AllStored(m: map<nat, nat>, stored: map<nat, Content>) {
    forall v :: v in m ==> m[v] in stored
  }

  // The module as its users see it: the content of every mapped virtual address.
  function Contents(m: map<nat, nat>, stored: map<nat, Content>): (c: map<nat, Content>)
    requires AllStored(m, stored)
    ensures c.Keys == m.Keys
  {
    map v | v in m :: stored[m[v]]
  }

  // Writing a free page changes what is read back at its own virtual address only.
  lemma WriteIsSeen(g: Geometry, used: Used, m: map<nat, nat>, hole: Option<nat>, stored: map<nat, Content>,
                    v: nat, b: nat, p: nat, content: Content)
    requires Exact(g, used, m, hole) && hole == (if v in m then Some(v) else None) && AllStored(m, stored)
    requires InModule(g, b, p) && !used[b][p]
    ensures var a := PageAddress(g, b, p);
      && AllStored(m[v := a], stored[a := content])
      && Contents(m[v := a], stored[a := content]) == Contents(m, stored)[v := content]
  {
    FreeIsUnowned(g, used, m, hole, b, p);
  }

  // ---- The search for a free page ----

  ghost predicate FullBetween(used: Used, lo: nat, hi: nat) {
    forall b, p :: lo <= b < hi && b < |used| && 0 <= p < |used[b]| ==> used[b][p]
  }

  // Page p of block b is the first free one from block lo on.
  ghost predicate FirstFree(used: Used, lo: nat, b: nat, p: nat) {
    && lo <= b < |used| && p < |used[b]| && !used[b][p]
    && FullBetween(used, lo, b)
    && forall q :: 0 <= q < p ==> used[b][q]
  }

  // The page that a search from block start chooses: the first free one up to the end, or
  // else the first one below block start / blockSize.
  ghost predicate Chosen(used: Used, start: nat, blockSize: nat, b: nat, p: nat)
    requires blockSize > 0
  {
    if FullBetween(used, start, |used|) then b < start / blockSize && FirstFree(used, 0, b, p)
    else FirstFree(used, start, b, p)
  }

  ghost predicate NothingFound(used: Used, start: nat, blockSize: nat)
    requires blockSize > 0
  {
    FullBetween(used, start, |used|) && FullBetween(used, 0, start / blockSize)
  }

  lemma FirstIsUnique(used: Used, lo: nat, b1: nat, p1: nat, b2: nat, p2: nat)
    requires FirstFree(used, lo, b1, p1) && FirstFree(used, lo, b2, p2)
    ensures b1 == b2 && p1 == p2
  {
  }

  // The search chooses at most one page, and none exactly when it gives up.
  lemma ChoiceIsUnique(used: Used, start: nat, blockSize: nat, b1: nat, p1: nat, b2: nat, p2: nat)
    requires blockSize > 0 && Chosen(used, start, blockSize, b1, p1)
    ensures !NothingFound(used, start, blockSize)
    ensures Chosen(used, start, blockSize, b2, p2) ==> b1 == b2 && p1 == p2
  {
    if Chosen(used, start, blockSize, b2, p2) {
      FirstIsUnique(used, if FullBetween(used, start, |used|) then 0 else start, b1, p1, b2, p2);
    }
  }

  // A free page in the plane that the write pointer names is chosen from that plane.
  lemma PointedPlaneServes(g: Geometry, used: Used, at: Pointer, free: nat, freePage: nat, b: nat, p: nat)
    requires g.Valid() && Shaped(g, used) && Named(g, at)
    requires StartBlock(g, at) <= free < StartBlock(g, at) + g.blocksPerPlane && freePage < g.pagesPerBlock
    requires free < |used| && !used[free][freePage]
    requires Chosen(used, StartBlock(g, at), g.BlockSize(), b, p)
    ensures StartBlock(g, at) <= b <= free
    ensures Translate(g, PageAddress(g, b, p))
         == Ok(Location(p, b - StartBlock(g, at), at.plane, at.die, at.channel))
  {
    BlockOfPlane(g, at, b, p);
  }

  // The search can give up though a page is free: below the write pointer it looks only at
  // the first start / blockSize blocks.
  lemma GivesUpExactlyWhen(used: Used, start: nat, blockSize: nat)
    requires blockSize > 0 && start <= |used|
    ensures NothingFound(used, start, blockSize) <==>
      forall b, p :: 0 <= b < |used| && 0 <= p < |used[b]| && !used[b][p] ==> start / blockSize <= b < start
  {
    FewerBlocks(start, blockSize);
    FullApart(used, start, start / blockSize);
  }

  lemma FewerBlocks(start: nat, blockSize: nat)
    requires blockSize > 0
    ensures start / blockSize <= start
  {
    var q := start / blockSize;
    assert start == q * blockSize + start % blockSize;
    Bits.MulMonotone(q, 1, blockSize);
  }

  lemma FullApart(used: Used, start: nat, low: nat)
    ensures FullBetween(used, start, |used|) && FullBetween(used, 0, low) <==>
      forall b, p :: 0 <= b < |used| && 0 <= p < |used[b]| && !used[b][p] ==> low <= b < start
  {
  }
}
