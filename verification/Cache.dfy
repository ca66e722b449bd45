// The set-associative cache object over its array of sets.
module Caches {
  import opened Wrappers
  import opened Bits
  import opened Recency
  import opened LruCaches
  import opened CacheShapes
  import opened CacheRuns

  // The block handed back: tag tells a hit (1) from a miss (0); a dirty block is one to
  // write back.
  ghost predicate Reports(b: Block, lines: seq<Line>, tag: nat, evicted: Option<Line>) {
    if Present(lines, tag) then b.tag == 1 && b.valid
    else
      && b.tag == 0
      && (b.dirty <==> evicted.Some? && evicted.value.dirty)
      && (b.dirty ==> b.addr == evicted.value.addr)
  }

  ghost predicate IsNew(lru: LRU, ways: nat, policy: Policy)
    reads lru, lru.blocks
  {
    lru.Valid() && lru.associativity == ways && lru.policy == policy && lru.Lines() == []
  }

  method MakeSets(n: nat, associativity: nat, policy: Policy) returns (made: seq<LRU>)
    requires associativity >= 1
    ensures |made| == n
    ensures forall k :: 0 <= k < n ==> fresh(made[k]) && fresh(made[k].blocks) && IsNew(made[k], associativity, policy)
    ensures forall j, k :: 0 <= j < k < n ==> made[j] != made[k] && made[j].blocks != made[k].blocks
  {
    hide IsNew, LRU.Valid, LRU.Lines;
    made := [];
    var i := 0;
    while i < n
      invariant 0 <= i <= n && |made| == i
      invariant forall k :: 0 <= k < i ==> fresh(made[k]) && fresh(made[k].blocks) && IsNew(made[k], associativity, policy)
      invariant forall j, k :: 0 <= j < k < i ==> made[j] != made[k] && made[j].blocks != made[k].blocks
    {
      var next := NewSet(associativity, policy);
      made := made + [next];
      i := i + 1;
    }
  }

  method NewSet(associativity: nat, policy: Policy) returns (lru: LRU)
    requires associativity >= 1
    ensures fresh(lru) && fresh(lru.blocks) && IsNew(lru, associativity, policy)
  {
    lru := new LRU(associativity, policy);
  }

  // The line of this address can be told from a block that was never used.
  ghost predicate Named(c: Shape, sets: Contents, addr: nat)
    requires Fits(c, sets)
  {
    Names(TagOf(c, addr), |sets[SetOf(c, addr)]|, c.ways)
  }

  class Cache {
    const lineShift: nat
    const setIndexMask: nat
    const policy: Policy
    const sets: seq<LRU>
    ghost const shape: Shape
    ghost const Repr: set<object>

    ghost predicate Separate()
      reads Repr
    {
      && (forall k :: 0 <= k < |sets| ==> sets[k] in Repr && sets[k].blocks in Repr)
      && (forall j, k :: 0 <= j < |sets| && 0 <= k < |sets| && j != k ==>
            sets[j] != sets[k] && sets[j].blocks != sets[k].blocks)
    }

    ghost predicate Valid()
      reads Repr
    {
      && lineShift == shape.lineShift && policy == shape.policy && setIndexMask == Pow2(shape.setBits) - 1 && |sets| == Pow2(shape.setBits)
      && Separate()
      && shape.ways >= 1
      && forall k :: 0 <= k < |sets| ==> SetIs(k)
    }

    ghost predicate SetIs(k: nat)
      requires k < |sets| && Separate()
      reads Repr
    {
      sets[k].Valid() && sets[k].associativity == shape.ways && sets[k].policy == shape.policy
    }

    ghost function Contents(): (c: Contents)
      requires Valid()
      reads Repr
    {
      seq(|sets|, k requires 0 <= k < |sets| && Separate() && SetIs(k) reads Repr => sets[k].Lines())
    }

    lemma ContentsFit()
      requires Valid()
      ensures Fits(shape, Contents())
    {
      forall k | 0 <= k < |sets| ensures |Contents()[k]| <= shape.ways {
        assert SetIs(k);
        sets[k].SetSize();
      }
    }

    constructor (cacheSize: nat, lineSize: nat, associativity: nat, policy: Policy, ghost lineBits: nat, ghost setBits: nat)
      requires associativity >= 1 && lineSize == Pow2(lineBits) < TWO_32
      requires associativity * lineSize > 0 && cacheSize / (associativity * lineSize) == Pow2(setBits)
      ensures Valid() && fresh(Repr)
      ensures shape == Shape(lineBits, setBits, associativity, policy)
      ensures Contents() == Empty(shape)
    {
      hide Pow2, HighestBit, IsNew, LRU.Valid, LRU.Lines;
      var shift := FloorLog2(lineSize);
      OnlyBit(lineBits, shift);
      var numSets := cacheSize / (associativity * lineSize);
      var made := MakeSets(numSets, associativity, policy);
      lineShift, setIndexMask, sets, this.policy := shift, numSets - 1, made, policy;
      shape := Shape(lineBits, setBits, associativity, policy);
      Repr := (set k | 0 <= k < |made| :: made[k] as object) + (set k | 0 <= k < |made| :: made[k].blocks as object);
      new;
      AllEmpty();
    }

    lemma AllEmpty()
      requires Separate() && |sets| == Pow2(shape.setBits) && shape.ways >= 1
      requires lineShift == shape.lineShift && policy == shape.policy && setIndexMask == |sets| - 1
      requires forall k :: 0 <= k < |sets| ==> IsNew(sets[k], shape.ways, shape.policy)
      ensures Valid() && Contents() == Empty(shape)
    {
    }

    // The access within its set.
    method AccessSet(lru: LRU, tag: nat, addr: nat, isWrite: bool) returns (b: Block)
      requires lru.Valid() && lru.policy == policy
      modifies lru, lru.blocks
      ensures |old(lru.Lines())| <= lru.associativity
      ensures Names(tag, |old(lru.Lines())|, lru.associativity) ==>
        && lru.Valid()
        && lru.Lines() == Step(policy, lru.associativity, old(lru.Lines()), Access(tag, addr, isWrite)).0
        && Reports(b, old(lru.Lines()), tag, Step(policy, lru.associativity, old(lru.Lines()), Access(tag, addr, isWrite)).1)
      ensures !Names(tag, |old(lru.Lines())|, lru.associativity) ==>
        && b.tag == 1 && b.valid == isWrite
        && (!isWrite ==> lru.Valid() && lru.Lines() == old(lru.Lines()))
    {
      hide Find, Touch, Allocate, LinesOf, Fresh, Ordered, Indices, Names;
      lru.SetSize();
      ghost var lines := lru.Lines();
      if Present(lines, tag) {
        AddressIsIdle(policy, lines, tag, addr, isWrite);
      }
      var lookup := lru.FindAndUpdate(tag, isWrite);
      if lookup == MISS {
        b := EMPTY;
        if !isWrite || policy.miss == WRITE_ALLOCATE {
          b := lru.EvictAndUpdate(tag, addr, isWrite);
        }
        b := b.(tag := 0);
      } else {
        b := EMPTY.(tag := 1, valid := lookup == HIT_VALID);
      }
    }

    // Look an address up, bring its line in if the policy says so, and hand back what was
    // found or what has to be written back.
    method LookupEvictUpdate(addr: nat, isWrite: bool) returns (b: Block)
      requires Valid()
      modifies Repr
      ensures Fits(shape, old(Contents()))
      ensures Named(shape, old(Contents()), addr) ==>
        && Valid()
        && Contents() == Accessed(shape, old(Contents()), Request(addr, isWrite)).0
        && Reports(b, old(Contents())[SetOf(shape, addr)], TagOf(shape, addr),
                   Accessed(shape, old(Contents()), Request(addr, isWrite)).1)
      ensures !Named(shape, old(Contents()), addr) ==>
        && b.tag == 1 && b.valid == isWrite
        && (!isWrite ==> Valid() && Contents() == old(Contents()))
    {
      hide LRU.Valid, LRU.Lines, Step, Pow2, And, Shr, Find, Names;
      ContentsFit();
      var tag := Shr(addr, lineShift);
      AndMask(tag, shape.setBits);
      var setIndex := And(tag, setIndexMask);
      assert SetIs(setIndex);
      label before:
      b := AccessSet(sets[setIndex], tag, addr, isWrite);
      forall k | 0 <= k < |sets| && k != setIndex ensures SetIs(k) && sets[k].Lines() == old@before(sets[k].Lines()) {
        assert old@before(SetIs(k));
      }
    }
  }

  lemma AddressIsIdle(p: Policy, lines: seq<Line>, tag: nat, addr: nat, isWrite: bool)
    requires Present(lines, tag)
    ensures Touch(p, lines, Access(tag, 0, isWrite)) == Touch(p, lines, Access(tag, addr, isWrite))
  {
  }

  lemma OnlyBit(w: nat, p: int)
    requires p >= 0 && HighestBit(Pow2(w), p)
    ensures p == w
  {
    if p < w {
      if p + 1 < w { Pow2Monotone(p + 1, w); }
    } else if p > w {
      Pow2Monotone(w, p);
    }
  }
}
