// The set-associative cache: blocks stamped with the time of their last use stand for
// a list of lines in order of use.
module LruCaches {
  import opened Wrappers
  import opened Recency
  import opened Sequences

  datatype Block = Block(valid: bool, dirty: bool, tag: nat, addr: nat, timestamp: nat)

  datatype Lookup = HIT_VALID | HIT_INVALID | MISS

  const EMPTY := Block(false, false, 0, 0, 0)

  function LineOf(b: Block): Line {
    Line(b.tag, b.addr, b.dirty)
  }

  // ---- Blocks in order of use ----

  ghost predicate Indices(order: seq<nat>, n: nat) {
    && (forall k :: 0 <= k < |order| ==> order[k] < n)
    && forall j, k :: 0 <= j < k < |order| ==> order[j] != order[k]
  }

  // A tag that names a line in a set with this many blocks in use.
  predicate Names(tag: nat, used: nat, ways: nat) {
    tag != 0 || used == ways
  }

  // Ever older blocks, all with different tags.
  ghost predicate Descending(blocks: seq<Block>, order: seq<nat>)
    requires Indices(order, |blocks|)
  {
    forall j, k :: 0 <= j < k < |order| ==>
      && blocks[order[j]].timestamp > blocks[order[k]].timestamp && blocks[order[j]].tag != blocks[order[k]].tag
  }

  // `order` lists the valid blocks, the most recently used first.  Tag 0 marks a block
  // that was never used, so it names a line only once every block is in use.
  ghost predicate Ordered(blocks: seq<Block>, order: seq<nat>, time: nat) {
    && Indices(order, |blocks|)
    && (forall k :: 0 <= k < |order| ==>
          && blocks[order[k]].valid && Names(blocks[order[k]].tag, |order|, |blocks|) && blocks[order[k]].timestamp <= time)
    && Descending(blocks, order)
    && forall i :: 0 <= i < |blocks| && i !in order ==> !blocks[i].valid && !blocks[i].dirty && blocks[i].tag == 0
  }

  function LinesOf(blocks: seq<Block>, order: seq<nat>): (lines: seq<Line>)
    requires Indices(order, |blocks|)
    ensures |lines| == |order| && forall k :: 0 <= k < |order| ==> lines[k] == LineOf(blocks[order[k]])
  {
    seq(|order|, k requires 0 <= k < |order| => LineOf(blocks[order[k]]))
  }

  function Below(n: nat): (s: set<nat>)
    ensures |s| == n && forall i: nat :: i in s <==> i < n
  {
    if n == 0 then {} else Below(n - 1) + {n - 1}
  }

  function Elements(order: seq<nat>): (s: set<nat>)
    ensures forall i: nat :: i in s <==> i in order
    decreases |order|
  {
    if order == [] then {} else Elements(order[..|order| - 1]) + {order[|order| - 1]}
  }

  lemma {:induction false} ElementsHaveSize(order: seq<nat>, n: nat)
    requires Indices(order, n)
    ensures |Elements(order)| == |order|
    decreases |order|
  {
    if order != [] {
      ElementsHaveSize(order[..|order| - 1], n);
    }
  }

  lemma SubsetIsSmaller(a: set<nat>, b: set<nat>)
    requires a <= b
    ensures |a| <= |b| && (|a| == |b| ==> a == b)
  {
    assert b == a + (b - a);
  }

  // The valid blocks fill the set exactly when no block is invalid.
  lemma FullWhenAllListed(order: seq<nat>, n: nat)
    requires Indices(order, n)
    ensures |order| <= n
    ensures |order| == n <==> forall i: nat :: i < n ==> i in order
  {
    ElementsHaveSize(order, n);
    SubsetIsSmaller(Elements(order), Below(n));
    if forall i: nat :: i < n ==> i in order {
      assert Elements(order) == Below(n);
    }
  }

  lemma LinesAreDistinct(blocks: seq<Block>, order: seq<nat>, time: nat)
    requires Ordered(blocks, order, time)
    ensures DistinctTags(LinesOf(blocks, order))
  {
  }

  lemma FindIs(lines: seq<Line>, tag: nat, k: nat)
    requires DistinctTags(lines) && k < |lines| && lines[k].tag == tag
    ensures Find(lines, tag) == k
  {
  }

  // The block that a tag was found in is the one of the list.
  lemma FoundAt(blocks: seq<Block>, order: seq<nat>, time: nat, tag: nat, index: nat)
    requires Ordered(blocks, order, time) && index < |blocks| && blocks[index].tag == tag
    requires Names(tag, |order|, |blocks|)
    ensures var lines := LinesOf(blocks, order);
      Present(lines, tag) && order[Find(lines, tag)] == index && blocks[index].valid
  {
    FullWhenAllListed(order, |blocks|);
    assert index in order;
    var k :| 0 <= k < |order| && order[k] == index;
    LinesAreDistinct(blocks, order, time);
    FindIs(LinesOf(blocks, order), tag, k);
  }

  lemma NotFound(blocks: seq<Block>, order: seq<nat>, time: nat, tag: nat)
    requires Ordered(blocks, order, time) && forall i :: 0 <= i < |blocks| ==> blocks[i].tag != tag
    ensures !Present(LinesOf(blocks, order), tag)
  {
  }

  function UsedBlock(p: Policy, b: Block, time: nat, isWrite: bool): Block {
    b.(timestamp := time, valid := true, dirty := if isWrite then p.write == WRITE_BACK else b.dirty)
  }

  lemma UsedBlockIs(p: Policy, b: Block, time: nat, isWrite: bool)
    requires b.valid
    ensures UsedBlock(p, b, time, isWrite) ==
      if isWrite then b.(timestamp := time, valid := true, dirty := p.write == WRITE_BACK) else b.(timestamp := time)
  {
  }

  // What stays of the order when block `index` is taken out: all other valid blocks,
  // none with tag `tag`, all used before time `time`.
  ghost predicate Rest(blocks: seq<Block>, rest: seq<nat>, index: nat, tag: nat, time: nat) {
    && Indices(rest, |blocks|) && index < |blocks| && index !in rest
    && (forall k :: 0 <= k < |rest| ==>
          && blocks[rest[k]].valid && Names(blocks[rest[k]].tag, |rest| + 1, |blocks|) && blocks[rest[k]].tag != tag
          && blocks[rest[k]].timestamp < time)
    && Descending(blocks, rest)
    && forall i :: 0 <= i < |blocks| && i != index && i !in rest ==>
         !blocks[i].valid && !blocks[i].dirty && blocks[i].tag == 0
  }

  // A block used now comes first.
  lemma PushFront(blocks: seq<Block>, rest: seq<nat>, index: nat, b: Block, time: nat)
    requires Rest(blocks, rest, index, b.tag, time) && b.valid && b.timestamp == time
    requires Names(b.tag, |rest| + 1, |blocks|)
    ensures Indices([index] + rest, |blocks|) && Ordered(blocks[index := b], [index] + rest, time)
  {
    var order', blocks' := [index] + rest, blocks[index := b];
    forall i | 0 < i < |order'| ensures order'[i] == rest[i - 1] && blocks'[order'[i]] == blocks[rest[i - 1]] {
    }
    assert forall i :: i in order' <==> i == index || i in rest;
  }

  lemma DroppedAt<T>(s: seq<T>, k: nat)
    requires k < |s|
    ensures |Drop(s, k)| == |s| - 1
    ensures forall i :: 0 <= i < |s| - 1 ==> Drop(s, k)[i] == s[if i < k then i else i + 1]
    ensures forall x :: x in s ==> x == s[k] || x in Drop(s, k)
  {
  }

  lemma DropIndices(order: seq<nat>, n: nat, k: nat)
    requires Indices(order, n) && k < |order|
    ensures Indices(Drop(order, k), n) && order[k] !in Drop(order, k)
  {
    DroppedAt(order, k);
    hide Drop;
  }

  lemma DropDescending(blocks: seq<Block>, order: seq<nat>, k: nat)
    requires Indices(order, |blocks|) && k < |order| && Descending(blocks, order)
    requires Indices(Drop(order, k), |blocks|)
    ensures Descending(blocks, Drop(order, k))
  {
    DroppedAt(order, k);
    hide Drop;
  }

  lemma DroppedAreOlder(blocks: seq<Block>, order: seq<nat>, time: nat, k: nat)
    requires Ordered(blocks, order, time) && k < |order|
    ensures forall i :: 0 <= i < |Drop(order, k)| ==>
      && Drop(order, k)[i] in order && blocks[Drop(order, k)[i]].tag != blocks[order[k]].tag
  {
    DroppedAt(order, k);
    hide Drop;
  }

  lemma RestWithout(blocks: seq<Block>, order: seq<nat>, time: nat, k: nat)
    requires Ordered(blocks, order, time) && k < |order|
    ensures Rest(blocks, Drop(order, k), order[k], blocks[order[k]].tag, time + 1)
  {
    hide Drop, Descending;
    DropIndices(order, |blocks|, k);
    DropDescending(blocks, order, k);
    DroppedAreOlder(blocks, order, time, k);
    DroppedAt(order, k);
  }

  lemma LastDropped(order: seq<nat>)
    requires |order| > 0
    ensures order[..|order| - 1] == Drop(order, |order| - 1)
  {
  }

  // Taking out the block used longest ago makes room for another tag.
  lemma RestWithoutLast(blocks: seq<Block>, order: seq<nat>, time: nat, tag: nat)
    requires Ordered(blocks, order, time) && Fresh(blocks, order, time) && |order| > 0
    requires !Present(LinesOf(blocks, order), tag)
    ensures Rest(blocks, order[..|order| - 1], order[|order| - 1], tag, time)
  {
    var last := |order| - 1;
    hide Drop, Descending, LinesOf, Find;
    LastDropped(order);
    DropIndices(order, |blocks|, last);
    DropDescending(blocks, order, last);
    DroppedAt(order, last);
    forall k | 0 <= k < last ensures blocks[order[k]].tag != tag {
      NotThatTag(LinesOf(blocks, order), tag, k);
    }
  }

  lemma RestOfAll(blocks: seq<Block>, order: seq<nat>, time: nat, tag: nat, index: nat)
    requires Ordered(blocks, order, time) && Fresh(blocks, order, time) && index < |blocks| && index !in order
    requires !Present(LinesOf(blocks, order), tag)
    ensures Rest(blocks, order, index, tag, time)
  {
    forall k | 0 <= k < |order| ensures blocks[order[k]].tag != tag {
      NotThatTag(LinesOf(blocks, order), tag, k);
    }
    FullWhenAllListed(order, |blocks|);
    hide LinesOf, Find;
  }

  lemma NotThatTag(lines: seq<Line>, tag: nat, i: nat)
    requires !Present(lines, tag) && i < |lines|
    ensures lines[i].tag != tag
  {
  }

  lemma UsedIsOrdered(p: Policy, blocks: seq<Block>, order: seq<nat>, time: nat, k: nat, isWrite: bool)
    requires Ordered(blocks, order, time) && k < |order|
    ensures Indices([order[k]] + Drop(order, k), |blocks|)
    ensures Ordered(blocks[order[k] := UsedBlock(p, blocks[order[k]], time + 1, isWrite)],
                    [order[k]] + Drop(order, k), time + 1)
  {
    DroppedAt(order, k);
    hide Rest, Drop;
    RestWithout(blocks, order, time, k);
    PushFront(blocks, Drop(order, k), order[k], UsedBlock(p, blocks[order[k]], time + 1, isWrite), time + 1);
  }

  // Using block order[k] again moves its line to the front.
  lemma UsedMovesToFront(blocks: seq<Block>, order: seq<nat>, k: nat, b: Block)
    requires Indices(order, |blocks|) && k < |order| && Indices([order[k]] + Drop(order, k), |blocks|)
    ensures LinesOf(blocks[order[k] := b], [order[k]] + Drop(order, k))
         == [LineOf(b)] + Drop(LinesOf(blocks, order), k)
  {
    var lines, order' := LinesOf(blocks, order), [order[k]] + Drop(order, k);
    DroppedAt(order, k);
    DroppedAt(lines, k);
    hide Drop, Indices, LineOf;
    var now := LinesOf(blocks[order[k] := b], order');
    assert |now| == 1 + |Drop(lines, k)|;
    forall i | 0 < i < |now| ensures now[i] == Drop(lines, k)[i - 1] {
      assert order'[i] == Drop(order, k)[i - 1];
      OtherIndex(order, |blocks|, k, if i - 1 < k then i - 1 else i);
    }
    assert order'[0] == order[k];
  }

  lemma OtherIndex(order: seq<nat>, n: nat, k: nat, j: nat)
    requires Indices(order, n) && k < |order| && j < |order| && j != k
    ensures order[j] != order[k]
  {
  }

  lemma UsedIsTouched(p: Policy, blocks: seq<Block>, order: seq<nat>, time: nat, a: Access)
    requires Indices(order, |blocks|) && Present(LinesOf(blocks, order), a.tag)
    requires Indices([order[Find(LinesOf(blocks, order), a.tag)]] + Drop(order, Find(LinesOf(blocks, order), a.tag)), |blocks|)
    ensures var k := Find(LinesOf(blocks, order), a.tag);
      LinesOf(blocks[order[k] := UsedBlock(p, blocks[order[k]], time, a.isWrite)], [order[k]] + Drop(order, k))
        == Touch(p, LinesOf(blocks, order), a)
  {
    var k := Find(LinesOf(blocks, order), a.tag);
    hide Find, Indices, Drop;
    UsedMovesToFront(blocks, order, k, UsedBlock(p, blocks[order[k]], time, a.isWrite));
  }

  // No listed block has been used at time `time`.
  ghost predicate Fresh(blocks: seq<Block>, order: seq<nat>, time: nat) {
    forall k :: 0 <= k < |order| && order[k] < |blocks| ==> blocks[order[k]].timestamp < time
  }

  // An invalid block takes a new line.
  lemma Filled(p: Policy, blocks: seq<Block>, order: seq<nat>, time: nat, a: Access, index: nat)
    requires Ordered(blocks, order, time) && Fresh(blocks, order, time) && a.tag != 0
    requires !Present(LinesOf(blocks, order), a.tag) && index < |blocks| && !blocks[index].valid
    ensures |order| < |blocks| && !blocks[index].dirty && Indices([index] + order, |blocks|)
    ensures var blocks' := blocks[index := NewBlock(p, a, time)];
      && Ordered(blocks', [index] + order, time)
      && (LinesOf(blocks', [index] + order), None) == Allocate(p, |blocks|, LinesOf(blocks, order), a)
  {
    InvalidIsUnlisted(blocks, order, time, index);
    FullWhenAllListed(order, |blocks|);
    RestOfAll(blocks, order, time, a.tag, index);
    PushFront(blocks, order, index, NewBlock(p, a, time), time);
    hide Ordered, Rest, Fresh, Find;
    assert LinesOf(blocks[index := NewBlock(p, a, time)], [index] + order)
        == [LineOf(NewBlock(p, a, time))] + LinesOf(blocks, order);
  }

  function NewBlock(p: Policy, a: Access, time: nat): Block {
    Block(true, a.isWrite && p.write == WRITE_BACK, a.tag, a.addr, time)
  }

  lemma InvalidIsUnlisted(blocks: seq<Block>, order: seq<nat>, time: nat, index: nat)
    requires Ordered(blocks, order, time) && index < |blocks| && !blocks[index].valid
    ensures index !in order && !blocks[index].dirty
  {
  }

  // The block used longest ago gives way to a new line.
  lemma Replaced(p: Policy, blocks: seq<Block>, order: seq<nat>, time: nat, a: Access, index: nat)
    requires Ordered(blocks, order, time) && Fresh(blocks, order, time)
    requires !Present(LinesOf(blocks, order), a.tag) && index < |blocks|
    requires forall i :: 0 <= i < |blocks| ==> blocks[i].valid && blocks[index].timestamp <= blocks[i].timestamp
    ensures |order| == |blocks| && order[|order| - 1] == index && Indices([index] + order[..|order| - 1], |blocks|)
    ensures var blocks', order' := blocks[index := NewBlock(p, a, time)], [index] + order[..|order| - 1];
      && Ordered(blocks', order', time)
      && (LinesOf(blocks', order'), Some(LineOf(blocks[index]))) == Allocate(p, |blocks|, LinesOf(blocks, order), a)
  {
    AllValidAllListed(blocks, order, time);
    FullWhenAllListed(order, |blocks|);
    Oldest(blocks, order, time, index);
    RestWithoutLast(blocks, order, time, a.tag);
    PushFront(blocks, order[..|order| - 1], index, NewBlock(p, a, time), time);
    hide Ordered, Rest, Fresh, Find;
    ReplacedLines(blocks, order, NewBlock(p, a, time));
  }

  lemma AllValidAllListed(blocks: seq<Block>, order: seq<nat>, time: nat)
    requires Ordered(blocks, order, time) && forall i :: 0 <= i < |blocks| ==> blocks[i].valid
    ensures forall i: nat :: i < |blocks| ==> i in order
  {
  }

  lemma ReplacedLines(blocks: seq<Block>, order: seq<nat>, b: Block)
    requires Indices(order, |blocks|) && |order| > 0
    requires Indices([order[|order| - 1]] + order[..|order| - 1], |blocks|)
    ensures var last := |order| - 1;
      LinesOf(blocks[order[last] := b], [order[last]] + order[..last]) == [LineOf(b)] + LinesOf(blocks, order)[..last]
  {
  }

  lemma Oldest(blocks: seq<Block>, order: seq<nat>, time: nat, index: nat)
    requires Ordered(blocks, order, time) && |order| == |blocks| && index < |blocks|
    requires forall i :: 0 <= i < |blocks| ==> blocks[index].timestamp <= blocks[i].timestamp
    ensures order[|order| - 1] == index
  {
    FullWhenAllListed(order, |blocks|);
    assert index in order;
    var k :| 0 <= k < |order| && order[k] == index;
    assert blocks[order[k]].timestamp <= blocks[order[|order| - 1]].timestamp;
  }

  lemma LaterIsOrdered(blocks: seq<Block>, order: seq<nat>, time: nat)
    requires Ordered(blocks, order, time)
    ensures Ordered(blocks, order, time + 1) && Fresh(blocks, order, time + 1)
  {
  }

  // What a lookup answers: in a set that is not full, tag 0 always hits.
  function Answer(lines: seq<Line>, ways: nat, tag: nat, isWrite: bool): Lookup {
    if Names(tag, |lines|, ways) then (if Present(lines, tag) then HIT_VALID else MISS)
    else if isWrite then HIT_VALID else HIT_INVALID
  }

  // Lookups agree with the list exactly for the tags that name a line.
  lemma AnswerIsRightExactlyWhen(lines: seq<Line>, ways: nat, tag: nat, isWrite: bool)
    requires forall k :: 0 <= k < |lines| ==> Names(lines[k].tag, |lines|, ways)
    ensures (Answer(lines, ways, tag, isWrite) == MISS <==> !Present(lines, tag)) <==> Names(tag, |lines|, ways)
  {
    if Present(lines, tag) {
      assert lines[Find(lines, tag)].tag == tag;
    }
  }

  // In a set that nothing was brought into, a read of tag 0 already hits.
  lemma ColdLineHits(ways: nat)
    requires ways >= 1
    ensures !Present([], 0) && Answer([], ways, 0, false) == HIT_INVALID
  {
  }

  lemma UnnamedIsUnused(blocks: seq<Block>, order: seq<nat>, time: nat, index: nat)
    requires Ordered(blocks, order, time) && index < |blocks| && !Names(blocks[index].tag, |order|, |blocks|)
    ensures index !in order && !blocks[index].valid
  {
  }

  // A stamp on a block that is not in use changes nothing.
  lemma UnusedStampIsIdle(blocks: seq<Block>, order: seq<nat>, time: nat, index: nat, stamp: nat)
    requires Ordered(blocks, order, time) && index < |blocks| && index !in order
    ensures var blocks' := blocks[index := blocks[index].(timestamp := stamp)];
      Ordered(blocks', order, time + 1) && LinesOf(blocks', order) == LinesOf(blocks, order)
  {
  }

  lemma UnusedIsFound(blocks: seq<Block>, order: seq<nat>, time: nat, tag: nat)
    requires Ordered(blocks, order, time) && forall i :: 0 <= i < |blocks| ==> blocks[i].tag != tag
    ensures Names(tag, |order|, |blocks|)
  {
    FullWhenAllListed(order, |blocks|);
  }

  lemma Unfilled(blocks: seq<Block>, order: seq<nat>, time: nat, index: nat)
    requires Ordered(blocks, order, time) && index < |blocks| && !blocks[index].valid
    ensures |order| < |blocks|
  {
    FullWhenAllListed(order, |blocks|);
  }

  // ---- One set ----

  class LRU {
    const associativity: nat
    const policy: Policy
    const blocks: array<Block>
    var timestamp: nat
    ghost var order: seq<nat>

    ghost predicate Valid()
      reads this, blocks
    {
      blocks.Length == associativity >= 1 && Indices(order, associativity) && Ordered(blocks[..], order, timestamp)
    }

    // The set as a list of lines.
    ghost function Lines(): seq<Line>
      requires Valid()
      reads this, blocks
    {
      LinesOf(blocks[..], order)
    }

    constructor (associativity: nat, policy: Policy)
      requires associativity >= 1
      ensures Valid() && fresh(blocks) && this.associativity == associativity && this.policy == policy
      ensures Lines() == [] && timestamp == 0
    {
      this.associativity, this.policy := associativity, policy;
      blocks := new Block[associativity](i => EMPTY);
      timestamp := 0;
      order := [];
    }

    // The last block with this tag, if any.
    method Search(tag: nat) returns (foundIndex: int)
      requires Valid()
      ensures -1 <= foundIndex < associativity
      ensures foundIndex >= 0 ==> blocks[foundIndex].tag == tag
      ensures foundIndex < 0 ==> forall i :: 0 <= i < associativity ==> blocks[i].tag != tag
    {
      foundIndex := -1;
      var index := 0;
      while index < associativity
        invariant 0 <= index <= associativity && -1 <= foundIndex < index
        invariant foundIndex >= 0 ==> blocks[foundIndex].tag == tag
        invariant foundIndex < 0 ==> forall i :: 0 <= i < index ==> blocks[i].tag != tag
      {
        if blocks[index].tag == tag {
          foundIndex := index;
        }
        index := index + 1;
      }
    }

    // Look a tag up; a hit makes its line the most recent.
    method FindAndUpdate(tag: nat, isWrite: bool) returns (lookup: Lookup)
      requires Valid()
      modifies this, blocks
      ensures lookup == Answer(old(Lines()), associativity, tag, isWrite)
      ensures timestamp == old(timestamp) + 1
      ensures Names(tag, |old(Lines())|, associativity) || !isWrite ==> Valid()
      ensures Names(tag, |old(Lines())|, associativity) ==>
        && Lines() == (if Present(old(Lines()), tag) then Touch(policy, old(Lines()), Access(tag, 0, isWrite))
                       else old(Lines()))
        && (lookup == MISS ==> Fresh(blocks[..], order, timestamp))
      ensures !Names(tag, |old(Lines())|, associativity) && !isWrite ==> Lines() == old(Lines())
    {
      hide Ordered, Indices, Find, Touch, LinesOf, Drop, Fresh, UsedBlock;
      ghost var before := blocks[..];
      var foundIndex := Search(tag);
      timestamp := timestamp + 1;
      if foundIndex > -1 {
        ghost var named := Names(tag, |order|, associativity);
        if named {
          FoundAt(before, order, timestamp - 1, tag, foundIndex);
          ghost var k := Find(LinesOf(before, order), tag);
          UsedIsOrdered(policy, before, order, timestamp - 1, k, isWrite);
          UsedIsTouched(policy, before, order, timestamp, Access(tag, 0, isWrite));
          UsedBlockIs(policy, before[foundIndex], timestamp, isWrite);
          order := [order[k]] + Drop(order, k);
        } else {
          UnnamedIsUnused(before, order, timestamp - 1, foundIndex);
          UnusedStampIsIdle(before, order, timestamp - 1, foundIndex, timestamp);
        }
        var block := blocks[foundIndex].(timestamp := timestamp);
        if isWrite {
          block := block.(valid := true, dirty := policy.write == WRITE_BACK);
        }
        blocks[foundIndex] := block;
        assert named ==> blocks[..] == before[foundIndex := UsedBlock(policy, before[foundIndex], timestamp, isWrite)];
        assert !isWrite ==> blocks[..] == before[foundIndex := before[foundIndex].(timestamp := timestamp)];
        return if isWrite || block.valid then HIT_VALID else HIT_INVALID;
      }
      NotFound(before, order, timestamp - 1, tag);
      UnusedIsFound(before, order, timestamp - 1, tag);
      LaterIsOrdered(before, order, timestamp - 1);
      assert blocks[..] == before;
      return MISS;
    }

    // The block to give up: the first invalid one, else the one used longest ago.
    method ChooseVictim() returns (evictIndex: nat)
      requires Valid()
      ensures evictIndex < associativity
      ensures blocks[evictIndex].valid ==> forall i :: 0 <= i < associativity ==>
        blocks[i].valid && blocks[evictIndex].timestamp <= blocks[i].timestamp
    {
      hide Ordered;
      evictIndex := 0;
      var oldestIndex, found := 0, false;
      var minTime := blocks[0].timestamp;
      var index := 0;
      while index < associativity
        invariant 0 <= index <= associativity && !found
        invariant 0 <= oldestIndex < associativity && minTime == blocks[oldestIndex].timestamp
        invariant index == 0 ==> oldestIndex == 0
        invariant forall i :: 0 <= i < index ==> blocks[i].valid && minTime <= blocks[i].timestamp
      {
        if !blocks[index].valid {
          evictIndex := index;
          found := true;
          break;
        }
        if blocks[index].timestamp < minTime {
          minTime := blocks[index].timestamp;
          oldestIndex := index;
        }
        index := index + 1;
      }
      if !found {
        evictIndex := oldestIndex;
      }
    }

    // Bring a line in.
    method EvictAndUpdate(tag: nat, addr: nat, isWrite: bool) returns (evicted: Block)
      requires Valid() && Fresh(blocks[..], order, timestamp) && !Present(Lines(), tag)
      requires Names(tag, |Lines()|, associativity)
      modifies `order, blocks
      ensures Valid()
      ensures evicted.valid || !evicted.dirty
      ensures |old(Lines())| <= associativity
      ensures (Lines(), if evicted.valid then Some(LineOf(evicted)) else None)
           == Allocate(policy, associativity, old(Lines()), Access(tag, addr, isWrite))
    {
      hide Ordered, Indices, Present, Fresh, LinesOf, Allocate;
      ghost var before := blocks[..];
      ghost var a := Access(tag, addr, isWrite);
      SetSize();
      var evictIndex := ChooseVictim();
      evicted := blocks[evictIndex];
      if evicted.valid {
        Replaced(policy, before, order, timestamp, a, evictIndex);
      } else {
        Unfilled(before, order, timestamp, evictIndex);
        Filled(policy, before, order, timestamp, a, evictIndex);
      }
      blocks[evictIndex] := Block(true, isWrite && policy.write == WRITE_BACK, tag, addr, timestamp);
      assert blocks[..] == before[evictIndex := NewBlock(policy, a, timestamp)];
      order := [evictIndex] + if evicted.valid then order[..|order| - 1] else order;
    }

    lemma SetSize()
      requires Valid()
      ensures |Lines()| <= associativity
    {
      FullWhenAllListed(order, associativity);
    }
  }
}
