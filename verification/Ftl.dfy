// The flash translation layer without scheduling and without garbage collection: reads and
// writes served in order, each write to a fresh page.
module Ftls {
  import opened Wrappers
  import opened FlashGeometry
  import opened PageTables

  datatype Kind = DATA_READ | DATA_WRITE

  datatype Transaction = Transaction(kind: Kind, address: nat, data: nat)

  datatype PacketKind = READ | WRITE | DATA | FAST_WRITE | UNMAPPED

  // What goes to the controller; an unmapped read is answered at once, without a page.
  datatype Packet = Packet(kind: PacketKind, vAddr: nat, pAddr: nat, location: Location)

  const NOWHERE := Location(0, 0, 0, 0, 0)

  function Unmapped(v: nat): Packet {
    Packet(UNMAPPED, v, 0, NOWHERE)
  }

  // The data last written to each address by the transactions of a queue.
  function Replay(served: seq<Transaction>): (m: map<nat, nat>)
    decreases |served|
  {
    if served == [] then map[]
    else
      var before, t := Replay(served[..|served| - 1]), served[|served| - 1];
      if t.kind == DATA_WRITE then before[t.address := t.data] else before
  }

  lemma ReplayNext(served: seq<Transaction>, t: Transaction)
    ensures Replay(served + [t]) == if t.kind == DATA_WRITE then Replay(served)[t.address := t.data] else Replay(served)
  {
    assert (served + [t])[..|served|] == served;
  }

  // Every address written holds the data of its last write; any other mapped address was
  // brought in from disk.
  ghost predicate Agrees(contents: map<nat, Content>, served: seq<Transaction>) {
    forall v :: (v in Replay(served) ==> v in contents && contents[v] == Written(Replay(served)[v]))
             && (v in contents && v !in Replay(served) ==> contents[v] == FromDisk)
  }

  lemma AgreesAfterWrite(contents: map<nat, Content>, served: seq<Transaction>, t: Transaction)
    requires Agrees(contents, served) && t.kind == DATA_WRITE
    ensures Agrees(contents[t.address := Written(t.data)], served + [t])
  {
    ReplayNext(served, t);
  }

  lemma AgreesAfterRead(contents: map<nat, Content>, served: seq<Transaction>, t: Transaction)
    requires Agrees(contents, served) && t.kind == DATA_READ
    ensures Agrees(contents, served + [t])
  {
    ReplayNext(served, t);
  }

  lemma AgreesAfterDiskRead(contents: map<nat, Content>, served: seq<Transaction>, v: nat)
    requires Agrees(contents, served) && v !in contents
    ensures Agrees(contents[v := FromDisk], served)
  {
  }

  class Ftl {
    const g: Geometry
    const diskRead: bool
    const lookupCycles: nat
    const deadlockTime: nat
    const queueLimit: nat
    const addressLimit: nat

    var used: Used
    var addressMap: map<nat, nat>
    var pointer: Pointer
    var readQueue: seq<Transaction>
    var currentTransaction: Transaction
    var busy: bool
    var lookupCounter: nat
    var writeQueuesFull: bool
    var deadlockCounter: nat

    // The content of the pages, the transactions served so far, and whether the page of the
    // current transaction has been given up.
    ghost var stored: map<nat, Content>
    ghost var served: seq<Transaction>
    ghost var givenUp: bool

    ghost function Hole(): Option<nat>
      reads this`givenUp, this`currentTransaction
    {
      if givenUp then Some(currentTransaction.address) else None
    }

    // The tables fit each other and what has been stored.
    ghost predicate TablesFit()
      reads this`givenUp, this`currentTransaction, this`used, this`addressMap, this`stored, this`pointer
    {
      && g.Valid() && Named(g, pointer)
      && Exact(g, used, addressMap, Hole())
      && AllStored(addressMap, stored)
    }

    ghost predicate QueueFits()
      reads this`busy, this`readQueue, this`currentTransaction, this`givenUp, this`addressMap,
            this`deadlockCounter
    {
      && (busy ==> readQueue != [] && readQueue[0] == currentTransaction)
      && (givenUp ==> busy && currentTransaction.kind == DATA_WRITE && currentTransaction.address in addressMap)
      && deadlockCounter < deadlockTime
    }

    ghost function Latest(): map<nat, Content>
      requires TablesFit()
      reads this`givenUp, this`currentTransaction, this`used, this`addressMap, this`stored, this`pointer
    {
      Contents(addressMap, stored)
    }

    ghost predicate Valid()
      reads this
    {
      TablesFit() && QueueFits() && Agrees(Latest(), served)
    }

    constructor (g: Geometry, diskRead: bool, lookupCycles: nat, deadlockTime: nat, queueLimit: nat, addressLimit: nat)
      requires g.Valid() && deadlockTime >= 1
      ensures Valid() && Latest() == map[] && served == [] && readQueue == [] && !busy
      ensures this.g == g && this.diskRead == diskRead && pointer == Pointer(0, 0, 0)
    {
      this.g, this.diskRead, this.lookupCycles, this.deadlockTime := g, diskRead, lookupCycles, deadlockTime;
      this.queueLimit, this.addressLimit := queueLimit, addressLimit;
      used := seq(g.Blocks(), i => seq(g.pagesPerBlock, j => false));
      addressMap, pointer := map[], Pointer(0, 0, 0);
      readQueue, currentTransaction, busy, lookupCounter := [], Transaction(DATA_READ, 0, 0), false, 0;
      writeQueuesFull, deadlockCounter := false, 0;
      stored, served, givenUp := map[], [], false;
    }

    // Queue a transaction; the queue refuses when it is full, and an address out of bounds
    // ends the simulation.
    method AddTransaction(t: Transaction) returns (out: Result<bool, Failure>)
      requires Valid()
      modifies this`readQueue
      ensures Valid()
      ensures out == if t.address >= addressLimit then Halt(OutOfBounds)
                     else Ok(queueLimit == 0 || |old(readQueue)| < queueLimit)
      ensures readQueue == if out == Ok(true) then old(readQueue) + [t] else old(readQueue)
    {
      hide Exact, Agrees, IsPage, Contents, Shaped;
      if t.address >= addressLimit {
        return Halt(OutOfBounds);
      }
      if |readQueue| >= queueLimit && queueLimit != 0 {
        return Ok(false);
      }
      readQueue := readQueue + [t];
      return Ok(true);
    }

    // The first free page among blocks lo to hi - 1.
    method FindFree(lo: nat, hi: nat) returns (done: bool, block: nat, page: nat)
      requires Shaped(g, used) && hi <= g.Blocks()
      ensures done ==> FirstFree(used, lo, block, page) && block < hi && page < g.pagesPerBlock
      ensures !done ==> FullBetween(used, lo, hi)
    {
      done, block, page := false, 0, 0;
      var b := lo;
      while b < hi && !done
        invariant lo <= b && (b <= hi || b == lo)
        invariant !done ==> FullBetween(used, lo, b)
        invariant done ==> FirstFree(used, lo, block, page) && block < hi && page < g.pagesPerBlock
      {
        var p := 0;
        while p < g.pagesPerBlock && !done
          invariant 0 <= p <= g.pagesPerBlock
          invariant !done ==> forall q :: 0 <= q < p ==> used[b][q]
          invariant done ==> FirstFree(used, lo, block, page) && block < hi && page < g.pagesPerBlock
          decreases g.pagesPerBlock - p, !done
        {
          if !used[b][p] {
            block, page, done := b, p, true;
          }
          p := p + 1;
        }
        b := b + 1;
      }
    }

    // A page to write: from the write pointer to the end, then from the beginning.
    method ChoosePage() returns (done: bool, block: nat, page: nat)
      requires g.Valid() && Named(g, pointer) && Shaped(g, used)
      ensures g.BlockSize() > 0
      ensures done ==> Chosen(used, StartBlock(g, pointer), g.BlockSize(), block, page) && InModule(g, block, page)
      ensures !done ==> NothingFound(used, StartBlock(g, pointer), g.BlockSize())
    {
      StartInRange(g, pointer);
      var start := StartBlock(g, pointer);
      done, block, page := FindFree(start, g.Blocks());
      if !done {
        done, block, page := FindFree(0, start / g.BlockSize());
      }
    }

    // Give up the page of a virtual address that is written again.
    method WriteUsedHandler(v: nat)
      requires TablesFit() && v in addressMap && v == currentTransaction.address
      modifies this`used, this`givenUp
      ensures TablesFit() && givenUp && used == Released(g, old(used), addressMap, v)
    {
      hide Released, IsPage;
      var b: nat, p: nat := PageOf(v);
      ReleasedIs(g, used, addressMap, v, b, p);
      GiveUp(g, used, addressMap, Hole(), v, b, p);
      used := Set(used, b, p, false);
      givenUp := true;
    }

    // Where the table of used pages has the page of a virtual address.
    method PageOf(v: nat) returns (b: nat, p: nat)
      requires TablesFit() && v in addressMap
      ensures InModule(g, b, p) && addressMap[v] == PageAddress(g, b, p)
    {
      ghost var address := addressMap[v];
      ghost var block: nat, page: nat :| InModule(g, block, page) && address == PageAddress(g, block, page);
      PageOfAddress(g, block, page);
      b, p := addressMap[v] / g.BlockSize(), (addressMap[v] / g.pageSize) % g.pagesPerBlock;
    }

    // Search until a page is found or the deadlock time has passed.
    method SearchPage() returns (done: bool, block: nat, page: nat)
      requires g.Valid() && Named(g, pointer) && Shaped(g, used) && deadlockCounter < deadlockTime
      modifies this`deadlockCounter
      ensures g.BlockSize() > 0
      ensures done ==> Chosen(used, StartBlock(g, pointer), g.BlockSize(), block, page) && InModule(g, block, page)
      ensures done ==> deadlockCounter < deadlockTime
      ensures !done ==> NothingFound(used, StartBlock(g, pointer), g.BlockSize())
    {
      done, block, page := ChoosePage();
      while !done
        invariant g.BlockSize() > 0 && deadlockCounter < deadlockTime
        invariant done ==> Chosen(used, StartBlock(g, pointer), g.BlockSize(), block, page) && InModule(g, block, page)
        invariant !done ==> NothingFound(used, StartBlock(g, pointer), g.BlockSize())
        decreases deadlockTime - deadlockCounter
      {
        deadlockCounter := deadlockCounter + 1;
        if deadlockCounter == deadlockTime {
          return;
        }
        done, block, page := ChoosePage();
      }
      deadlockCounter := 0;
    }

    // A page takes the content of its virtual address, and the pointer moves on.
    method TakePage(block: nat, page: nat, v: nat, ghost content: Content)
      requires TablesFit() && Hole() == (if v in addressMap then Some(v) else None)
      requires InModule(g, block, page) && Shaped(g, used) && !used[block][page]
      modifies this`used, this`addressMap, this`pointer, this`stored, this`givenUp
      ensures TablesFit() && !givenUp
      ensures Latest() == old(Latest())[v := content]
      ensures addressMap == old(addressMap)[v := PageAddress(g, block, page)]
      ensures pointer == NextPointer(g, old(pointer)) && used == Set(old(used), block, page, true)
    {
      var pAddr := PageAddress(g, block, page);
      Take(g, used, addressMap, Hole(), v, block, page);
      WriteIsSeen(g, used, addressMap, Hole(), stored, v, block, page, content);
      NextTurn(g, pointer);
      used := Set(used, block, page, true);
      addressMap := addressMap[v := pAddr];
      pointer := NextPointer(g, pointer);
      stored := stored[pAddr := content];
      givenUp := false;
    }

    // The current transaction is done.
    method PopFront()
      requires readQueue != [] && readQueue[0] == currentTransaction
      modifies this`readQueue, this`busy, this`served
      ensures !busy && readQueue == old(readQueue)[1..] && served == old(served) + [currentTransaction]
    {
      readQueue := readQueue[1..];
      busy := false;
      served := served + [currentTransaction];
    }

    // The page that the current write will go to.
    method PickPage() returns (done: bool, block: nat, page: nat)
      requires TablesFit() && QueueFits() && busy && currentTransaction.kind == DATA_WRITE
      modifies this`used, this`givenUp, this`deadlockCounter
      ensures TablesFit() && g.BlockSize() > 0
      ensures givenUp == (currentTransaction.address in addressMap)
      ensures used == Released(g, old(used), addressMap, currentTransaction.address)
      ensures done ==> Chosen(used, StartBlock(g, pointer), g.BlockSize(), block, page) && InModule(g, block, page)
      ensures done ==> !used[block][page] && deadlockCounter < deadlockTime
      ensures !done ==> NothingFound(used, StartBlock(g, pointer), g.BlockSize())
    {
      hide NothingFound, Set, StartBlock, Contents, Exact;
      if currentTransaction.address in addressMap {
        WriteUsedHandler(currentTransaction.address);
      }
      ExactIsShaped(g, used, addressMap, Hole());
      done, block, page := SearchPage();
    }

    // The write takes its page and leaves the queue.
    method CompleteWrite(block: nat, page: nat)
      requires TablesFit() && QueueFits() && Agrees(Latest(), served)
      requires busy && currentTransaction.kind == DATA_WRITE && givenUp == (currentTransaction.address in addressMap)
      requires InModule(g, block, page) && Shaped(g, used) && !used[block][page]
      modifies this`used, this`addressMap, this`pointer, this`stored, this`givenUp, this`readQueue, this`busy, this`served
      ensures Valid() && !busy
      ensures readQueue == old(readQueue)[1..] && served == old(served) + [currentTransaction]
      ensures Latest() == old(Latest())[currentTransaction.address := Written(currentTransaction.data)]
      ensures addressMap == old(addressMap)[currentTransaction.address := PageAddress(g, block, page)]
      ensures pointer == NextPointer(g, old(pointer)) && used == Set(old(used), block, page, true)
    {
      hide Agrees, Contents, Exact, NextPointer, PageAddress;
      AgreesAfterWrite(Latest(), served, currentTransaction);
      TakePage(block, page, currentTransaction.address, Written(currentTransaction.data));
      PopFront();
    }

    // The packets of the current write and what becomes of the queue, by whether the
    // controller has room.
    ghost predicate WriteServed(packets: seq<Packet>, t: Transaction, queue: seq<Transaction>, before: seq<Transaction>,
                                latest: map<nat, Content>, table: Used, at: Pointer)
      requires TablesFit() && g.BlockSize() > 0
      reads this
    {
      && !busy && queue != [] && readQueue == queue[1..] && served == before + [t]
      && Latest() == latest[t.address := Written(t.data)]
      && pointer == NextPointer(g, at)
      && IsWriteTo(g, packets, t.address, table, at)
    }

    ghost predicate WriteWaits(packets: seq<Packet>, t: Transaction, queue: seq<Transaction>, before: seq<Transaction>,
                               latest: map<nat, Content>, at: Pointer)
      requires TablesFit()
      reads this
    {
      && busy && writeQueuesFull && currentTransaction == t && readQueue == queue && served == before
      && Latest() == latest
      && pointer == at && packets == []
    }

    // A write goes to a free page, at once if the controller has room for its two packets
    // and otherwise later; without a free page in sight the simulation ends.
    method HandleWrite(room: bool) returns (out: Result<seq<Packet>, Failure>)
      requires Valid() && busy && currentTransaction.kind == DATA_WRITE
      modifies this
      ensures g.BlockSize() > 0
      ensures out.Halt? ==> out == Halt(Deadlocked)
      ensures out.Halt? <==> NothingFound(Released(g, old(used), old(addressMap), old(currentTransaction.address)),
                                          StartBlock(g, old(pointer)), g.BlockSize())
      ensures out.Ok? ==> Valid()
      ensures out.Ok? && !room ==>
        WriteWaits(out.value, old(currentTransaction), old(readQueue), old(served), old(Latest()), old(pointer))
      ensures out.Ok? && room ==>
        && WriteServed(out.value, old(currentTransaction), old(readQueue), old(served), old(Latest()),
                       Released(g, old(used), old(addressMap), old(currentTransaction.address)), old(pointer))
        && Rewritten(g, Tables(old(used), old(addressMap), old(pointer)), old(currentTransaction.address),
                     Tables(used, addressMap, pointer))
    {
      hide Chosen, NothingFound, Agrees, Translate, Set, StartBlock, NextPointer, Contents, Exact, Released, Rewritten;
      ExactIsShaped(g, used, addressMap, Hole());
      var v := currentTransaction.address;
      var done, block, page := PickPage();
      if !done {
        return Halt(Deadlocked);
      }
      ChoiceIsUnique(used, StartBlock(g, pointer), g.BlockSize(), block, page, block, page);
      ExactIsShaped(g, used, addressMap, Hole());
      var pAddr := PageAddress(g, block, page);
      PageOfAddress(g, block, page);
      TranslateSucceeds(g, pAddr);
      var location := Translate(g, pAddr).value;
      if !room {
        writeQueuesFull := true;
        return Ok([]);
      }
      ghost var table := used;
      CompleteWrite(block, page);
      RewrittenTo(g, Tables(old(used), old(addressMap), old(pointer)), v, Tables(used, addressMap, pointer), table, block, page);
      return Ok([Packet(DATA, v, pAddr, location), Packet(WRITE, v, pAddr, location)]);
    }

    // The read of a mapped address is sent to its page if the controller has room.
    ghost predicate ReadServed(packets: seq<Packet>, room: bool, t: Transaction, queue: seq<Transaction>,
                               before: seq<Transaction>)
      requires TablesFit()
      reads this
    {
      if !room then
        && packets == [] && busy && writeQueuesFull && currentTransaction == t
        && readQueue == queue && served == before
      else
        && !busy && queue != [] && readQueue == queue[1..] && served == before + [t]
        && |packets| == 1 && packets[0].kind == READ && packets[0].vAddr == t.address
        && t.address in addressMap && packets[0].pAddr == addressMap[t.address]
        && packets[0].pAddr in stored && Latest()[t.address] == stored[packets[0].pAddr]
        && Translate(g, packets[0].pAddr) == Ok(packets[0].location)
    }

    lemma QueueKept(t: Transaction, queue: seq<Transaction>, before: seq<Transaction>)
      requires queue != [] && queue[0] == t
      requires (readQueue == queue && served == before) || (readQueue == queue[1..] && served == before + [t])
      ensures served + readQueue == before + queue
    {
      assert queue == [t] + queue[1..];
    }

    // Send the read of a mapped address.
    method ReadMapped(room: bool) returns (packets: seq<Packet>)
      requires Valid() && busy && currentTransaction.kind == DATA_READ && currentTransaction.address in addressMap
      modifies this`readQueue, this`busy, this`served, this`writeQueuesFull
      ensures Valid()
      ensures ReadServed(packets, room, currentTransaction, old(readQueue), old(served))
    {
      hide Agrees, Exact, Contents, PageAddress;
      var v := currentTransaction.address;
      MappedAddress(g, used, addressMap, Hole(), v);
      TranslateSucceeds(g, addressMap[v]);
      LatestIs(v);
      if room {
        AgreesAfterRead(Latest(), served, currentTransaction);
        packets := [Packet(READ, v, addressMap[v], Translate(g, addressMap[v]).value)];
        PopFront();
      } else {
        packets := [];
        writeQueuesFull := true;
      }
    }

    // The page of an address that has been written holds the data of its last write.
    lemma LastWriteIsStored(v: nat)
      requires Valid() && v in Replay(served)
      ensures v in addressMap && addressMap[v] in stored
      ensures stored[addressMap[v]] == Written(Replay(served)[v])
    {
      hide Exact, Replay;
    }

    lemma LatestIs(v: nat)
      requires TablesFit() && v in addressMap
      ensures addressMap[v] in stored && Latest()[v] == stored[addressMap[v]]
    {
    }

    // The first read of an address that was on disk: its page is written at once, and then
    // read like any other.
    method HandleDiskRead(room: bool) returns (out: Result<seq<Packet>, Failure>)
      requires Valid() && busy && currentTransaction.kind == DATA_READ && currentTransaction.address !in addressMap
      modifies this
      ensures g.BlockSize() > 0
      ensures out.Halt? ==> out == Halt(Deadlocked)
      ensures out.Halt? <==>
        && NothingFound(old(used), StartBlock(g, old(pointer)), g.BlockSize())
        && old(deadlockCounter) + 1 == deadlockTime
      ensures out.Ok? ==> Valid()
      ensures out.Ok? && NothingFound(old(used), StartBlock(g, old(pointer)), g.BlockSize()) ==>
        out == Ok([]) && busy && Latest() == old(Latest()) && deadlockCounter == old(deadlockCounter) + 1
        && readQueue == old(readQueue) && served == old(served) && pointer == old(pointer)
      ensures out.Ok? && !NothingFound(old(used), StartBlock(g, old(pointer)), g.BlockSize()) ==>
        && Latest() == old(Latest())[old(currentTransaction.address) := FromDisk]
        && pointer == NextPointer(g, old(pointer))
        && |out.value| >= 1 && IsFastWrite(g, out.value[0], old(currentTransaction.address), old(used), old(pointer))
        && old(currentTransaction.address) in addressMap && addressMap[old(currentTransaction.address)] == out.value[0].pAddr
        && ReadServed(out.value[1..], room, old(currentTransaction), old(readQueue), old(served))
    {
      hide Chosen, NothingFound, Agrees, Translate, Set, StartBlock, NextPointer, Contents, Exact;
      var v := currentTransaction.address;
      ExactIsShaped(g, used, addressMap, Hole());
      var done, block, page := ChoosePage();
      if !done {
        deadlockCounter := deadlockCounter + 1;
        return if deadlockCounter == deadlockTime then Halt(Deadlocked) else Ok([]);
      }
      ChoiceIsUnique(used, StartBlock(g, pointer), g.BlockSize(), block, page, block, page);
      ChosenIsFree(used, StartBlock(g, pointer), g.BlockSize(), block, page);
      deadlockCounter := 0;
      PageOfAddress(g, block, page);
      TranslateSucceeds(g, PageAddress(g, block, page));
      var fast := Packet(FAST_WRITE, v, PageAddress(g, block, page), Translate(g, PageAddress(g, block, page)).value);
      AgreesAfterDiskRead(Latest(), served, v);
      TakePage(block, page, v, FromDisk);
      var packets := ReadMapped(room);
      assert ([fast] + packets)[1..] == packets;
      return Ok([fast] + packets);
    }

    // A read of an address never written is answered at once, or brought in from disk.
    method HandleRead(room: bool) returns (out: Result<seq<Packet>, Failure>)
      requires Valid() && busy && currentTransaction.kind == DATA_READ
      modifies this
      ensures out.Ok? ==> Valid()
      ensures out.Halt? ==> out == Halt(Deadlocked) && diskRead && old(currentTransaction.address) !in old(addressMap)
      ensures out.Ok? ==> served + readQueue == old(served) + old(readQueue)
      ensures out.Ok? ==> Latest() == old(Latest()) || Latest() == old(Latest())[old(currentTransaction.address) := FromDisk]
      ensures old(currentTransaction.address) in old(addressMap) ==>
        && out.Ok? && ReadServed(out.value, room, old(currentTransaction), old(readQueue), old(served))
        && Latest() == old(Latest()) && pointer == old(pointer)
      ensures !diskRead && old(currentTransaction.address) !in old(addressMap) ==>
        && out == Ok([Unmapped(old(currentTransaction.address))])
        && !busy && readQueue == old(readQueue)[1..] && served == old(served) + [old(currentTransaction)]
        && Latest() == old(Latest()) && pointer == old(pointer)
    {
      hide Agrees, Exact, Contents, NothingFound, Translate, NextPointer;
      if currentTransaction.address in addressMap {
        var packets := ReadMapped(room);
        QueueKept(currentTransaction, old(readQueue), old(served));
        return Ok(packets);
      }
      if diskRead {
        out := HandleDiskRead(room);
        if out.Ok? {
          QueueKept(old(currentTransaction), old(readQueue), old(served));
        }
        return;
      }
      AgreesAfterRead(Latest(), served, currentTransaction);
      out := Ok([Unmapped(currentTransaction.address)]);
      PopFront();
      QueueKept(currentTransaction, old(readQueue), old(served));
    }

    // One cycle: serve the current transaction once it has been looked up, or start the next.
    method Update(room: bool) returns (out: Result<seq<Packet>, Failure>)
      requires Valid()
      modifies this
      ensures out.Ok? ==> Valid()
      ensures out.Ok? ==> served + readQueue == old(served) + old(readQueue)
      ensures out.Halt? ==> out == Halt(Deadlocked)
    {
      hide Agrees, Exact, Contents, NothingFound, Translate, NextPointer, Released;
      if busy {
        if lookupCounter == 0 && !writeQueuesFull {
          if currentTransaction.kind == DATA_READ {
            out := HandleRead(room);
          } else {
            out := HandleWrite(room);
            if out.Ok? {
              QueueKept(old(currentTransaction), old(readQueue), old(served));
            }
          }
          return;
        } else if lookupCounter > 0 {
          lookupCounter := lookupCounter - 1;
        }
      } else if readQueue != [] {
        busy := true;
        currentTransaction := readQueue[0];
        lookupCounter := lookupCycles;
      }
      return Ok([]);
    }

    // The controller has room again.
    method QueuesNotFull()
      requires Valid()
      modifies this`writeQueuesFull
      ensures Valid() && !writeQueuesFull
    {
      hide Exact, Agrees, IsPage, Contents, Shaped;
      writeQueuesFull := false;
    }
  }

  lemma ExactIsShaped(g: Geometry, used: Used, m: map<nat, nat>, hole: Option<nat>)
    requires Exact(g, used, m, hole)
    ensures Shaped(g, used) && forall u :: u in m ==> IsPage(g, m[u])
  {
  }

  lemma MappedAddress(g: Geometry, used: Used, m: map<nat, nat>, hole: Option<nat>, v: nat)
    requires g.Valid() && Exact(g, used, m, hole) && v in m
    ensures m[v] < g.TotalSize()
  {
    assert IsPage(g, m[v]);
    var b: nat, p: nat :| InModule(g, b, p) && m[v] == PageAddress(g, b, p);
    PageOfAddress(g, b, p);
  }

  lemma ChosenIsFree(used: Used, start: nat, blockSize: nat, b: nat, p: nat)
    requires blockSize > 0 && Chosen(used, start, blockSize, b, p)
    ensures b < |used| && p < |used[b]| && !used[b][p]
  {
  }

  lemma TranslateSucceeds(g: Geometry, address: nat)
    requires address < g.TotalSize()
    ensures Translate(g, address).Ok?
  {
  }

  datatype Tables = Tables(used: Used, addressMap: map<nat, nat>, pointer: Pointer)

  // A write of virtual address v takes the tables from x to y.
  ghost predicate Rewritten(g: Geometry, x: Tables, v: nat, y: Tables) {
    && g.Valid() && g.BlockSize() > 0 && Shaped(g, x.used) && (forall u :: u in x.addressMap ==> IsPage(g, x.addressMap[u]))
    && var table := Released(g, x.used, x.addressMap, v);
       exists b: nat, p: nat ::
         && Chosen(table, StartBlock(g, x.pointer), g.BlockSize(), b, p) && b < |table| && p < |table[b]|
         && y == Tables(Set(table, b, p, true), x.addressMap[v := PageAddress(g, b, p)], NextPointer(g, x.pointer))
  }

  // The table of used pages with the page of a virtual address given up.
  ghost function Released(g: Geometry, used: Used, m: map<nat, nat>, v: nat): Used
    requires Shaped(g, used) && forall u :: u in m ==> IsPage(g, m[u])
  {
    if v in m then
      assert IsPage(g, m[v]);
      var b: nat, p: nat :| InModule(g, b, p) && m[v] == PageAddress(g, b, p);
      Set(used, b, p, false)
    else used
  }

  lemma ReleasedIs(g: Geometry, used: Used, m: map<nat, nat>, v: nat, b: nat, p: nat)
    requires g.Valid() && Shaped(g, used) && (forall u :: u in m ==> IsPage(g, m[u]))
    requires v in m && InModule(g, b, p) && m[v] == PageAddress(g, b, p)
    ensures Released(g, used, m, v) == Set(used, b, p, false)
  {
    var c: nat, q: nat :| InModule(g, c, q) && m[v] == PageAddress(g, c, q)
      && Released(g, used, m, v) == Set(used, c, q, false);
    PagesDiffer(g, b, p, c, q);
  }

  ghost predicate IsFastWrite(g: Geometry, packet: Packet, v: nat, used: Used, at: Pointer)
    requires g.Valid() && g.BlockSize() > 0
  {
    && packet.kind == FAST_WRITE && packet.vAddr == v && Translate(g, packet.pAddr) == Ok(packet.location)
    && exists b, p :: Chosen(used, StartBlock(g, at), g.BlockSize(), b, p) && packet.pAddr == PageAddress(g, b, p)
  }

  // Data and command for one page: the one chosen.
  ghost predicate IsWriteTo(g: Geometry, packets: seq<Packet>, v: nat, used: Used, at: Pointer)
    requires g.Valid() && g.BlockSize() > 0
  {
    && |packets| == 2
    && packets[0] == packets[1].(kind := DATA) && packets[1].kind == WRITE && packets[1].vAddr == v
    && Translate(g, packets[1].pAddr) == Ok(packets[1].location)
    && exists b, p :: Chosen(used, StartBlock(g, at), g.BlockSize(), b, p) && packets[1].pAddr == PageAddress(g, b, p)
  }

  lemma RewrittenTo(g: Geometry, x: Tables, v: nat, y: Tables, table: Used, b: nat, p: nat)
    requires g.Valid() && g.BlockSize() > 0 && Shaped(g, x.used)
    requires forall u :: u in x.addressMap ==> IsPage(g, x.addressMap[u])
    requires table == Released(g, x.used, x.addressMap, v) && b < |table| && p < |table[b]|
    requires Chosen(table, StartBlock(g, x.pointer), g.BlockSize(), b, p)
    requires y == Tables(Set(table, b, p, true), x.addressMap[v := PageAddress(g, b, p)], NextPointer(g, x.pointer))
    ensures Rewritten(g, x, v, y)
  {
    hide Chosen, Released, Set, PageAddress, NextPointer, StartBlock;
  }

  // Two planes of one block with one page each.
  const TWO_PAGES := Geometry(4, 1, 1, 2, 1, 1)

  lemma PageIs(g: Geometry, b: nat, p: nat)
    requires InModule(g, b, p)
    ensures IsPage(g, PageAddress(g, b, p))
  {
    hide PageAddress;
  }

  lemma TwoSizes(g: Geometry)
    requires g == TWO_PAGES
    ensures g.Valid() && g.Blocks() == 2 && g.BlockSize() == 4 && g.pagesPerBlock == 1
  {
    assert g.pageSize == 4 && g.pagesPerBlock == 1 && g.blocksPerPlane == 1;
    assert g.planesPerDie == 2 && g.diesPerPackage == 1 && g.numPackages == 1;
    assert g.Planes() == 2 * (1 * 1) && g.Blocks() == 1 * 2 && g.BlockSize() == 4 * 1;
  }

  lemma TwoPages(g: Geometry)
    requires g.Blocks() == 2 && g.BlockSize() == 4 && g.pagesPerBlock == 1
    ensures PageAddress(g, 0, 0) == 0 && PageAddress(g, 1, 0) == 4 && IsPage(g, 0) && IsPage(g, 4)
    ensures InModule(g, 0, 0) && InModule(g, 1, 0)
  {
    hide IsPage;
    assert 0 * g.pageSize == 0;
    PageIs(g, 0, 0);
    PageIs(g, 1, 0);
  }

  lemma TwoPointers(g: Geometry)
    requires g == TWO_PAGES
    ensures g.Valid()
    ensures StartBlock(g, Pointer(0, 0, 0)) == 0 && StartBlock(g, Pointer(0, 0, 1)) == 1
    ensures NextPointer(g, Pointer(0, 0, 0)) == Pointer(0, 0, 1) && NextPointer(g, Pointer(0, 0, 1)) == Pointer(0, 0, 0)
  {
    assert g.pageSize == 4 && g.pagesPerBlock == 1 && g.blocksPerPlane == 1;
    assert g.planesPerDie == 2 && g.diesPerPackage == 1 && g.numPackages == 1;
    assert 1 % 1 == 0 && 1 % 2 == 1 && 2 % 2 == 0;
    assert PlaneIndex(g, Pointer(0, 0, 0)) == 0 + 2 * (0 + 1 * 0) && PlaneIndex(g, Pointer(0, 0, 1)) == 1 + 2 * (0 + 1 * 0);
    assert StartBlock(g, Pointer(0, 0, 0)) == 1 * 0 && StartBlock(g, Pointer(0, 0, 1)) == 1 * 1;
  }

  lemma TwoPageSets()
    ensures Set([[false], [false]], 0, 0, true) == [[true], [false]] && Set([[true], [false]], 1, 0, true) == [[true], [true]]
    ensures Set([[true], [true]], 0, 0, false) == [[false], [true]] && Set([[false], [true]], 0, 0, true) == [[true], [true]]
  {
    assert [false][0 := true] == [true] && [true][0 := false] == [false];
  }

  lemma TwoPageChoices()
    ensures Chosen([[false], [false]], 0, 4, 0, 0) && Chosen([[true], [false]], 1, 4, 1, 0)
    ensures Chosen([[false], [true]], 0, 4, 0, 0) && NothingFound([[false], [true]], 1, 4)
  {
    var x: Used, y: Used, z: Used := [[false], [false]], [[true], [false]], [[false], [true]];
    assert !x[0][0] && !y[1][0] && !z[0][0];
  }

  // From empty tables, writes of two addresses and a rewrite of the first leave the write
  // pointer on the second plane; the next rewrite of the first gives up its page and then
  // finds nothing, with that very page free.
  lemma FourthWriteGivesUp(g: Geometry, v: nat, w: nat)
    requires g == TWO_PAGES && v != w
    ensures var t0 := Tables([[false], [false]], map[], Pointer(0, 0, 0));
      var t1 := Tables([[true], [false]], map[v := 0], Pointer(0, 0, 1));
      var t2 := Tables([[true], [true]], map[v := 0, w := 4], Pointer(0, 0, 0));
      var t3 := Tables([[true], [true]], map[v := 0, w := 4], Pointer(0, 0, 1));
      && Rewritten(g, t0, v, t1) && Rewritten(g, t1, w, t2) && Rewritten(g, t2, v, t3)
      && g.BlockSize() > 0 && Shaped(g, t3.used) && (forall u :: u in t3.addressMap ==> IsPage(g, t3.addressMap[u]))
      && Released(g, t3.used, t3.addressMap, v) == [[false], [true]]
      && NothingFound([[false], [true]], StartBlock(g, t3.pointer), g.BlockSize())
  {
    hide Chosen, NothingFound, NextPointer, StartBlock, PageAddress, Rewritten, IsPage, Released, Set;
    var t0 := Tables([[false], [false]], map[], Pointer(0, 0, 0));
    var t1 := Tables([[true], [false]], map[v := 0], Pointer(0, 0, 1));
    var t2 := Tables([[true], [true]], map[v := 0, w := 4], Pointer(0, 0, 0));
    var t3 := Tables([[true], [true]], map[v := 0, w := 4], Pointer(0, 0, 1));
    TwoSizes(g);
    TwoPages(g);
    TwoPointers(g);
    TwoPageChoices();
    TwoPageSets();
    NotReleased(g, t0, v);
    NotReleased(g, t1, w);
    ReleasedIs(g, t2.used, t2.addressMap, v, 0, 0);
    ReleasedIs(g, t3.used, t3.addressMap, v, 0, 0);
    RewrittenTo(g, t0, v, t1, t0.used, 0, 0);
    RewrittenTo(g, t1, w, t2, t1.used, 1, 0);
    RewrittenTo(g, t2, v, t3, [[false], [true]], 0, 0);
  }

  lemma NotReleased(g: Geometry, x: Tables, v: nat)
    requires Shaped(g, x.used) && (forall u :: u in x.addressMap ==> IsPage(g, x.addressMap[u])) && v !in x.addressMap
    ensures Released(g, x.used, x.addressMap, v) == x.used
  {
  }
}
