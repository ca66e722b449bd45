// The controller's table holds nothing back in vain: a command that a bank's entry does not
// admit yet is within the device's delay after a command that was really issued.
module HeldBack {
  import opened Wrappers
  import opened SystemConfiguration
  import opened BankState
  import opened Scheduler
  import opened QueueInvariant
  import opened SchedulerSafety
  import opened Channel
  import opened TimingSafety
  import opened ReadPipeline
  import opened Conservation
  import opened ChannelSafety
  import opened OneCycle
  import opened Runs

  // What a bank can be asked for; a refresh asks all banks of its rank as an activate does.
  datatype Wish = ToRead | ToWrite | ToActivate | ToPrecharge | ToBeIdle

  // Cycles for which the device lets command p keep bank (r, b) from it.
  function DeviceDelay(c: Config, p: BusPacket, r: nat, b: nat, wish: Wish): int {
    var rank, bank := p.rank == r, p.rank == r && p.bank == b;
    match wish
    case ToRead =>
      if p.IsRead() then if rank then Max(c.tCCD, c.BL / 2) else c.BL / 2 + c.tRTRS
      else if p.IsWrite() then if rank then c.CL + c.AL - 1 + c.BL / 2 + c.tWTR else c.BL / 2 + c.tRTRS - 1
      else if p.kind == ACTIVATE && bank then c.tRCD - c.AL else 0
    case ToWrite =>
      if p.IsRead() then c.BL / 2 + c.tRTRS + 1
      else if p.IsWrite() then if rank then Max(c.tCCD, c.BL / 2) else c.BL / 2 + c.tRTRS
      else if p.kind == ACTIVATE && bank then c.tRCD - c.AL else 0
    case ToActivate =>
      if !rank then 0
      else
        (match p.kind
         case ACTIVATE => if bank then c.tRC else c.tRRD
         case PRECHARGE => if bank then c.tRP else 0
         case READ_P => if bank then c.AL + c.tRTP + c.tRP else 0
         case WRITE_P => if bank then c.CL + c.AL - 1 + c.BL / 2 + c.tWR + c.tRP else 0
         case REFRESH => c.tRFC
         case _ => 0)
    case ToPrecharge =>
      if !bank then 0
      else
        (match p.kind
         case ACTIVATE => c.tRAS
         case READ => c.AL + c.BL / 2 + Max(c.tRTP, c.tCCD) - c.tCCD
         case WRITE => c.CL + c.AL - 1 + c.BL / 2 + c.tWR
         case _ => 0)
    case ToBeIdle =>
      if bank && p.kind == PRECHARGE then c.tRP
      else if bank && p.kind == READ_P then c.AL + c.BL / 2 + Max(c.tRTP, c.tCCD) - c.tCCD + c.tRP
      else if bank && p.kind == WRITE_P then c.CL + c.AL - 1 + c.BL / 2 + c.tWR + c.tRP
      else if rank && p.kind == REFRESH then c.tRFC else 0
  }

  // In cycle t bank (r, b) is still within the delay of some command.
  ghost predicate IsHeld(c: Config, issued: seq<Option<BusPacket>>, t: int, r: nat, b: nat, wish: Wish) {
    exists i :: 0 <= i < |issued| && issued[i].Some? && t < i + DeviceDelay(c, issued[i].value, r, b, wish)
  }

  // A time in the table is no later than some command asks for.
  ghost predicate Backed(c: Config, issued: seq<Option<BusPacket>>, r: nat, b: nat, wish: Wish, x: int) {
    x <= 0 || IsHeld(c, issued, x - 1, r, b, wish)
  }

  // The cycle in which a bank that is closing or refreshed is idle again; t is the cycle
  // whose aging step comes next.
  function IdleFrom(c: Config, t: int, m: Bank): int {
    if m.state == Precharging || m.state == Refreshing then t - 1 + m.countdown
    else if AutoPrecharging(m) then t - 1 + m.countdown + c.tRP
    else 0
  }

  // Nobody sleeps. The times of an entry; those of the columns of a row that is not open wait for the next
  // activate.
  ghost predicate Needed(c: Config, issued: seq<Option<BusPacket>>, t: int, r: nat, b: nat, m: Bank) {
    && m.state != PowerDown && Backed(c, issued, r, b, ToBeIdle, IdleFrom(c, t, m))
    && Backed(c, issued, r, b, ToActivate, m.nextActivate)
    && Backed(c, issued, r, b, ToPrecharge, m.nextPrecharge)
    && (Backed(c, issued, r, b, ToRead, m.nextRead) || (!Open(m) && m.nextRead <= m.nextActivate))
    && (Backed(c, issued, r, b, ToWrite, m.nextWrite) || (!Open(m) && m.nextWrite <= m.nextActivate))
  }

  lemma StillBacked(c: Config, issued: seq<Option<BusPacket>>, x: Option<BusPacket>, r: nat, b: nat, wish: Wish, v: int)
    requires Backed(c, issued, r, b, wish, v)
    ensures Backed(c, issued + [x], r, b, wish, v)
  {
    hide DeviceDelay;
    if v > 0 {
      var i :| 0 <= i < |issued| && issued[i].Some? && v - 1 < i + DeviceDelay(c, issued[i].value, r, b, wish);
      assert (issued + [x])[i] == issued[i];
    }
  }

  lemma StillNeeded(c: Config, issued: seq<Option<BusPacket>>, x: Option<BusPacket>, t: int, r: nat, b: nat, m: Bank)
    requires Needed(c, issued, t, r, b, m)
    ensures Needed(c, issued + [x], t, r, b, m)
  {
    hide Backed;
    forall wish, v | Backed(c, issued, r, b, wish, v) ensures Backed(c, issued + [x], r, b, wish, v) {
      StillBacked(c, issued, x, r, b, wish, v);
    }
  }

  // The command just issued backs its own delays.
  lemma NewlyBacked(c: Config, issued: seq<Option<BusPacket>>, p: BusPacket, r: nat, b: nat, wish: Wish)
    ensures Backed(c, issued + [Some(p)], r, b, wish, |issued| + DeviceDelay(c, p, r, b, wish))
  {
    hide DeviceDelay;
    var more := issued + [Some(p)];
    assert more[|issued|] == Some(p);
    assert IsHeld(c, more, |issued| + DeviceDelay(c, p, r, b, wish) - 1, r, b, wish);
  }

  // The last command, of cycle t, backs all its delays.
  ghost predicate BacksAll(c: Config, issued: seq<Option<BusPacket>>, t: int, p: BusPacket, r: nat, b: nat) {
    && Backed(c, issued, r, b, ToRead, t + DeviceDelay(c, p, r, b, ToRead))
    && Backed(c, issued, r, b, ToWrite, t + DeviceDelay(c, p, r, b, ToWrite))
    && Backed(c, issued, r, b, ToActivate, t + DeviceDelay(c, p, r, b, ToActivate))
    && Backed(c, issued, r, b, ToPrecharge, t + DeviceDelay(c, p, r, b, ToPrecharge))
    && Backed(c, issued, r, b, ToBeIdle, t + DeviceDelay(c, p, r, b, ToBeIdle))
  }

  lemma ReadNeeded(c: Config, issued: seq<Option<BusPacket>>, t: int, p: BusPacket, r: nat, b: nat, m: Bank)
    requires c.Valid() && p.IsRead() && Needed(c, issued, t + 1, r, b, m) && BacksAll(c, issued, t, p, r, b)
    requires p.rank == r && p.bank == b ==> Open(m)
    ensures Needed(c, issued, t + 1, r, b, IssueRead(c, t, p, r, b, m))
  {
    hide Backed;
  }

  lemma WriteNeeded(c: Config, issued: seq<Option<BusPacket>>, t: int, p: BusPacket, r: nat, b: nat, m: Bank)
    requires c.Valid() && p.IsWrite() && Needed(c, issued, t + 1, r, b, m) && BacksAll(c, issued, t, p, r, b)
    requires p.rank == r && p.bank == b ==> Open(m)
    ensures Needed(c, issued, t + 1, r, b, IssueWrite(c, t, p, r, b, m))
  {
    hide Backed;
  }

  lemma OtherNeeded(c: Config, issued: seq<Option<BusPacket>>, t: int, p: BusPacket, r: nat, b: nat, row: seq<Bank>)
    requires c.Valid() && b < |row| && !p.IsColumn() && (p.rank == r ==> MayIssue(t, row, p))
    requires Needed(c, issued, t + 1, r, b, row[b]) && BacksAll(c, issued, t, p, r, b)
    ensures Needed(c, issued, t + 1, r, b, Issue(c, t, p, r, b, row[b]))
  {
    hide Backed, IssueRead, IssueWrite;
  }

  // One entry across a pop in cycle |issued|.
  lemma IssuedNeeded(c: Config, issued: seq<Option<BusPacket>>, p: BusPacket, r: nat, b: nat, row: seq<Bank>)
    requires c.Valid() && b < |row| && Needed(c, issued, |issued| + 1, r, b, row[b])
    requires p.rank == r ==> MayIssue(|issued|, row, p)
    ensures Needed(c, issued + [Some(p)], |issued| + 1, r, b, Issue(c, |issued|, p, r, b, row[b]))
  {
    StillNeeded(c, issued, Some(p), |issued| + 1, r, b, row[b]);
    NewlyBacked(c, issued, p, r, b, ToRead);
    NewlyBacked(c, issued, p, r, b, ToWrite);
    NewlyBacked(c, issued, p, r, b, ToActivate);
    NewlyBacked(c, issued, p, r, b, ToPrecharge);
    NewlyBacked(c, issued, p, r, b, ToBeIdle);
    hide Needed, Backed, DeviceDelay, IssueRead, IssueWrite;
    if p.IsRead() {
      ReadNeeded(c, issued + [Some(p)], |issued|, p, r, b, row[b]);
    } else if p.IsWrite() {
      WriteNeeded(c, issued + [Some(p)], |issued|, p, r, b, row[b]);
    } else {
      OtherNeeded(c, issued + [Some(p)], |issued|, p, r, b, row);
    }
  }

  // ---- Whole cycles ----

  ghost predicate TableNeeded(c: Config, issued: seq<Option<BusPacket>>, t: int, banks: BankTable) {
    forall r, b :: 0 <= r < |banks| && 0 <= b < |banks[r]| ==> Needed(c, issued, t, r, b, banks[r][b])
  }

  // Everything but the times is free to change, as long as no row opens and no bank is busy
  // for longer; aging moves from cycle t to t'.
  predicate SameTimes(c: Config, t: int, m: Bank, t': int, m': Bank) {
    && m'.nextRead == m.nextRead && m'.nextWrite == m.nextWrite && m'.nextActivate == m.nextActivate
    && m'.nextPrecharge == m.nextPrecharge && (Open(m') ==> Open(m))
    && (m'.state == PowerDown ==> m.state == PowerDown)
    && (IdleFrom(c, t', m') == IdleFrom(c, t, m) || IdleFrom(c, t', m') == 0)
  }

  lemma SameNeeded(c: Config, issued: seq<Option<BusPacket>>, t: int, banks: BankTable, t': int, banks': BankTable)
    requires TableNeeded(c, issued, t, banks) && |banks'| == |banks|
    requires forall r :: 0 <= r < |banks| ==> |banks'[r]| == |banks[r]|
    requires forall r, b :: 0 <= r < |banks| && 0 <= b < |banks[r]| ==> SameTimes(c, t, banks[r][b], t', banks'[r][b])
    ensures TableNeeded(c, issued, t', banks')
  {
    hide IsHeld, IdleFrom;
    forall r, b | 0 <= r < |banks'| && 0 <= b < |banks'[r]| ensures Needed(c, issued, t', r, b, banks'[r][b]) {
      assert Needed(c, issued, t, r, b, banks[r][b]) && SameTimes(c, t, banks[r][b], t', banks'[r][b]);
    }
  }

  lemma AgedTimes(c: Config, t: int, m: Bank)
    requires Consistent(t, m)
    ensures SameTimes(c, t, m, t + 1, Age(c, m))
  {
  }

  lemma AgedNeeded(c: Config, s: ChannelState)
    requires WellFormed(c, s) && Safe(c, s) && TableNeeded(c, s.mc.issued, s.clock, s.mc.banks)
    ensures TableNeeded(c, s.mc.issued, s.clock + 1, AgeAll(c, s.mc.banks))
  {
    hide Consistent, Reads, Matched, QueuesOK, Tracking, PowerFlags, TableNeeded, SameTimes, Age;
    forall r, b | 0 <= r < c.NumRanks() && 0 <= b < c.NumBanks()
      ensures SameTimes(c, s.clock, s.mc.banks[r][b], s.clock + 1, AgeAll(c, s.mc.banks)[r][b])
    {
      RowConsistent(c, s.clock, s.mc.banks, s.mc.queue, r);
      AgedTimes(c, s.clock, s.mc.banks[r][b]);
    }
    SameNeeded(c, s.mc.issued, s.clock, s.mc.banks, s.clock + 1, AgeAll(c, s.mc.banks));
  }

  lemma PoppedNeeded(c: Config, t: nat, banks: BankTable, q: QueueState, issued: seq<Option<BusPacket>>)
    requires c.Valid() && QueuesOK(c, t + 1, banks, q) && |issued| == t && TableNeeded(c, issued, t + 1, banks)
    ensures var p := PopSpec(c, t, banks, q).1;
      TableNeeded(c, issued + [p], t + 1, if p.Some? then IssueAll(c, t, p.value, banks) else banks)
  {
    PopIsSafe(c, t, banks, q);
    hide PopSpec, QueuesOK, Needed, Issue, MayIssue;
    var p := PopSpec(c, t, banks, q).1;
    var banks' := if p.Some? then IssueAll(c, t, p.value, banks) else banks;
    forall r, b | 0 <= r < |banks'| && 0 <= b < |banks'[r]| ensures Needed(c, issued + [p], t + 1, r, b, banks'[r][b]) {
      if p.Some? {
        IssuedNeeded(c, issued, p.value, r, b, banks[r]);
      } else {
        StillNeeded(c, issued, p, t + 1, r, b, banks[r][b]);
      }
    }
  }

  lemma AwakeNeeded(c: Config, t: int, issued: seq<Option<BusPacket>>, banks: BankTable, banks': BankTable)
    requires !c.useLowPower && PoweredTable(c, t, banks, banks') && TableNeeded(c, issued, t + 1, banks)
    ensures TableNeeded(c, issued, t + 1, banks')
  {
    hide Needed;
    forall r, b | 0 <= r < |banks'| && 0 <= b < |banks'[r]| ensures Needed(c, issued, t + 1, r, b, banks'[r][b]) {
      assert PoweredFrom(c, t, banks[r][b], banks'[r][b]);
    }
  }

  ghost predicate InTime(c: Config, s: ChannelState) {
    |s.mc.issued| == s.clock && TableNeeded(c, s.mc.issued, s.clock, s.mc.banks)
  }

  lemma UpdateKeepsInTime(c: Config, s: ChannelState)
    requires c.Valid() && !c.useLowPower && WellFormed(c, s) && Safe(c, s) && Update(c, s).Ok? && InTime(c, s)
    ensures InTime(c, Update(c, s).value)
  {
    hide Safe, Update, PopState, PopSpec, AgeAll, TableNeeded, AtDataBus, QueuesOK, IssueAll, PoweredTable, Expanded;
    CycleShape(c, s);
    PopStateIs(c, s);
    AgedNeeded(c, s);
    var s1 := PopState(c, s).value;
    QueuesAtPop(c, s1);
    PoppedNeeded(c, s.clock, s1.mc.banks, s1.mc.queue, s.mc.issued);
    var p := PopSpec(c, s.clock, s1.mc.banks, s1.mc.queue).1;
    AwakeNeeded(c, s.clock, s.mc.issued + [p], if p.Some? then IssueAll(c, s.clock, p.value, s1.mc.banks) else s1.mc.banks,
                Update(c, s).value.mc.banks);
  }

  lemma RequestsKeepInTime(c: Config, s: ChannelState, s': ChannelState)
    requires Requested(c, s, s') && InTime(c, s)
    ensures InTime(c, s')
  {
    hide TableNeeded, WellFormed;
  }

  lemma InitialInTime(c: Config)
    ensures InTime(c, Initial(c))
  {
  }

  // In every run without low-power mode, and at every time: a bank whose entry does not
  // admit an activate, a precharge or, its row being open, a column access yet, or that was
  // closing or being refreshed in the last cycle, is within the device's delay after some
  // command that was issued.
  lemma NothingIsHeldInVain(c: Config, requests: seq<seq<Transaction>>, t: nat, r: nat, b: nat)
    requires c.Valid() && !c.useLowPower && r < c.NumRanks() && b < c.NumBanks()
    ensures Run(c, Initial(c), requests).Ok? ==>
      var m := Run(c, Initial(c), requests).value.mc;
      && (m.banks[r][b].nextActivate > t ==> IsHeld(c, m.issued, t, r, b, ToActivate))
      && (m.banks[r][b].nextPrecharge > t ==> IsHeld(c, m.issued, t, r, b, ToPrecharge))
      && (Open(m.banks[r][b]) && m.banks[r][b].nextRead > t ==> IsHeld(c, m.issued, t, r, b, ToRead))
      && (Open(m.banks[r][b]) && m.banks[r][b].nextWrite > t ==> IsHeld(c, m.issued, t, r, b, ToWrite))
      && (|m.issued| > 0 && m.banks[r][b].state != Idle && !Open(m.banks[r][b]) ==>
            IsHeld(c, m.issued, |m.issued| - 1, r, b, ToBeIdle))
  {
    hide Safe, Run, Initial, Update, InTime, IsHeld;
    if Run(c, Initial(c), requests).Ok? {
      InitialInTime(c);
      var inv := (s: ChannelState) => InTime(c, s);
      forall s, s' | Requested(c, s, s') && inv(s) ensures inv(s') {
        RequestsKeepInTime(c, s, s');
      }
      forall s, s' | Cycle(c, s, s') && inv(s) ensures inv(s') {
        UpdateKeepsInTime(c, s);
      }
      RunKeeps(c, inv, requests);
      NoErrorExit(c, requests);
      TimesAreNeeded(c, Run(c, Initial(c), requests).value, t, r, b);
    }
  }

  lemma TimesAreNeeded(c: Config, s: ChannelState, t: nat, r: nat, b: nat)
    requires WellFormed(c, s) && Safe(c, s) && InTime(c, s) && !c.useLowPower && r < c.NumRanks() && b < c.NumBanks()
    ensures var m, k := s.mc, s.mc.banks[r][b];
      && (k.nextActivate > t ==> IsHeld(c, m.issued, t, r, b, ToActivate))
      && (k.nextPrecharge > t ==> IsHeld(c, m.issued, t, r, b, ToPrecharge))
      && (Open(k) && k.nextRead > t ==> IsHeld(c, m.issued, t, r, b, ToRead))
      && (Open(k) && k.nextWrite > t ==> IsHeld(c, m.issued, t, r, b, ToWrite))
      && (|m.issued| > 0 && k.state != Idle && !Open(k) ==> IsHeld(c, m.issued, |m.issued| - 1, r, b, ToBeIdle))
  {
    hide IsHeld, Reads, Matched, Tracking, PowerFlags, QueuesOK;
    var k := s.mc.banks[r][b];
    assert Needed(c, s.mc.issued, s.clock, r, b, k);
    EarlierHeld(c, s.mc.issued, k.nextActivate - 1, t, r, b, ToActivate);
    EarlierHeld(c, s.mc.issued, k.nextPrecharge - 1, t, r, b, ToPrecharge);
    EarlierHeld(c, s.mc.issued, k.nextRead - 1, t, r, b, ToRead);
    EarlierHeld(c, s.mc.issued, k.nextWrite - 1, t, r, b, ToWrite);
    EarlierHeld(c, s.mc.issued, IdleFrom(c, s.clock, k) - 1, s.clock - 1, r, b, ToBeIdle);
    RowConsistent(c, s.clock, s.mc.banks, s.mc.queue, r);
  }

  lemma EarlierHeld(c: Config, issued: seq<Option<BusPacket>>, x: int, t: int, r: nat, b: nat, wish: Wish)
    ensures IsHeld(c, issued, x, r, b, wish) && t <= x ==> IsHeld(c, issued, t, r, b, wish)
  {
    hide DeviceDelay;
  }
}
