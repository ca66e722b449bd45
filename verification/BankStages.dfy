// How far one bank still is from letting a refresh of its rank go: the stage it is in, and
// how many cycles that stage can last at the most.
module BankStages {
  import opened Wrappers
  import opened SystemConfiguration
  import opened BankState
  import opened QueueInvariant
  import opened OneCycle

  // No delay of the device is longer.
  function LongestDelay(c: Config): nat {
    c.CL + c.AL + c.BL + c.tRAS + c.tRCD + c.tRRD + c.tRC + c.tRP + c.tCCD + c.tRTP + c.tWTR + c.tWR + c.tRTRS
    + c.tRFC + c.tCKE + c.tXP + 1
  }

  // ---- What every entry of the controller's table keeps ----

  // Nothing lies farther ahead than the longest delay; with auto-precharge an open row has
  // just been opened; and only the low-power mode puts a bank to sleep.
  predicate Tidy(c: Config, t: int, m: Bank) {
    var late := t + LongestDelay(c);
    && m.nextRead <= late && m.nextWrite <= late && m.nextActivate <= late && m.nextPrecharge <= late
    && m.nextPowerUp <= late && m.countdown <= LongestDelay(c)
    && (c.policy == ClosePage && Open(m) ==> m.lastCommand == ACTIVATE)
    && (m.state == PowerDown ==> c.useLowPower)
  }

  lemma DelaysAreShort(c: Config)
    requires c.Valid()
    ensures var k := LongestDelay(c);
      && c.BL / 2 <= k && c.RL() <= k && c.WL() <= k && c.ReadToPre() <= k && c.WriteToPre() <= k
      && c.ReadToWrite() <= k && c.ReadAutoPre() <= k && c.WriteAutoPre() <= k && c.WriteToReadBank() <= k
      && c.WriteToReadRank() <= k && c.ColumnGap() <= k && c.BL / 2 + c.tRTRS <= k
  {
  }

  lemma AgedTidy(c: Config, t: int, m: Bank)
    requires Consistent(t, m) && Tidy(c, t, m)
    ensures Tidy(c, t, Age(c, m))
  {
  }

  lemma IssuedTidy(c: Config, t: int, p: BusPacket, r: nat, b: nat, m: Bank)
    requires c.Valid() && Tidy(c, t, m) && (p.IsColumn() ==> ColumnFor(c.policy, p.kind))
    ensures Tidy(c, t + 1, Issue(c, t, p, r, b, m))
  {
    if p.IsRead() {
      ReadTidy(c, t, p, r, b, m);
    } else if p.IsWrite() {
      WriteTidy(c, t, p, r, b, m);
    }
  }

  lemma ReadTidy(c: Config, t: int, p: BusPacket, r: nat, b: nat, m: Bank)
    requires c.Valid() && Tidy(c, t, m) && p.IsRead() && ColumnFor(c.policy, p.kind)
    ensures Tidy(c, t + 1, IssueRead(c, t, p, r, b, m))
  {
    DelaysAreShort(c);
    hide LongestDelay;
  }

  lemma WriteTidy(c: Config, t: int, p: BusPacket, r: nat, b: nat, m: Bank)
    requires c.Valid() && Tidy(c, t, m) && p.IsWrite() && ColumnFor(c.policy, p.kind)
    ensures Tidy(c, t + 1, IssueWrite(c, t, p, r, b, m))
  {
    DelaysAreShort(c);
    hide LongestDelay;
  }

  lemma PoweredTidy(c: Config, t: int, m: Bank, m': Bank)
    requires Tidy(c, t + 1, m) && PoweredFrom(c, t, m, m')
    ensures Tidy(c, t + 1, m')
  {
  }

  // ---- Stages ----

  // 3: an open row has a column access waiting; 2: the row can be closed or closes by
  // itself, or the bank is asleep; 1: closed or woken up too recently; 0: the refresh can go.
  function Stage(t: int, m: Bank, bare: bool): nat {
    if m.state == PowerDown then 2
    else if Open(m) then (if bare then 3 else 2)
    else if m.state == RowActive then 2
    else if m.nextActivate > t then 1 else 0
  }

  function Ahead(t: int, x: int): nat {
    if x > t then x - t else 0
  }

  // Cycles until the stage ends, unless another rank's column access comes in between.
  function Left(t: int, m: Bank, bare: bool): nat {
    if m.state == PowerDown then Ahead(t, m.nextPowerUp)
    else if Open(m) then (if bare then Ahead(t, Max(m.nextRead, m.nextWrite)) else Ahead(t, m.nextPrecharge))
    else if m.state == RowActive then m.countdown
    else Ahead(t, m.nextActivate)
  }

  lemma LeftIsShort(c: Config, t: int, m: Bank, bare: bool)
    requires Tidy(c, t, m)
    ensures Left(t, m, bare) <= LongestDelay(c)
  {
    hide LongestDelay;
  }

  // ---- One cycle of one bank of a rank that waits for its refresh ----

  // The command that may go to the bank: its own waiting column access, or a precharge of
  // its own open row; `bare'` is whether a column access waits afterwards.
  predicate Serves(c: Config, p: BusPacket, r: nat, b: nat, m: Bank, bare: bool, bare': bool) {
    if p.rank == r && p.bank == b then
      && Open(m) && !bare'
      && (p.kind == PRECHARGE || (p.IsColumn() && bare && ColumnFor(c.policy, p.kind)))
    else bare' == bare && (p.rank == r ==> p.kind == PRECHARGE || p.IsColumn())
  }

  // A sleeping bank of such a rank wakes up as soon as it may, and no bank falls asleep.
  function Woken(c: Config, t: int, m: Bank): Bank {
    if m.state == PowerDown && t >= m.nextPowerUp then m.(state := Idle, nextActivate := t + c.tXP) else m
  }

  function Issued(c: Config, t: int, p: Option<BusPacket>, r: nat, b: nat, m: Bank): Bank {
    if p.Some? then Issue(c, t, p.value, r, b, m) else m
  }

  // The entry of bank (r, b) at the next pop.
  function NextEntry(c: Config, t: int, p: Option<BusPacket>, r: nat, b: nat, m: Bank): Bank {
    Age(c, Woken(c, t, Issued(c, t, p, r, b, m)))
  }

  // A column access that keeps the bank waiting longer.
  predicate Delays(p: Option<BusPacket>, r: nat, b: nat) {
    p.Some? && p.value.IsColumn() && !(p.value.rank == r && p.value.bank == b)
  }

  lemma StageStays(c: Config, t: int, p: Option<BusPacket>, r: nat, b: nat, m: Bank, bare: bool, bare': bool)
    requires c.Valid() && Consistent(t + 1, m)
    requires if p.Some? then Serves(c, p.value, r, b, m, bare, bare') else bare' == bare
    ensures Stage(t + 1, NextEntry(c, t, p, r, b, m), bare') <= Stage(t, m, bare)
  {
  }

  // What the scheduler does for the first bank that keeps the refresh back.
  predicate Helped(t: int, p: Option<BusPacket>, r: nat, b: nat, m: Bank, bare: bool) {
    Open(m) && Left(t, m, bare) == 0 ==> p.Some? && p.value.rank == r && p.value.bank == b
  }

  lemma StageEnds(c: Config, t: int, p: Option<BusPacket>, r: nat, b: nat, m: Bank, bare: bool, bare': bool)
    requires c.Valid() && Consistent(t + 1, m) && Stage(t, m, bare) > 0
    requires if p.Some? then Serves(c, p.value, r, b, m, bare, bare') else bare' == bare
    requires Helped(t, p, r, b, m, bare) && !Delays(p, r, b)
    ensures var m' := NextEntry(c, t, p, r, b, m);
      Stage(t + 1, m', bare') < Stage(t, m, bare) || Left(t + 1, m', bare') < Left(t, m, bare)
  {
  }
}
