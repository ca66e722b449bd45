// Configuration values of one memory channel: the policies, the geometry and the
// device timings, with the delays derived from them.
module SystemConfiguration {
  import opened Bits

  datatype RowBufferPolicy = OpenPage | ClosePage

  datatype QueuingStructure = PerRank | PerRankPerBank

  datatype SchedulingPolicy = RankThenBankRoundRobin | BankThenRankRoundRobin

  datatype AddressMappingScheme = Scheme1 | Scheme2 | Scheme3 | Scheme4 | Scheme5 | Scheme6 | Scheme7

  function Max(a: int, b: int): int {
    if a >= b then a else b
  }

  // Widths, in bits, of the fields of a physical address.
  datatype Geometry = Geometry(
    scheme: AddressMappingScheme,
    chanBits: nat,
    rankBits: nat,
    bankBits: nat,
    rowBits: nat,
    colHighBits: nat,
    colLowBits: nat,
    byteOffsetBits: nat)
  {
    // Every field is read into a 32-bit unsigned.
    predicate Valid() {
      chanBits <= 32 && rankBits <= 32 && bankBits <= 32 && rowBits <= 32 && colHighBits <= 32
    }
  }

  datatype Config = Config(
    policy: RowBufferPolicy,
    queuing: QueuingStructure,
    scheduling: SchedulingPolicy,
    geometry: Geometry,
    useLowPower: bool,
    cmdQueueDepth: nat,
    transQueueDepth: nat,
    totalRowAccesses: nat,
    refreshPeriod: nat,
    CL: nat, AL: nat, BL: nat,
    tRAS: nat, tRCD: nat, tRRD: nat, tRC: nat, tRP: nat, tCCD: nat, tRTP: nat, tWTR: nat, tWR: nat,
    tRTRS: nat, tRFC: nat, tFAW: nat, tCKE: nat, tXP: nat, tCMD: nat)
  {
    // Rank and bank counts are the powers of two of their address widths.
    function NumRanks(): nat { Pow2(geometry.rankBits) }

    function NumBanks(): nat { Pow2(geometry.bankBits) }

    function RL(): nat { CL + AL }

    function WL(): int { RL() - 1 }

    function ReadToPre(): int { AL + BL / 2 + Max(tRTP, tCCD) - tCCD }

    function WriteToPre(): int { WL() + BL / 2 + tWR }

    function ReadToWrite(): int { RL() + BL / 2 + tRTRS - WL() }

    function ReadAutoPre(): int { AL + tRTP + tRP }

    function WriteAutoPre(): int { WL() + BL / 2 + tWR + tRP }

    // Write-to-read delay inside a rank.
    function WriteToReadBank(): int { WL() + BL / 2 + tWTR }

    // Write-to-read delay between ranks.
    function WriteToReadRank(): int { WL() + BL / 2 + tRTRS - RL() }

    function ColumnGap(): int { Max(tCCD, BL / 2) }

    // What the device parameters must satisfy for the simulator's unsigned
    // arithmetic to be meaningful and for one command to fit on the bus per cycle.
    predicate Valid() {
      && geometry.Valid()
      && NumRanks() < 0xFFFF_FFFF
      && tCMD == 1
      && tRP >= 1 && tRFC >= 1 && tFAW >= 1
      && BL >= 2 && BL % 2 == 0
      && AL <= tRCD
      && CL + AL >= 2
      && totalRowAccesses >= 1
      && cmdQueueDepth >= 2
    }
  }

  // NO_RANK is the value that assigning -1 leaves in an unsigned rank index.
  const NO_RANK: nat := 0xFFFF_FFFF

  // Decrement of a 32-bit unsigned counter.
  function Dec32(x: nat): nat {
    if x == 0 then 0xFFFF_FFFF else x - 1
  }

  // Ceiling of the base-2 logarithm.
  method DramsimLog2(orig: nat) returns (logbase2: nat)
    ensures orig <= Pow2(logbase2)
    ensures logbase2 > 0 ==> Pow2(logbase2 - 1) < orig
  {
    var value := orig / 2;
    logbase2 := 0;
    while value > 0
      invariant orig > 0 ==> value == (orig / 2) / Pow2(logbase2)
      invariant orig == 0 ==> value == 0 && logbase2 == 0
      invariant orig > 0 ==> Pow2(logbase2) <= orig
      decreases value
    {
      BelowOrig(orig, value, logbase2);
      DivDiv(orig / 2, Pow2(logbase2));
      value := value / 2;
      logbase2 := logbase2 + 1;
    }
    if orig > 0 {
      AboveOrig(orig, logbase2);
    }
    ghost var floor := logbase2;
    if Pow2(logbase2) < orig {
      logbase2 := logbase2 + 1;
    } else if floor > 0 {
      Pow2Monotone(floor - 1, floor);
    }
  }

  lemma BelowOrig(orig: nat, value: nat, k: nat)
    requires value > 0 && value == (orig / 2) / Pow2(k)
    ensures Pow2(k + 1) <= orig
  {
    var p := Pow2(k);
    var h := orig / 2;
    assert h == value * p + h % p;
    ScalesUp(value, p);
  }

  lemma AboveOrig(orig: nat, k: nat)
    requires (orig / 2) / Pow2(k) == 0
    ensures orig < 2 * Pow2(k)
  {
  }

  lemma DivDiv(h: nat, p: nat)
    requires p > 0
    ensures (h / p) / 2 == h / (2 * p)
  {
    var q, r := h / p, h % p;
    assert h == q * p + r;
    assert q == 2 * (q / 2) + q % 2;
    assert h == (q / 2) * (2 * p) + (q % 2) * p + r by {
      assert (2 * (q / 2) + q % 2) * p == (q / 2) * (2 * p) + (q % 2) * p;
    }
    DivUnique(h, 2 * p, q / 2, (q % 2) * p + r);
  }

  // A value is accepted as a power of two exactly when it is one that fits the 32-bit
  // argument of the logarithm.
  method IsPowerOfTwo(x: nat) returns (yes: bool)
    requires x < TWO_64
    ensures yes <==> x < TWO_32 && exists k: nat :: x == Pow2(k)
  {
    var log := DramsimLog2(x % TWO_32);
    yes := Pow2(log) == x;
    if x >= TWO_32 {
      WideIsRefused(x, log);
    } else if !yes && exists k: nat :: x == Pow2(k) {
      ghost var k: nat :| x == Pow2(k);
      if k < log {
        if k < log - 1 {
          Pow2Monotone(k, log - 1);
        }
      } else if log < k {
        Pow2Monotone(log, k);
      }
    }
  }

  lemma WideIsRefused(x: nat, log: nat)
    requires x >= TWO_32
    requires (log > 0 ==> Pow2(log - 1) < x % TWO_32)
    ensures Pow2(log) != x
  {
    if log <= 32 {
      Pow2Upto32(log);
    } else {
      Pow2Is32();
      if log > 33 {
        Pow2Monotone(32, log - 1);
      }
    }
  }

  lemma Pow2Is32()
    ensures Pow2(32) == TWO_32
  {
    assert Pow2(4) == 16 by {
      assert Pow2(2) == 4;
    }
    Pow2Squares(4, 16);
    Pow2Squares(8, 0x100);
    Pow2Squares(16, 0x1_0000);
  }
}
