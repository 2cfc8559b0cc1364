/** The MPR121 device controller: the per-channel table, the interrupt
    flags and the debounce setting, and the operations that configure the
    chip and evaluate touches through the register file. */
module Mpr121 {
  import opened Mpr121Defs
  import opened BitOps
  import opened RegisterFile

  // ---------------------------------------------------------------------
  // Specification functions
  // ---------------------------------------------------------------------

  /** setChannelType refuses a non-sensor role on channels 0..3 and any
      code that names no role. */
  predicate Rejected(ch: nat, t: Uint8) {
    (t != SENSOR && ch <= 3) || t >= 3
  }

  /** GPIOEN as setChannelType leaves it: forced to all ones, then bit
      ch-4 cleared for a sensor (channels 0..3 have no GPIO bit and keep
      all ones) or set again for a GPIO role. */
  function EnableMask(ch: nat, t: Uint8): (r: Byte)
    requires ch < CHANNEL_COUNT && !Rejected(ch, t)
    ensures forall i | 0 <= i < 8 :: Bit(r, i) == !(t == SENSOR && ch >= 4 && i == ch - 4)
  {
    if t == SENSOR then
      if ch >= 4 then ClearBitIdiom(0xFF, ch - 4) else 0xFF
    else SetBitIdiom(0xFF, ch - 4)
  }

  /** GPIODIR as setChannelType leaves it: forced to all ones, then bit
      ch-4 cleared for an input; an output sets it again and a sensor does
      not touch it. */
  function DirectionMask(ch: nat, t: Uint8): (r: Byte)
    requires ch < CHANNEL_COUNT && !Rejected(ch, t)
    ensures forall i | 0 <= i < 8 :: Bit(r, i) == !(t == GPIO_IN && i == ch - 4)
  {
    if t == GPIO_IN then ClearBitIdiom(0xFF, ch - 4)
    else if t == GPIO_OUT then SetBitIdiom(0xFF, ch - 4)
    else 0xFF
  }

  /** The index the ECR scan of channels 0..n-1 arrives at: the highest
      channel below n whose role is SENSOR, or 0 if there is none. */
  function MaxElectrodeBelow(table: seq<Channel>, n: nat): (r: nat)
    requires n <= |table|
    ensures n == 0 ==> r == 0
    ensures n > 0 ==> r < n
    ensures r == 0 || table[r].kind == SENSOR
    ensures forall j | r < j < n :: table[j].kind != SENSOR
  {
    if n == 0 then 0
    else if table[n - 1].kind == SENSOR then n - 1
    else MaxElectrodeBelow(table, n - 1)
  }

  /** While channels 0..3 are sensors, the electrode count written to ECR
      names a sensor channel between 3 and 11, and every channel above it is
      a GPIO channel; a GPIO channel below it is not detected. */
  lemma MaxElectrodeIsHighestSensor(table: seq<Channel>)
    requires |table| == CHANNEL_COUNT
    requires forall i | 0 <= i < 4 :: table[i].kind == SENSOR
    ensures 3 <= MaxElectrodeBelow(table, CHANNEL_COUNT) < CHANNEL_COUNT
    ensures table[MaxElectrodeBelow(table, CHANNEL_COUNT)].kind == SENSOR
    ensures forall j | MaxElectrodeBelow(table, CHANNEL_COUNT) < j < CHANNEL_COUNT :: table[j].kind != SENSOR
  {
    assert table[3].kind == SENSOR;
  }

  /** The log `prior` followed by the GPIO-register transactions of an
      accepted setChannelType, one at a time: both registers forced to all
      ones, GPIOEN read back and rewritten, and for a GPIO role GPIODIR
      read back and rewritten. */
  function GpioRoleLog(prior: seq<Op>, ch: nat, t: Uint8): seq<Op>
    requires ch < CHANNEL_COUNT && !Rejected(ch, t)
  {
    var enabled := prior + [Write(GPIOEN, 0xFF)] + [Write(GPIODIR, 0xFF)] + [Read8(GPIOEN)]
                         + [Write(GPIOEN, EnableMask(ch, t))];
    if t == SENSOR then enabled
    else enabled + [Read8(GPIODIR)] + [Write(GPIODIR, DirectionMask(ch, t))]
  }

  /** The log `prior` followed by every transaction of an accepted
      setChannelType: the GPIO part, then ECR and GPIOCLR. */
  function ChannelTypeLog(prior: seq<Op>, ch: nat, t: Uint8, ecr: Byte): seq<Op>
    requires ch < CHANNEL_COUNT && !Rejected(ch, t)
  {
    GpioRoleLog(prior, ch, t) + [Write(ECR, ecr)] + [Write(GPIOCLR, 0xFF)]
  }

  /** The 24 writes of setThresholds: for each channel, its touch
      threshold and then its release threshold; write k goes to 0x41 + k. */
  function ThresholdOps(touch: Byte, release: Byte): (ops: seq<Op>)
    ensures |ops| == 2 * CHANNEL_COUNT
  {
    seq(2 * CHANNEL_COUNT, k requires 0 <= k < 2 * CHANNEL_COUNT =>
      Write((TOUCHTH_0 as int + k) as Addr, if k % 2 == 0 then touch else release))
  }

  /** Write 2i of the fan-out sets channel i's touch threshold and write
      2i+1 its release threshold. */
  lemma ThresholdOpsAt(touch: Byte, release: Byte, i: nat)
    requires i < CHANNEL_COUNT
    ensures ThresholdOps(touch, release)[2 * i] == Write(TouchThreshold(i), touch)
    ensures ThresholdOps(touch, release)[2 * i + 1] == Write(ReleaseThreshold(i), release)
  {
  }

  /** Two more writes of the fan-out cover one more channel. */
  lemma ThresholdOpsStep(touch: Byte, release: Byte, i: nat)
    requires i < CHANNEL_COUNT
    ensures ThresholdOps(touch, release)[..2 * (i + 1)]
      == ThresholdOps(touch, release)[..2 * i]
         + [Write(TouchThreshold(i), touch), Write(ReleaseThreshold(i), release)]
  {
    var ops := ThresholdOps(touch, release);
    ThresholdOpsAt(touch, release, i);
    assert ops[..2 * (i + 1)] == ops[..2 * i] + [ops[2 * i], ops[2 * i + 1]];
  }

  /** The register file once the first n channels' thresholds are written. */
  function ThresholdsUpTo(m: Regs, touch: Byte, release: Byte, n: nat): Regs {
    seq(0x100, k requires 0 <= k < 0x100 =>
      if IsThresholdAddr(k as Addr) && k < TOUCHTH_0 as int + 2 * n
      then ThresholdValue(k as Addr, touch, release) else m[k])
  }

  lemma ThresholdsUpToStep(m: Regs, touch: Byte, release: Byte, i: nat)
    requires i < CHANNEL_COUNT
    ensures ThresholdsUpTo(m, touch, release, i + 1)
      == ThresholdsUpTo(m, touch, release, i)[TouchThreshold(i) := touch][ReleaseThreshold(i) := release]
  {
    ThresholdLayout(i, i);
    var lhs := ThresholdsUpTo(m, touch, release, i + 1);
    var rhs := ThresholdsUpTo(m, touch, release, i)[TouchThreshold(i) := touch][ReleaseThreshold(i) := release];
    forall k | 0 <= k < 0x100
      ensures lhs[k] == rhs[k]
    {
      if k != TouchThreshold(i) as int && k != ReleaseThreshold(i) as int {
        assert k < TOUCHTH_0 as int + 2 * (i + 1) <==> k < TOUCHTH_0 as int + 2 * i;
      }
    }
  }

  /** The value setThresholds leaves in a threshold register. */
  function ThresholdValue(a: Addr, touch: Byte, release: Byte): Byte {
    if IsTouchSlot(a) then touch else release
  }

  /** Soft reset, electrodes off, and the CONFIG2 read-back. */
  const ResetOps: seq<Op> := [Write(SOFTRESET, 0x63), Write(ECR, 0x00), Read8(CONFIG2)]

  /** The rising, falling and touched baseline-filter settings and the
      debounce and charge configuration initMPR121 programs after the
      thresholds, group by group. */
  const RisingOps: seq<Op> := [Write(MHDR, 0x01), Write(NHDR, 0x01), Write(NCLR, 0x0E), Write(FDLR, 0x00)]
  const FallingOps: seq<Op> := [Write(MHDF, 0x01), Write(NHDF, 0x05), Write(NCLF, 0x01), Write(FDLF, 0x00)]
  const TouchedOps: seq<Op> := [Write(NHDT, 0x00), Write(NCLT, 0x00), Write(FDLT, 0x00)]
  const ConfigOps: seq<Op> := [Write(DEBOUNCE, 0x00), Write(CONFIG1, 0x10), Write(CONFIG2, 0x20)]
  const FilterOps: seq<Op> := RisingOps + FallingOps + TouchedOps + ConfigOps

  /** Everything initMPR121 issues after a successful CONFIG2 check. */
  const ConfigureOps: seq<Op> := ThresholdOps(12, 6) + FilterOps + [Write(ECR, 0x8F)]

  /** The registers FilterOps writes. */
  const FilterTargets: set<Addr> := {
    MHDR, NHDR, NCLR, FDLR, MHDF, NHDF, NCLF, FDLF, NHDT, NCLT, FDLT, DEBOUNCE, CONFIG1, CONFIG2}

  /** The registers initMPR121 programs besides the thresholds. */
  const InitTargets: set<Addr> := FilterTargets + {SOFTRESET, ECR}

  /** The filter settings are in place. */
  predicate FilterDefaults(regs: Regs)
  {
    regs[MHDR] == 0x01 && regs[NHDR] == 0x01 && regs[NCLR] == 0x0E && regs[FDLR] == 0x00 &&
    regs[MHDF] == 0x01 && regs[NHDF] == 0x05 && regs[NCLF] == 0x01 && regs[FDLF] == 0x00 &&
    regs[NHDT] == 0x00 && regs[NCLT] == 0x00 && regs[FDLT] == 0x00 &&
    regs[DEBOUNCE] == 0x00 && regs[CONFIG1] == 0x10
  }

  /** The 16-bit touch status word at 0x00/0x01. */
  function StatusWord(regs: Regs): bv16
  {
    Combine16(regs[TOUCHSTATUS_L], regs[TOUCHSTATUS_H])
  }

  /** The value of the aggregate touched(): in interrupt mode 1 when the
      latch was set and 0 otherwise, else the status word cut to its 12
      electrode bits. */
  function AggregateMask(useIrq: bool, interrupted: bool, status: bv16): (m: bv16)
    ensures m <= 0x0FFF
  {
    if useIrq then (if interrupted then 1 else 0) else status & 0x0FFF
  }

  /** In interrupt mode bit 0 of the aggregate mask is the latch and no
      other bit is ever set. */
  lemma IrqMaskBits(interrupted: bool, status: bv16, i: nat)
    requires i < 16
    ensures Bit16(AggregateMask(true, interrupted, status), i) == (i == 0 && interrupted)
  {
  }

  /** In polling mode bit i of the aggregate mask is bit i of the status
      word for the 12 electrodes and clear above them. */
  lemma PollingMaskBits(interrupted: bool, status: bv16, i: nat)
    requires i < 16
    ensures Bit16(AggregateMask(false, interrupted, status), i) == (i < CHANNEL_COUNT && Bit16(status, i))
  {
  }

  /** In interrupt mode the aggregate mask reports at most channel 0, so no
      other channel can ever read as touched. */
  lemma IrqMaskOnlyChannelZero(interrupted: bool, status: bv16, ch: nat)
    requires 0 < ch < CHANNEL_COUNT
    ensures !Bit16(AggregateMask(true, interrupted, status), ch)
  {
    IrqMaskBits(interrupted, status, ch);
  }

  /** In polling mode the aggregate mask depends on the status word only,
      not on the interrupt latch. */
  lemma PollingIgnoresLatch(status: bv16)
    ensures AggregateMask(false, true, status) == AggregateMask(false, false, status)
  {
  }

  /** A second touch evaluation with the same bit and time changes nothing
      more, which is why the twelve identical passes of the loop in
      touched(ch) act as one. */
  lemma TouchUpdateIdempotent(c: Channel, hit: bool, now: int)
    ensures TouchUpdate(TouchUpdate(c, hit, now), hit, now) == TouchUpdate(c, hit, now)
  {
  }

  /** The three early exits of the per-channel touched(ch): an output
      channel, interrupt mode with no interrupt pending, or a query inside
      the debounce window after the last accepted touch. */
  predicate TouchGate(c: Channel, useIrq: bool, interrupted: bool, debounce: int, now: int) {
    c.kind == GPIO_OUT || (useIrq && !interrupted) || c.lastTouch + debounce > now
  }

  /** A channel after a touch evaluation that saw mask bit `hit`: the
      touched state follows the bit and the timestamp moves only on a
      touch. */
  function TouchUpdate(c: Channel, hit: bool, now: int): (c': Channel)
    ensures c'.touched == hit && c'.kind == c.kind && c'.gpioHigh == c.gpioHigh
    ensures c'.lastTouch == if hit then now else c.lastTouch
  {
    c.(touched := hit, lastTouch := if hit then now else c.lastTouch)
  }

  // ---------------------------------------------------------------------
  // The device
  // ---------------------------------------------------------------------

  class Device {
    /** _channels[12] */
    const channels: array<Channel>
    /** _debounce, a 16-bit value */
    var debounce: nat
    /** _useIRQ */
    var useIrq: bool
    /** _interrupted */
    var interrupted: bool
    /** The chip's registers as the bus sees them. */
    var regs: Regs
    /** Every bus transaction issued so far, oldest first. */
    var log: seq<Op>
    /** The register contents before the first transaction. */
    ghost const powerOn: Regs

    ghost predicate Valid()
      reads this, channels
    {
      TableValid() && BusValid() && debounce < 0x10000
    }

    /** Twelve channels, each with a known role, and channels 0..3 always
        sensors. */
    ghost predicate TableValid()
      reads channels
    {
      channels.Length == CHANNEL_COUNT &&
      (forall i | 0 <= i < CHANNEL_COUNT :: channels[i].kind < 3) &&
      (forall i | 0 <= i < 4 :: channels[i].kind == SENSOR)
    }

    /** The register file is what the logged transactions made of its
        power-on contents. */
    ghost predicate BusValid()
      reads this`regs, this`log
    {
      regs == Apply(powerOn, log)
    }

    /** A device handle on a chip whose registers hold `chip`. The channel
        table takes the struct defaults, the debounce is 0, and both
        interrupt flags start false. */
    constructor (chip: Regs)
      ensures Valid() && fresh(channels)
      ensures forall i | 0 <= i < CHANNEL_COUNT :: channels[i] == FreshChannel
      ensures debounce == 0 && !useIrq && !interrupted
      ensures regs == chip && log == [] && powerOn == chip
    {
      channels := new Channel[CHANNEL_COUNT](_ => FreshChannel);
      debounce := 0;
      useIrq := false;
      interrupted := false;
      regs := chip;
      log := [];
      powerOn := chip;
    }

    /** A read of a register returns the last value the driver wrote to
        it, or its power-on value if it never wrote it. */
    lemma ReadReturnsLastWritten(a: Addr)
      requires Valid()
      ensures regs[a] == LastWrite(log, a).GetOr(powerOn[a])
    {
      ReadReturnsLastWrite(powerOn, log, a);
    }

    // --- register transport over the register file ---

    method WriteRegister(a: Addr, v: Byte)
      requires Valid()
      modifies this`regs, this`log
      ensures Valid()
      ensures regs == old(regs)[a := v] && log == old(log) + [Write(a, v)]
    {
      ApplyWrite(powerOn, log, a, v);
      regs := regs[a := v];
      log := log + [Write(a, v)];
    }

    method ReadRegister8(a: Addr) returns (v: Byte)
      requires Valid()
      modifies this`log
      ensures Valid()
      ensures v == regs[a] && log == old(log) + [Read8(a)]
    {
      ApplyRead(powerOn, log, Read8(a));
      v := regs[a];
      log := log + [Read8(a)];
    }

    /** A one-byte read of a register the chip produces itself; `chip` holds
        what the chip presents at the time of the call. */
    method ReadChip8(a: Addr, chip: Regs) returns (v: Byte)
      requires Valid()
      modifies this`log
      ensures Valid()
      ensures v == chip[a] && log == old(log) + [Read8(a)]
    {
      ApplyRead(powerOn, log, Read8(a));
      v := chip[a];
      log := log + [Read8(a)];
    }

    /** readRegister16 on registers the chip produces: two bytes from `a`
        on, the first one the low half. */
    method ReadChip16(a: Addr, chip: Regs) returns (v: bv16)
      requires Valid() && a < 0xFF
      modifies this`log
      ensures Valid()
      ensures v == Combine16(chip[a], chip[a + 1]) && log == old(log) + [Read16(a)]
    {
      v := Combine16(chip[a], chip[a + 1]);
      ApplyRead(powerOn, log, Read16(a));
      log := log + [Read16(a)];
    }

    // --- reset and configuration ---

    /** initMPR121. `chip[CONFIG2]` is the value the chip returns for
        CONFIG2 right after the soft reset. */
    method Init(chip: Regs) returns (ok: bool)
      requires Valid()
      modifies this`regs, this`log, this`useIrq
      ensures Valid() && !useIrq
      ensures ok == (chip[CONFIG2] == 0x24)
      ensures !ok ==> log == old(log) + ResetOps && regs == old(regs)[SOFTRESET := 0x63][ECR := 0x00]
      ensures ok ==> log == old(log) + ResetOps + ConfigureOps
      ensures ok ==> forall i | 0 <= i < CHANNEL_COUNT ::
        regs[TouchThreshold(i)] == 12 && regs[ReleaseThreshold(i)] == 6
      ensures ok ==> regs[CONFIG2] == 0x20 && regs[ECR] == 0x8F && regs[SOFTRESET] == 0x63
      ensures ok ==> FilterDefaults(regs)
      ensures ok ==> forall a: Addr :: a !in InitTargets && !IsThresholdAddr(a) ==> regs[a] == old(regs)[a]
    {
      useIrq := false;
      var c := ResetChip(chip);
      if c != 0x24 {
        return false;
      }
      Configure();
      ok := true;
    }

    /** The success path of initMPR121 after the CONFIG2 check: thresholds
        12/6, the filter and charge settings, and all electrodes enabled. */
    method Configure()
      requires Valid()
      modifies this`regs, this`log
      ensures Valid()
      ensures log == old(log) + ConfigureOps
      ensures forall i | 0 <= i < CHANNEL_COUNT ::
        regs[TouchThreshold(i)] == 12 && regs[ReleaseThreshold(i)] == 6
      ensures regs[CONFIG2] == 0x20 && regs[ECR] == 0x8F && FilterDefaults(regs)
      ensures forall a: Addr :: a !in FilterTargets && a != ECR && !IsThresholdAddr(a) ==> regs[a] == old(regs)[a]
    {
      SetThresholds(12, 6);
      WriteFilterSettings();
      WriteRegister(ECR, 0x8F);
    }

    /** The soft reset, the electrodes switched off, and the CONFIG2
        read-back of initMPR121. */
    method ResetChip(chip: Regs) returns (config2: Byte)
      requires Valid()
      modifies this`regs, this`log
      ensures Valid()
      ensures config2 == chip[CONFIG2]
      ensures log == old(log) + ResetOps && regs == old(regs)[SOFTRESET := 0x63][ECR := 0x00]
    {
      WriteRegister(SOFTRESET, 0x63);
      WriteRegister(ECR, 0x00);
      config2 := ReadChip8(CONFIG2, chip);
    }

    /** The filter, debounce and charge settings of initMPR121, in the
        source's order. */
    method WriteFilterSettings()
      requires Valid()
      modifies this`regs, this`log
      ensures Valid()
      ensures log == old(log) + FilterOps
      ensures FilterDefaults(regs) && regs[CONFIG2] == 0x20
      ensures forall a: Addr :: a !in FilterTargets ==> regs[a] == old(regs)[a]
    {
      WriteRisingFilter();
      WriteFallingFilter();
      WriteTouchedFilter();
      WriteChargeConfig();
    }

    method WriteRisingFilter()
      requires Valid()
      modifies this`regs, this`log
      ensures Valid()
      ensures log == old(log) + RisingOps
      ensures regs == old(regs)[MHDR := 0x01][NHDR := 0x01][NCLR := 0x0E][FDLR := 0x00]
    {
      WriteRegister(MHDR, 0x01);
      WriteRegister(NHDR, 0x01);
      WriteRegister(NCLR, 0x0E);
      WriteRegister(FDLR, 0x00);
    }

    method WriteFallingFilter()
      requires Valid()
      modifies this`regs, this`log
      ensures Valid()
      ensures log == old(log) + FallingOps
      ensures regs == old(regs)[MHDF := 0x01][NHDF := 0x05][NCLF := 0x01][FDLF := 0x00]
    {
      WriteRegister(MHDF, 0x01);
      WriteRegister(NHDF, 0x05);
      WriteRegister(NCLF, 0x01);
      WriteRegister(FDLF, 0x00);
    }

    method WriteTouchedFilter()
      requires Valid()
      modifies this`regs, this`log
      ensures Valid()
      ensures log == old(log) + TouchedOps
      ensures regs == old(regs)[NHDT := 0x00][NCLT := 0x00][FDLT := 0x00]
    {
      WriteRegister(NHDT, 0x00);
      WriteRegister(NCLT, 0x00);
      WriteRegister(FDLT, 0x00);
    }

    method WriteChargeConfig()
      requires Valid()
      modifies this`regs, this`log
      ensures Valid()
      ensures log == old(log) + ConfigOps
      ensures regs == old(regs)[DEBOUNCE := 0x00][CONFIG1 := 0x10][CONFIG2 := 0x20]
    {
      WriteRegister(DEBOUNCE, 0x00);
      WriteRegister(CONFIG1, 0x10);
      WriteRegister(CONFIG2, 0x20);
    }

    /** setThresholds: the same touch/release pair for all 12 channels. */
    method SetThresholds(touch: Byte, release: Byte)
      requires Valid()
      modifies this`regs, this`log
      ensures Valid()
      ensures log == old(log) + ThresholdOps(touch, release)
      ensures forall a: Addr ::
        regs[a] == if IsThresholdAddr(a) then ThresholdValue(a, touch, release) else old(regs)[a]
    {
      for i := 0 to CHANNEL_COUNT
        invariant Valid()
        invariant log == old(log) + ThresholdOps(touch, release)[..2 * i]
        invariant regs == ThresholdsUpTo(old(regs), touch, release, i)
      {
        ThresholdsUpToStep(old(regs), touch, release, i);
        ThresholdOpsStep(touch, release, i);
        WriteThresholdPair(i, touch, release);
      }
      assert ThresholdOps(touch, release)[..2 * CHANNEL_COUNT] == ThresholdOps(touch, release);
    }

    /** One pass of the setThresholds loop: channel i's touch threshold,
        then its release threshold. */
    method WriteThresholdPair(i: nat, touch: Byte, release: Byte)
      requires Valid() && i < CHANNEL_COUNT
      modifies this`regs, this`log
      ensures Valid()
      ensures regs == old(regs)[TouchThreshold(i) := touch][ReleaseThreshold(i) := release]
      ensures log == old(log) + [Write(TouchThreshold(i), touch), Write(ReleaseThreshold(i), release)]
    {
      WriteRegister(TouchThreshold(i), touch);
      WriteRegister(ReleaseThreshold(i), release);
    }

    /** setThreshholds, the deprecated spelling, forwards to SetThresholds. */
    method SetThreshholds(touch: Byte, release: Byte)
      requires Valid()
      modifies this`regs, this`log
      ensures Valid()
      ensures log == old(log) + ThresholdOps(touch, release)
      ensures forall a: Addr ::
        regs[a] == if IsThresholdAddr(a) then ThresholdValue(a, touch, release) else old(regs)[a]
    {
      SetThresholds(touch, release);
    }

    /** setDebounce: the driver-side debounce time for every channel. */
    method SetDebounce(d: nat)
      requires Valid() && d < 0x10000
      modifies this`debounce
      ensures Valid() && debounce == d
    {
      debounce := d;
    }

    // --- channel roles ---

    /** setChannelType. A rejected request changes nothing and returns
        false; on an accepted one the source returns no value, so `ok` is
        left unconstrained. */
    method SetChannelType(ch: nat, t: Uint8) returns (ok: bool)
      requires Valid() && ch < CHANNEL_COUNT
      modifies channels, this`regs, this`log
      ensures Valid()
      ensures Rejected(ch, t) ==>
        !ok && channels[..] == old(channels[..]) && regs == old(regs) && log == old(log)
      ensures !Rejected(ch, t) ==>
        channels[..] == old(channels[..])[ch := old(channels[ch]).(kind := t)]
      ensures !Rejected(ch, t) ==>
        var ecr := MaxElectrodeBelow(channels[..], CHANNEL_COUNT) as Byte;
        log == ChannelTypeLog(old(log), ch, t, ecr) &&
        regs == old(regs)[GPIOEN := EnableMask(ch, t)][GPIODIR := DirectionMask(ch, t)]
                         [ECR := ecr][GPIOCLR := 0xFF]
    {
      if t != SENSOR && ch <= 3 {
        return false;
      }
      if t >= 3 {
        return false;
      }
      channels[ch] := channels[ch].(kind := t);
      var channel := channels[ch];
      WriteGpioRole(ch, channel.kind);
      var maxElectrodeId := MaxElectrode();
      WriteRegister(ECR, maxElectrodeId as Byte);
      WriteRegister(GPIOCLR, 0xFF);
      ok := *;
    }

    /** The GPIO part of setChannelType: GPIOEN and GPIODIR forced to all
        ones, then bit ch-4 of each read back and adjusted for role `t`. */
    method WriteGpioRole(ch: nat, t: Uint8)
      requires Valid() && ch < CHANNEL_COUNT && !Rejected(ch, t)
      modifies this`regs, this`log
      ensures Valid()
      ensures log == GpioRoleLog(old(log), ch, t)
      ensures regs == old(regs)[GPIOEN := EnableMask(ch, t)][GPIODIR := DirectionMask(ch, t)]
    {
      WriteRegister(GPIOEN, 0xFF);
      WriteRegister(GPIODIR, 0xFF);
      var gpioEnabled := ReadRegister8(GPIOEN);
      if t == SENSOR {
        // channels 0..3 have no GPIO bit; the source's shift is negative there
        if ch >= 4 {
          gpioEnabled := ClearBitIdiom(gpioEnabled, ch - 4);
        }
        assert gpioEnabled == EnableMask(ch, t);
        WriteRegister(GPIOEN, gpioEnabled);
      } else {
        gpioEnabled := SetBitIdiom(gpioEnabled, ch - 4);
        WriteRegister(GPIOEN, gpioEnabled);
        var direction := ReadRegister8(GPIODIR);
        if t == GPIO_OUT {
          direction := SetBitIdiom(direction, ch - 4);
        } else if t == GPIO_IN {
          direction := ClearBitIdiom(direction, ch - 4);
        }
        assert direction == DirectionMask(ch, t);
        WriteRegister(GPIODIR, direction);
      }
    }

    /** The ECR scan of setChannelType: the highest channel whose role is
        SENSOR, 0 if there is none; a GPIO channel below it goes unreported. */
    method MaxElectrode() returns (maxElectrodeId: nat)
      requires TableValid()
      ensures maxElectrodeId == MaxElectrodeBelow(channels[..], CHANNEL_COUNT)
      ensures maxElectrodeId < CHANNEL_COUNT && channels[maxElectrodeId].kind == SENSOR
      ensures forall j | maxElectrodeId < j < CHANNEL_COUNT :: channels[j].kind != SENSOR
    {
      maxElectrodeId := 0;
      for i := 0 to CHANNEL_COUNT
        invariant maxElectrodeId == MaxElectrodeBelow(channels[..], i)
      {
        if channels[i].kind == SENSOR {
          maxElectrodeId := i;
        }
      }
    }

    // --- GPIO bit operations ---

    /** enablePullUp: sets bit ch-4 in both GPIOCTL0 and GPIOCTL1 of an
        input channel. */
    method EnablePullUp(ch: nat) returns (ok: bool)
      requires Valid() && ch < CHANNEL_COUNT
      modifies this`regs, this`log
      ensures Valid()
      ensures ok == (channels[ch].kind == GPIO_IN)
      ensures !ok ==> regs == old(regs) && log == old(log)
      ensures ok ==> 4 <= ch
      ensures ok ==> regs == old(regs)[GPIOCTL0 := regs[GPIOCTL0]][GPIOCTL1 := regs[GPIOCTL1]]
      ensures ok ==> log == old(log) + [Read8(GPIOCTL0), Read8(GPIOCTL1),
                                        Write(GPIOCTL0, regs[GPIOCTL0]), Write(GPIOCTL1, regs[GPIOCTL1])]
      ensures ok ==> forall i | 0 <= i < 8 ::
        Bit(regs[GPIOCTL0], i) == (i == ch - 4 || Bit(old(regs)[GPIOCTL0], i)) &&
        Bit(regs[GPIOCTL1], i) == (i == ch - 4 || Bit(old(regs)[GPIOCTL1], i))
    {
      if channels[ch].kind != GPIO_IN {
        return false;
      }
      var ctrl0 := ReadRegister8(GPIOCTL0);
      var ctrl1 := ReadRegister8(GPIOCTL1);
      ctrl0 := SetBitIdiom(ctrl0, ch - 4);
      ctrl1 := SetBitIdiom(ctrl1, ch - 4);
      WriteRegister(GPIOCTL0, ctrl0);
      WriteRegister(GPIOCTL1, ctrl1);
      return true;
    }

    /** enablePullDown: sets bit ch-4 in GPIOCTL0 and clears it in
        GPIOCTL1 of an input channel. */
    method EnablePullDown(ch: nat) returns (ok: bool)
      requires Valid() && ch < CHANNEL_COUNT
      modifies this`regs, this`log
      ensures Valid()
      ensures ok == (channels[ch].kind == GPIO_IN)
      ensures !ok ==> regs == old(regs) && log == old(log)
      ensures ok ==> 4 <= ch
      ensures ok ==> regs == old(regs)[GPIOCTL0 := regs[GPIOCTL0]][GPIOCTL1 := regs[GPIOCTL1]]
      ensures ok ==> log == old(log) + [Read8(GPIOCTL0), Read8(GPIOCTL1),
                                        Write(GPIOCTL0, regs[GPIOCTL0]), Write(GPIOCTL1, regs[GPIOCTL1])]
      ensures ok ==> forall i | 0 <= i < 8 ::
        Bit(regs[GPIOCTL0], i) == (i == ch - 4 || Bit(old(regs)[GPIOCTL0], i)) &&
        Bit(regs[GPIOCTL1], i) == (i != ch - 4 && Bit(old(regs)[GPIOCTL1], i))
    {
      if channels[ch].kind != GPIO_IN {
        return false;
      }
      var ctrl0 := ReadRegister8(GPIOCTL0);
      var ctrl1 := ReadRegister8(GPIOCTL1);
      ctrl0 := SetBitIdiom(ctrl0, ch - 4);
      ctrl1 := ClearBitMask(ctrl1, ch - 4);
      WriteRegister(GPIOCTL0, ctrl0);
      WriteRegister(GPIOCTL1, ctrl1);
      return true;
    }

    /** getGPIOStatus: false for channels 0..3 and sensors, the cached level
        for an output, and a fresh read of GPIODATA for an input. */
    method GetGpioStatus(ch: nat, chip: Regs) returns (high: bool)
      requires Valid() && ch < CHANNEL_COUNT
      modifies channels, this`log
      ensures Valid()
      ensures ch <= 3 || old(channels[ch].kind) == SENSOR ==>
        !high && channels[..] == old(channels[..]) && log == old(log)
      ensures ch > 3 && old(channels[ch].kind) == GPIO_OUT ==>
        high == old(channels[ch].gpioHigh) && channels[..] == old(channels[..]) && log == old(log)
      ensures ch > 3 && old(channels[ch].kind) == GPIO_IN ==>
        high == Bit(chip[GPIODATA], ch - 4) &&
        channels[..] == old(channels[..])[ch := old(channels[ch]).(gpioHigh := high)] &&
        log == old(log) + [Read8(GPIODATA)]
    {
      if ch <= 3 || channels[ch].kind == SENSOR {
        return false;
      } else if channels[ch].kind == GPIO_OUT {
        return channels[ch].gpioHigh;
      } else {
        var status := ReadChip8(GPIODATA, chip);
        channels[ch] := channels[ch].(gpioHigh := ShiftedBit(status, ch - 4));
        return channels[ch].gpioHigh;
      }
    }

    /** setGPIOEnabled: for a GPIO channel, reads GPIOSET, sets bit ch-4 in
        it (in both branches) and writes the byte to GPIOSET when enabling
        or to GPIOCLR when disabling; a sensor channel is ignored. */
    method SetGpioEnabled(ch: nat, enable: bool)
      requires Valid() && ch < CHANNEL_COUNT
      modifies this`regs, this`log
      ensures Valid()
      ensures channels[ch].kind == SENSOR ==> regs == old(regs) && log == old(log)
      ensures channels[ch].kind != SENSOR ==>
        var target := if enable then GPIOSET else GPIOCLR;
        4 <= ch &&
        regs == old(regs)[target := regs[target]] &&
        log == old(log) + [Read8(GPIOSET), Write(target, regs[target])] &&
        forall i | 0 <= i < 8 :: Bit(regs[target], i) == (i == ch - 4 || Bit(old(regs)[GPIOSET], i))
    {
      if channels[ch].kind == SENSOR {
        return;
      }
      var status := ReadRegister8(GPIOSET);
      if enable {
        status := SetBitIdiom(status, ch - 4);
        WriteRegister(GPIOSET, status);
      } else {
        status := SetBitIdiom(status, ch - 4);
        WriteRegister(GPIOCLR, status);
      }
    }

    // --- interrupt plumbing ---

    method UseIrq(value: bool)
      requires Valid()
      modifies this`useIrq
      ensures Valid() && useIrq == value
    {
      useIrq := value;
    }

    /** fireIRQ, called when the chip's interrupt line fires. */
    method FireIrq()
      requires Valid()
      modifies this`interrupted
      ensures Valid() && interrupted
    {
      interrupted := true;
    }

    // --- data reads ---

    /** filteredData: the 16-bit filtered value of electrode t (12 is the
        proximity electrode); 0 without a bus read for t > 12. */
    method FilteredData(t: Uint8, chip: Regs) returns (v: bv16)
      requires Valid()
      modifies this`log
      ensures Valid()
      ensures t > 12 ==> v == 0 && log == old(log)
      ensures t <= 12 ==>
        var a := FILTDATA_0L + 2 * t;
        v == Combine16(chip[a], chip[a + 1]) && log == old(log) + [Read16(a)]
    {
      if t > 12 {
        return 0;
      }
      v := ReadChip16(FILTDATA_0L + t * 2, chip);
    }

    /** baselineData: the 8-bit baseline of electrode t scaled to filtered
        resolution; 0 without a bus read for t > 12. */
    method BaselineData(t: Uint8, chip: Regs) returns (v: bv16)
      requires Valid()
      modifies this`log
      ensures Valid()
      ensures t > 12 ==> v == 0 && log == old(log)
      ensures t <= 12 ==>
        v as int == 4 * chip[BASELINE_0 + t] as int && log == old(log) + [Read8(BASELINE_0 + t)]
    {
      if t > 12 {
        return 0;
      }
      var bl := ReadChip8(BASELINE_0 + t, chip);
      v := BaselineScale(bl);
    }

    // --- touch detection ---

    /** The aggregate touched(): the interrupt latch in interrupt mode, the
        12 electrode bits of the status word otherwise; either way the latch
        is clear afterwards. */
    method TouchedMask(chip: Regs) returns (mask: bv16)
      requires Valid()
      modifies this`interrupted, this`log
      ensures Valid() && !interrupted
      ensures mask == AggregateMask(useIrq, old(interrupted), StatusWord(chip))
      ensures mask <= 0x0FFF
      ensures log == old(log) + if useIrq then [] else [Read16(TOUCHSTATUS_L)]
    {
      if useIrq {
        mask := if interrupted then 1 else 0;
      } else {
        var status := ReadChip16(TOUCHSTATUS_L, chip);
        mask := status & 0x0FFF;
      }
      interrupted := false;
    }

    /** One pass of the loop in touched(ch): channel ch's touched state
        follows mask bit `hit`; on a touch its timestamp becomes `now` and
        the interrupt latch is cleared. */
    method RecordTouch(ch: nat, hit: bool, now: int)
      requires Valid() && ch < CHANNEL_COUNT
      modifies channels, this`interrupted
      ensures Valid()
      ensures channels[..] == old(channels[..])[ch := TouchUpdate(old(channels[ch]), hit, now)]
      ensures interrupted == (old(interrupted) && !hit)
    {
      if hit {
        channels[ch] := channels[ch].(lastTouch := now);
        channels[ch] := channels[ch].(touched := true);
        interrupted := false;
      } else {
        channels[ch] := channels[ch].(touched := false);
      }
    }

    /** The per-channel touched(ch) at time `now`. */
    method TouchedChannel(ch: nat, now: nat, chip: Regs) returns (touched: bool)
      requires Valid() && ch < CHANNEL_COUNT
      modifies channels, this`interrupted, this`log
      ensures Valid()
      ensures TouchGate(old(channels[ch]), useIrq, old(interrupted), debounce, now) ==>
        !touched && channels[..] == old(channels[..]) && interrupted == old(interrupted) && log == old(log)
      ensures !TouchGate(old(channels[ch]), useIrq, old(interrupted), debounce, now) ==>
        touched == Bit16(AggregateMask(useIrq, old(interrupted), StatusWord(chip)), ch) &&
        channels[..] == old(channels[..])[ch := TouchUpdate(old(channels[ch]), touched, now)] &&
        !interrupted &&
        log == old(log) + if useIrq then [] else [Read16(TOUCHSTATUS_L)]
      ensures useIrq && ch != 0 ==> !touched
    {
      if channels[ch].kind == GPIO_OUT {
        return false;
      }
      if useIrq && !interrupted {
        return false;
      }
      if channels[ch].lastTouch + debounce > now {
        return false;
      }
      touched := EvaluateTouch(ch, now, chip);
      if useIrq && ch != 0 {
        IrqMaskOnlyChannelZero(true, StatusWord(chip), ch);
      }
    }

    /** The part of touched(ch) after its three gates: the aggregate mask is
        taken and the loop records bit ch of it in the channel. */
    method EvaluateTouch(ch: nat, now: nat, chip: Regs) returns (touched: bool)
      requires Valid() && ch < CHANNEL_COUNT
      modifies channels, this`interrupted, this`log
      ensures Valid() && !interrupted
      ensures touched == Bit16(AggregateMask(useIrq, old(interrupted), StatusWord(chip)), ch)
      ensures channels[..] == old(channels[..])[ch := TouchUpdate(old(channels[ch]), touched, now)]
      ensures log == old(log) + if useIrq then [] else [Read16(TOUCHSTATUS_L)]
    {
      var mask := TouchedMask(chip);
      ghost var before := channels[..];
      ghost var hit := Bit16(mask, ch);
      for i := 0 to CHANNEL_COUNT
        modifies channels, this`interrupted
        invariant Valid() && !interrupted
        invariant channels[..] == if i == 0 then before else before[ch := TouchUpdate(before[ch], hit, now)]
      {
        TouchUpdateIdempotent(before[ch], hit, now);
        RecordTouch(ch, Bit16(mask, ch), now);  // mask & _BV(ch)
      }
      touched := channels[ch].touched;
      assert touched == hit;
      assert mask == AggregateMask(useIrq, old(interrupted), StatusWord(chip));
      assert log == old(log) + if useIrq then [] else [Read16(TOUCHSTATUS_L)];
    }
  }
}
