/** Constants and the per-channel record of the MPR121 driver header:
    register addresses, channel role codes, the Channel struct with its
    default initialisers, and the layout of the threshold registers. */
module Mpr121Defs {

  /** An unsigned 8-bit integer, used for register addresses and role codes. */
  newtype Uint8 = x: int | 0 <= x < 0x100

  /** A register address on the chip. */
  type Addr = Uint8

  /** The contents of one 8-bit register. */
  type Byte = bv8

  /** Default bus address of the chip. */
  const I2CADDR_DEFAULT: Uint8 := 0x5A

  // Register map
  const TOUCHSTATUS_L: Addr := 0x00
  const TOUCHSTATUS_H: Addr := 0x01
  const FILTDATA_0L: Addr := 0x04
  const FILTDATA_0H: Addr := 0x05
  const BASELINE_0: Addr := 0x1E
  const MHDR: Addr := 0x2B
  const NHDR: Addr := 0x2C
  const NCLR: Addr := 0x2D
  const FDLR: Addr := 0x2E
  const MHDF: Addr := 0x2F
  const NHDF: Addr := 0x30
  const NCLF: Addr := 0x31
  const FDLF: Addr := 0x32
  const NHDT: Addr := 0x33
  const NCLT: Addr := 0x34
  const FDLT: Addr := 0x35

  const TOUCHTH_0: Addr := 0x41
  const RELEASETH_0: Addr := 0x42
  const DEBOUNCE: Addr := 0x5B
  const CONFIG1: Addr := 0x5C
  const CONFIG2: Addr := 0x5D
  const CHARGECURR_0: Addr := 0x5F
  const CHARGETIME_1: Addr := 0x6C
  const ECR: Addr := 0x5E
  const AUTOCONFIG0: Addr := 0x7B
  const AUTOCONFIG1: Addr := 0x7C
  const UPLIMIT: Addr := 0x7D
  const LOWLIMIT: Addr := 0x7E
  const TARGETLIMIT: Addr := 0x7F

  const GPIODIR: Addr := 0x76
  const GPIOEN: Addr := 0x77
  const GPIOSET: Addr := 0x78
  const GPIOCLR: Addr := 0x79
  const GPIOTOGGLE: Addr := 0x7A
  const GPIOCTL0: Addr := 0x73
  const GPIOCTL1: Addr := 0x74
  const GPIODATA: Addr := 0x75

  const SOFTRESET: Addr := 0x80

  // Channel role codes
  const SENSOR: Uint8 := 0
  const GPIO_IN: Uint8 := 1
  const GPIO_OUT: Uint8 := 2

  /** Number of electrode channels the driver keeps state for. */
  const CHANNEL_COUNT: nat := 12

  /** The per-channel record: time of the last accepted touch, role code,
      last GPIO level and last computed touch state. */
  datatype Channel = Channel(lastTouch: int, kind: Uint8, gpioHigh: bool, touched: bool)

  /** A channel as the struct's default member initialisers leave it. */
  const FreshChannel: Channel := Channel(0, SENSOR, false, false)

  predicate IsRole(t: Uint8) {
    t == SENSOR || t == GPIO_IN || t == GPIO_OUT
  }

  /** The role codes are 0, 1, 2, so the driver's `type >= 3` test rejects
      exactly the codes that name no role. */
  lemma UnknownRoleTest(t: Uint8)
    ensures t >= 3 <==> !IsRole(t)
  {
  }

  /** A fresh channel is a sensor, untouched, low, and never touched before. */
  lemma FreshChannelDefaults()
    ensures FreshChannel.kind == SENSOR && IsRole(FreshChannel.kind)
    ensures !FreshChannel.touched && !FreshChannel.gpioHigh && FreshChannel.lastTouch == 0
  {
  }

  /** Registers whose contents the chip itself produces: touch and
      out-of-range status, filtered data, baselines (electrodes 0..12), and
      the GPIO data register. The driver never writes them. */
  predicate ChipDriven(a: Addr) {
    a <= 0x2A || a == GPIODATA
  }

  /** The touch-threshold register of channel i. */
  function TouchThreshold(i: nat): (a: Addr)
    requires i < CHANNEL_COUNT
    ensures TOUCHTH_0 <= a < RELEASETH_0 + 2 * (CHANNEL_COUNT - 1) as Addr
    ensures !ChipDriven(a)
  {
    (TOUCHTH_0 as int + 2 * i) as Addr
  }

  /** The release-threshold register of channel i. */
  function ReleaseThreshold(i: nat): (a: Addr)
    requires i < CHANNEL_COUNT
    ensures TOUCHTH_0 < a <= RELEASETH_0 + 2 * (CHANNEL_COUNT - 1) as Addr
    ensures !ChipDriven(a)
  {
    (RELEASETH_0 as int + 2 * i) as Addr
  }

  /** True of the 24 threshold registers 0x41..0x58. */
  predicate IsThresholdAddr(a: Addr) {
    TOUCHTH_0 <= a <= RELEASETH_0 + 2 * (CHANNEL_COUNT - 1) as Addr
  }

  /** True of the touch half of a threshold pair. */
  predicate IsTouchSlot(a: Addr) {
    IsThresholdAddr(a) && (a - TOUCHTH_0) % 2 == 0
  }

  /** The channel a threshold register belongs to. */
  function ThresholdChannel(a: Addr): (i: nat)
    requires IsThresholdAddr(a)
    ensures i < CHANNEL_COUNT
    ensures a == if IsTouchSlot(a) then TouchThreshold(i) else ReleaseThreshold(i)
  {
    ((a - TOUCHTH_0) / 2) as nat
  }

  /** The 12 touch/release pairs occupy 24 distinct registers: each channel's
      two registers are different, belong back to that channel, and no two
      channels share one. */
  lemma ThresholdLayout(i: nat, j: nat)
    requires i < CHANNEL_COUNT && j < CHANNEL_COUNT
    ensures IsTouchSlot(TouchThreshold(i)) && ThresholdChannel(TouchThreshold(i)) == i
    ensures IsThresholdAddr(ReleaseThreshold(i)) && !IsTouchSlot(ReleaseThreshold(i))
    ensures ThresholdChannel(ReleaseThreshold(i)) == i
    ensures TouchThreshold(i) != ReleaseThreshold(j)
    ensures i != j ==> TouchThreshold(i) != TouchThreshold(j) && ReleaseThreshold(i) != ReleaseThreshold(j)
  {
  }

  /** The soft-reset, electrode-configuration, CONFIG2 and GPIO registers. */
  const ControlRegisters: seq<Addr> :=
    [SOFTRESET, ECR, CONFIG2, GPIOCTL0, GPIOCTL1, GPIODATA, GPIODIR, GPIOEN, GPIOSET, GPIOCLR, GPIOTOGGLE]
}
