/** Call sequences of a driver client that show behaviour no single call
    does: the interrupt latch is consumed by the first read, polling
    ignores the latch, the debounce window hides a touch that is still in
    progress, and setChannelType leaves other channels' GPIO bits stale. */
module Scenarios {
  import opened Mpr121Defs
  import opened BitOps
  import opened RegisterFile
  import opened Mpr121

  /** In interrupt mode, an interrupt is reported by the first aggregate
      read only; the next read reports nothing. */
  method LatchReadOnce(d: Device, chip: Regs) returns (first: bv16, second: bv16)
    requires d.Valid() && d.useIrq
    modifies d`interrupted, d`log
    ensures first == 1 && second == 0
  {
    d.FireIrq();
    first := d.TouchedMask(chip);
    second := d.TouchedMask(chip);
  }

  /** In polling mode an interrupt between two reads of an unchanged
      status word does not change the reported mask. */
  method PollingIgnoresInterrupt(d: Device, chip: Regs) returns (first: bv16, second: bv16)
    requires d.Valid() && !d.useIrq
    modifies d`interrupted, d`log
    ensures first == second && first == StatusWord(chip) & 0x0FFF
  {
    first := d.TouchedMask(chip);
    d.FireIrq();
    second := d.TouchedMask(chip);
  }

  /** Two polling queries of one channel at the same time with a nonzero
      debounce: once the first reports a touch, the second falls inside the
      debounce window and reports false, although the channel's recorded
      state is still touched. */
  method DebounceHidesTouch(d: Device, ch: nat, now: nat, chip: Regs) returns (first: bool, second: bool)
    requires d.Valid() && ch < CHANNEL_COUNT && !d.useIrq && d.debounce > 0
    modifies d.channels, d`interrupted, d`log
    ensures first ==> !second && d.channels[ch].touched && d.channels[ch].lastTouch == now
  {
    first := d.TouchedChannel(ch, now, chip);
    second := d.TouchedChannel(ch, now, chip);
  }

  /** Making channel 5 a sensor clears its GPIO-enable bit, but making
      channel 6 an output afterwards forces GPIOEN back to all ones, so the
      sensor channel's bit ends up set again. */
  method StaleEnableBit(d: Device) returns (ok5: bool, ok6: bool)
    requires d.Valid()
    modifies d.channels, d`regs, d`log
    ensures d.channels[5].kind == SENSOR && d.channels[6].kind == GPIO_OUT
    ensures d.regs[GPIOEN] == 0xFF && Bit(d.regs[GPIOEN], 5 - 4)
  {
    ok5 := d.SetChannelType(5, SENSOR);
    ok6 := d.SetChannelType(6, GPIO_OUT);
  }

  /** Channels 0..3 cannot leave the sensor role: the request is refused
      and the device is left as it was. */
  method SensorOnlyChannel(d: Device, ch: nat, t: Uint8) returns (ok: bool)
    requires d.Valid() && ch <= 3 && t != SENSOR
    modifies d.channels, d`regs, d`log
    ensures !ok && d.channels[ch].kind == SENSOR
    ensures d.regs == old(d.regs) && d.log == old(d.log)
  {
    ok := d.SetChannelType(ch, t);
  }
}
