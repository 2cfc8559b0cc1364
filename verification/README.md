# MPR121 capacitive-touch driver in Dafny

A model of the `Adafruit_MPR121` device controller, the Arduino driver for the
MPR121 twelve-channel capacitive-touch chip. The driver has four jobs:
- it resets and configures the chip (`initMPR121`, `setThresholds`);
- it assigns each channel a role: touch sensor, GPIO input or GPIO output. This takes read-modify-write cycles on the shared GPIO-enable, GPIO-direction and electrode-configuration (ECR) registers (`setChannelType`);
- it drives single GPIO bits at index `channel - 4` (`enablePullUp`, `enablePullDown`, `setGPIOEnabled`, `getGPIOStatus`);
- it reports touches (`touched()`, `touched(ch)`). The aggregate query uses an interrupt latch that clears on read. The per-channel query gates on role, interrupt state and a driver-side debounce time.

## How the model is built

- `defs.dfy` (module `Mpr121Defs`) holds the header's register addresses and role codes. It also holds the `Channel` record with its default initialisers and the layout of the 24 threshold registers.
- `bits.dfy` (module `BitOps`) holds the pure helpers on register values:
  - the two xor idioms `x ^= (-1 ^ x) & (1 << n)` and `x ^= (-0 ^ x) & (1 << n)`;
  - the and-not clear;
  - the shift-and-mask bit read;
  - the little-endian combine of a two-byte read;
  - the baseline scaling.
- `regfile.dfy` (module `RegisterFile`) replaces the I2C bus by a register file: a 256-entry sequence indexed by 8-bit address. Beside it sits the log of bus transactions (`Read8`, `Read16`, `Write`). `Apply` replays a log against a register file. The lemmas show that a register reads back the last value written to it and that reads change nothing.
- `device.dfy` (module `Mpr121`) holds the class `Device`. Its fields are the source's own: the twelve-entry channel table (an `array<Channel>`), `debounce`, `useIrq` and `interrupted`. Two more fields stand for the chip: the register file `regs` and the transaction `log`.
  - The class invariant `Valid()` says four things: the table has twelve entries with known roles; channels 0..3 are sensors; the debounce fits in 16 bits; and `regs` is exactly what replaying `log` against the power-on contents gives.
  - Every method states its new log and its new register file, and the lemmas beside it state what those mean.
  - Registers the chip drives itself (touch status, filtered data, baselines, GPIODATA, the CONFIG2 read-back) are not replayed from the log. They are inputs: the methods that read them take `chip`, the register contents the chip presents at that moment. The read is still logged.
  - The clock `millis()` becomes the parameter `now`.
- `scenarios.dfy` (module `Scenarios`) holds client call sequences. They show behaviour that spans several calls:
  - the interrupt latch is consumed by the first read;
  - polling ignores the latch;
  - the debounce window hides a touch that is still in progress;
  - `setChannelType` leaves other channels' GPIO bits stale.

Three behaviours of the source that a reader might not expect, and that the
model keeps as written:
- `setGPIOEnabled` sets bit `channel - 4` in both branches (Adafruit_MPR121.cpp:249 and :252). The comment at :252 says the bit is set to 0, but the disable branch sets it too and writes the byte to GPIOCLR.
- `setChannelType` first writes 0xFF to GPIOEN and GPIODIR (Adafruit_MPR121.cpp:116-117). It then adjusts only bit `channel - 4`, so the bits of every other channel end up set whatever their roles.
- In interrupt mode `touched()` returns only 0 or 1 (Adafruit_MPR121.cpp:333). So `touched(ch)` can report a touch only on channel 0.

## Model

| member | source | states |
|---|---|---|
| Mpr121Defs.UnknownRoleTest | Adafruit_MPR121.h:75-77 | the role codes are 0, 1, 2, so `type >= 3` holds exactly for codes that name no role |
| Mpr121Defs.FreshChannelDefaults | Adafruit_MPR121.h:116-121 | a default-initialised channel is a sensor, not touched, GPIO low, last touch 0 |
| Mpr121Defs.TouchThreshold | Adafruit_MPR121.h:47 | channel i's touch threshold lives at 0x41 + 2i, inside 0x41..0x58 and outside every chip-driven register |
| Mpr121Defs.ReleaseThreshold | Adafruit_MPR121.h:48 | channel i's release threshold lives at 0x42 + 2i, inside 0x41..0x58 and outside every chip-driven register |
| Mpr121Defs.ThresholdChannel | Adafruit_MPR121.cpp:264-265 | every address in 0x41..0x58 is the touch or the release register of exactly the channel this returns |
| Mpr121Defs.ThresholdLayout | Adafruit_MPR121.h:47-48 | the 24 threshold registers are pairwise distinct and each maps back to its own channel and half |
| RegisterFile.LastWrite | Adafruit_MPR121.cpp:370-375 | None exactly when the log never writes the address; otherwise the value of a write with no later write to that address |
| RegisterFile.ReadReturnsLastWrite | Adafruit_MPR121.cpp:347-375 | after replaying a log, a register holds the last value written to it, or its earlier value if never written |
| RegisterFile.ApplyAppend | Adafruit_MPR121.cpp:370-375 | replaying two logs one after the other is replaying their concatenation |
| RegisterFile.ApplyWrite | Adafruit_MPR121.cpp:370-375 | one more logged write stores its value in that register and keeps every other register |
| RegisterFile.ApplyRead | Adafruit_MPR121.cpp:347-363 | one more logged read leaves the register file as it was |
| RegisterFile.ReadsChangeNothing | Adafruit_MPR121.cpp:347-363 | a log of reads only leaves the register file as it was |
| RegisterFile.ControlRegistersDistinct | Adafruit_MPR121.h:49-73 | SOFTRESET, ECR, CONFIG2 and the GPIO registers 0x73..0x7A are pairwise distinct, so a write to one leaves the others unchanged |
| BitOps.OrMaskBit | Adafruit_MPR121.cpp:132 | or-ing in bit n's mask sets bit n and keeps every other bit |
| BitOps.AndNotMaskBit | Adafruit_MPR121.cpp:205 | and-ing with the complement of bit n's mask clears bit n and keeps every other bit |
| BitOps.SetBitIdiom | Adafruit_MPR121.cpp:177 | `x ^= (-1 ^ x) & (1 << n)` on a byte is `x` with bit n set, every other bit kept |
| BitOps.ClearBitIdiom | Adafruit_MPR121.cpp:128 | `x ^= (-0 ^ x) & (1 << n)` on a byte is `x` with bit n cleared, every other bit kept |
| BitOps.ClearBitMask | Adafruit_MPR121.cpp:205 | `x &= ~(1 << n)` agrees with the xor clear idiom: bit n cleared, every other bit kept |
| BitOps.ShiftedBit | Adafruit_MPR121.cpp:233 | `(x >> n) & 1` is true exactly when bit n of `x` is set |
| BitOps.Combine16 | Adafruit_MPR121.cpp:360-361 | the first byte of a two-byte read is the low half of the word, the second the high half |
| BitOps.Combine16Split | Adafruit_MPR121.cpp:360-361 | every 16-bit word is the combine of its own two bytes, so the combine is a bijection |
| BitOps.BaselineScale | Adafruit_MPR121.cpp:284-285 | the baseline byte shifted left by two is four times the byte, at most 0x3FC, low two bits clear |
| Mpr121.EnableMask | Adafruit_MPR121.cpp:116-133 | GPIOEN after an accepted setChannelType has every bit set except bit ch-4 of a sensor channel 4..11 |
| Mpr121.DirectionMask | Adafruit_MPR121.cpp:117-142 | GPIODIR after an accepted setChannelType has every bit set except bit ch-4 of a GPIO input |
| Mpr121.MaxElectrodeBelow | Adafruit_MPR121.cpp:146-155 | the scan's result is the highest channel below n with role SENSOR, or 0 if there is none |
| Mpr121.MaxElectrodeIsHighestSensor | Adafruit_MPR121.cpp:146-158 | with channels 0..3 sensors, the value written to ECR is a sensor channel from 3 to 11 with only GPIO channels above it |
| Mpr121.ThresholdOps | Adafruit_MPR121.cpp:262-267 | setThresholds issues exactly 24 transactions |
| Mpr121.ThresholdOpsAt | Adafruit_MPR121.cpp:264-265 | transaction 2i writes the touch value to channel i's touch register, transaction 2i+1 the release value to its release register |
| Mpr121.ThresholdOpsStep | Adafruit_MPR121.cpp:263-266 | each pass of the loop appends channel i's touch write and then its release write |
| Mpr121.ThresholdsUpToStep | Adafruit_MPR121.cpp:263-266 | each pass of the loop sets exactly channel i's two threshold registers |
| Mpr121.AggregateMask | Adafruit_MPR121.cpp:329-342 | the aggregate touch mask never exceeds 0x0FFF |
| Mpr121.IrqMaskBits | Adafruit_MPR121.cpp:332-333 | in interrupt mode bit 0 of the mask is the latch and no other bit is ever set |
| Mpr121.PollingMaskBits | Adafruit_MPR121.cpp:334-336 | in polling mode bit i of the mask is bit i of the status word for the 12 electrodes and clear above them |
| Mpr121.PollingIgnoresLatch | Adafruit_MPR121.cpp:334-336 | in polling mode the mask does not depend on the interrupt latch |
| Mpr121.IrqMaskOnlyChannelZero | Adafruit_MPR121.cpp:332-333 | in interrupt mode no channel other than 0 is ever set in the mask |
| Mpr121.TouchUpdate | Adafruit_MPR121.cpp:312-324 | a touch evaluation sets the touched state to the mask bit and moves the timestamp to now only on a touch; role and GPIO level are kept |
| Mpr121.TouchUpdateIdempotent | Adafruit_MPR121.cpp:311-325 | evaluating the same bit at the same time twice equals evaluating it once, so the twelve passes of the loop act as one |
| Mpr121.Device.constructor | Adafruit_MPR121.h:116-129 | twelve default channels, debounce 0, interrupt mode and latch off, empty log, register file at its power-on contents |
| Mpr121.Device.ReadReturnsLastWritten | Adafruit_MPR121.cpp:347-375 | on a valid device every register holds the last value the driver wrote to it, or its power-on value |
| Mpr121.Device.WriteRegister | Adafruit_MPR121.cpp:370-375 | a write stores its value in the register, appends itself to the log and keeps the invariant |
| Mpr121.Device.ReadRegister8 | Adafruit_MPR121.cpp:347-353 | a read returns the register's current value, is logged, and changes no register |
| Mpr121.Device.ReadChip8 | Adafruit_MPR121.cpp:347-353 | a read of a chip-driven register returns what the chip presents, is logged, and changes no register |
| Mpr121.Device.ReadChip16 | Adafruit_MPR121.cpp:355-363 | a two-byte read returns the little-endian combine of the two registers, is logged once, and changes no register |
| Mpr121.Device.Init | Adafruit_MPR121.cpp:38-85 | interrupt mode off on both paths; success exactly when CONFIG2 reads back 0x24; on failure only SOFTRESET←0x63 then ECR←0 were written; on success every touch threshold is 12, every release threshold 6, the filter settings are in place, CONFIG2 is 0x20, ECR ends 0x8F, and no other register changed |
| Mpr121.Device.ResetChip | Adafruit_MPR121.cpp:42-53 | soft reset then electrodes off, then the CONFIG2 read-back returned |
| Mpr121.Device.Configure | Adafruit_MPR121.cpp:58-83 | thresholds 12/6 on every channel, filter settings, CONFIG2 0x20, ECR 0x8F, and nothing outside those registers changes |
| Mpr121.Device.WriteFilterSettings | Adafruit_MPR121.cpp:59-75 | the rising, falling and touched filter registers, DEBOUNCE, CONFIG1 and CONFIG2 take the listed values in order, and no other register changes |
| Mpr121.Device.WriteRisingFilter | Adafruit_MPR121.cpp:59-62 | MHDR, NHDR, NCLR, FDLR written in order with 0x01, 0x01, 0x0E, 0x00 |
| Mpr121.Device.WriteFallingFilter | Adafruit_MPR121.cpp:64-67 | MHDF, NHDF, NCLF, FDLF written in order with 0x01, 0x05, 0x01, 0x00 |
| Mpr121.Device.WriteTouchedFilter | Adafruit_MPR121.cpp:69-71 | NHDT, NCLT, FDLT written in order with 0 |
| Mpr121.Device.WriteChargeConfig | Adafruit_MPR121.cpp:73-75 | DEBOUNCE←0, CONFIG1←0x10, CONFIG2←0x20 in order |
| Mpr121.Device.SetThresholds | Adafruit_MPR121.cpp:262-267 | the log grows by the 24 interleaved threshold writes; every threshold register holds the touch or release value by its half, every other register is unchanged |
| Mpr121.Device.WriteThresholdPair | Adafruit_MPR121.cpp:264-265 | channel i's touch register then its release register are written |
| Mpr121.Device.SetThreshholds | Adafruit_MPR121.cpp:258-260 | the deprecated spelling has exactly the effect of setThresholds |
| Mpr121.Device.SetDebounce | Adafruit_MPR121.cpp:92-94 | the device-wide debounce becomes the given 16-bit value |
| Mpr121.Device.SetChannelType | Adafruit_MPR121.cpp:101-161 | a non-sensor role on channels 0..3 or a code of 3 or more is refused with false and changes nothing; otherwise only channel ch's role changes, GPIOEN and GPIODIR end as the role's masks, ECR gets the highest sensor channel, GPIOCLR gets 0xFF, in the source's transaction order |
| Mpr121.Device.WriteGpioRole | Adafruit_MPR121.cpp:116-143 | GPIOEN and GPIODIR are forced to all ones, read back and rewritten with bit ch-4 adjusted for the role; GPIODIR is re-read only for a GPIO role |
| Mpr121.Device.MaxElectrode | Adafruit_MPR121.cpp:146-155 | the scan returns a sensor channel with no sensor channel above it, and changes nothing |
| Mpr121.Device.EnablePullUp | Adafruit_MPR121.cpp:168-188 | true exactly for a GPIO input, otherwise nothing changes; on success only GPIOCTL0/GPIOCTL1 change, each gaining bit ch-4 and keeping every other bit |
| Mpr121.Device.EnablePullDown | Adafruit_MPR121.cpp:195-215 | true exactly for a GPIO input, otherwise nothing changes; on success GPIOCTL0 gains bit ch-4 and GPIOCTL1 loses it, every other bit kept |
| Mpr121.Device.GetGpioStatus | Adafruit_MPR121.cpp:225-236 | false with no effect for channels 0..3 and sensors; an output's cached level with no read; for an input, bit ch-4 of GPIODATA, stored as the channel's level |
| Mpr121.Device.SetGpioEnabled | Adafruit_MPR121.cpp:242-255 | nothing for a sensor channel; otherwise GPIOSET is read and written back with bit ch-4 set, to GPIOSET when enabling and to GPIOCLR when disabling, and the channel table is untouched |
| Mpr121.Device.UseIrq | Adafruit_MPR121.cpp:269-271 | interrupt mode becomes the given value |
| Mpr121.Device.FireIrq | Adafruit_MPR121.cpp:273-275 | the interrupt latch is set |
| Mpr121.Device.FilteredData | Adafruit_MPR121.cpp:277-280 | 0 with no bus traffic for an electrode above 12, otherwise the little-endian word at 0x04 + 2t |
| Mpr121.Device.BaselineData | Adafruit_MPR121.cpp:282-286 | 0 with no bus traffic for an electrode above 12, otherwise four times the baseline byte at 0x1E + t |
| Mpr121.Device.TouchedMask | Adafruit_MPR121.cpp:329-342 | the latch in interrupt mode, the status word's 12 electrode bits in polling mode (read from the bus only then); the latch is clear afterwards |
| Mpr121.Device.RecordTouch | Adafruit_MPR121.cpp:312-324 | one loop pass updates only channel ch as a touch evaluation, and clears the latch on a touch |
| Mpr121.Device.EvaluateTouch | Adafruit_MPR121.cpp:310-326 | past the three gates: the result is bit ch of the aggregate mask and is recorded in channel ch as a touch evaluation, every other channel is kept, the latch ends clear, and the bus is read only in polling mode |
| Mpr121.Device.TouchedChannel | Adafruit_MPR121.cpp:291-327 | false with no change for an output, for interrupt mode without a pending interrupt, or inside the debounce window; otherwise the result is bit ch of the aggregate mask, recorded in the channel, the timestamp moves only on a touch, the latch is clear; in interrupt mode only channel 0 can be reported touched |
| Scenarios.LatchReadOnce | Adafruit_MPR121.cpp:329-342 | in interrupt mode an interrupt is reported as 1 by the first aggregate read and as 0 by the next |
| Scenarios.PollingIgnoresInterrupt | Adafruit_MPR121.cpp:334-336 | in polling mode an interrupt between two reads does not change the reported mask |
| Scenarios.DebounceHidesTouch | Adafruit_MPR121.cpp:304-317 | with a nonzero debounce, a second query at the time of an accepted touch returns false while the channel's recorded state stays touched |
| Scenarios.StaleEnableBit | Adafruit_MPR121.cpp:116-129 | a sensor channel's cleared GPIO-enable bit is set again when another channel is later made an output |
| Scenarios.SensorOnlyChannel | Adafruit_MPR121.cpp:102-105 | channels 0..3 stay sensors: the request is refused and no register or log entry changes |

## Left out

- The I2C transport is not modelled: `Wire` calls, the bus address, and the unbounded busy-wait for the requested byte count in `readRegister8`/`readRegister16`. Every read and write is one atomic step on the register file.
- `begin` and its pin overloads are not modelled. Nor are `delay(1)` after the soft reset and the empty debug loop in `initMPR121`. They hold no logic the driver's state depends on.
- What the soft reset does on the chip is not modelled. The register file keeps its contents across it, and only the CONFIG2 read-back is taken as an input.
- What register values mean on the chip is not modelled: filter constants, ECR encoding, charge current. They are opaque bytes.
- Registers the chip drives itself are inputs (`chip`), not part of the replayed register file. These are the touch status, filtered data, baselines, GPIODATA and the CONFIG2 read-back. The model says nothing about how they change between calls.
- `millis()` becomes the parameter `now`, read once per call. The 32-bit wrap-around and the signed/unsigned mix in the comparison at line 305 are not modelled. The source reads the clock again inside the loop of `touched(ch)`; the model uses the same `now` there.
- `fireIRQ` runs from an interrupt handler in the source. Here it is an ordinary method, so interleavings with the other methods are not modelled.
- Mpr121.Device.SetChannelType: on the accepted path the source falls off the end without a `return`, so its result is undefined. The model leaves `ok` unconstrained there and proves nothing about it.
- Mpr121.EnableMask: for a sensor on channels 0..3 the source shifts by a negative amount, which is undefined. The model leaves GPIOEN at 0xFF there and applies the clear idiom only from channel 4.
- The branch of the ECR scan meant to detect a GPIO channel below a sensor channel is empty in the source. No check or error is invented for it.
- The source's constructor (Adafruit_MPR121.cpp:19-20) initialises neither `_useIRQ` nor `_interrupted` (Adafruit_MPR121.h:128-129). `initMPR121` later sets `_useIRQ` to false (Adafruit_MPR121.cpp:40), and nothing sets `_interrupted` before the first `fireIRQ` or `touched()`. The model's constructor gives both the value false.
- The channel-indexed methods and `SetDebounce` require their arguments in range (a 16-bit debounce, channel below 12). The source takes `uint16_t` and never checks the channel index against the table size.
