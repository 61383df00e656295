# MPR121 touch helper — a Dafny model

This project models `MPR121_Helper`, the wrapper that a capacitive-stream example sketch puts around the
Adafruit MPR121 driver. The MPR121 is a 12-electrode capacitive-touch chip. The wrapper keeps three pieces
of state:

- the current touch status word (bit `e` set means electrode `e` is touched);
- the previous status word, one generation older;
- a 12-entry cache of filtered (proximity) readings.

It answers per-electrode queries from that state: touched now, touched before, rising edge, falling edge,
the number of touched electrodes, and the cached reading. It also forwards threshold settings to the driver.

Files:

- `stdint.dfy` (module `StdInt`): `u8` and `u16` are the bit-vector types `bv8` and `bv16`. They are the C++
  `uint8_t` and `uint16_t`, including wrap-around.
- `touch_mask.dfy` (module `TouchMask`): what "bit `e` of a status word" means (`Bit`, defined by shifting
  right), and the reference definition of the touch count. That count is the size of the set of electrodes
  0..11 whose bit is set (`TouchedSet`, `TouchCount`). The lemmas here bound the count, show that bits
  12..15 never count, and link the source's test `(m & (1 << e)) != 0` to `Bit`.
- `mpr121_helper.dfy` (module `Mpr121`): the class `Helper`, with the source's fields.
  - `filteredDataCache` is a fixed array of 12 readings, updated in place.
  - The queries are functions that only read the fields.
  - The refresh methods and the loops are methods with loop invariants.
  - `forwarded` records every threshold pair handed to the driver.
- `scenarios.dfy` (module `Scenarios`): client code written against the contracts only. It covers polling
  cycles (first touch, a second electrode joining, releasing all electrodes), a proximity refresh, and the
  default-resetting threshold setters.

The driver is not part of this model. Its outputs become parameters:

- what `touched()` returns is the argument of `UpdateTouchData`;
- the twelve values that `filteredData(i)` returns are the argument of `UpdateFilteredData`;
- each call to the driver's `setThresholds` appears as one extra entry of `forwarded`.

## Model

| member | source | states |
|---|---|---|
| `Mpr121.Helper.constructor` | examples/mpr121-capacitive-stream/MPR121_Helper.h:16-24 | both status words are 0 and all 12 cached readings are 0, so no electrode reads as touched now or before, every reading is 0 and the touch count is 0; nothing is forwarded to the driver |
| `Mpr121.Helper.UpdateTouchData` | examples/mpr121-capacitive-stream/MPR121_Helper.h:27-30 | the previous word becomes the old current word and the current word becomes the driver's mask; afterwards `IsTouched` follows the new mask, `WasTouched` answers what `IsTouched` answered before, and the edges compare the two; the cache and the forwarded thresholds are unchanged |
| `Mpr121.Helper.UpdateFilteredData` | examples/mpr121-capacitive-stream/MPR121_Helper.h:33-37 | the cache, filled in place, equals the twelve readings, so `GetFilteredData(i)` returns reading `i` for every `i` up to 11; both status words are unchanged |
| `Mpr121.Helper.GetTouchData` | examples/mpr121-capacitive-stream/MPR121_Helper.h:40-43 | true exactly when `e` is at most 11 and bit `e` of the current word is set; it always agrees with `IsTouched` |
| `Mpr121.Helper.IsTouched` | examples/mpr121-capacitive-stream/MPR121_Helper.h:46-49 | true exactly when `e` is at most 11 and bit `e` of the current word is set; false for any electrode above 11 |
| `Mpr121.Helper.WasTouched` | examples/mpr121-capacitive-stream/MPR121_Helper.h:52-55 | true exactly when `e` is at most 11 and bit `e` of the previous word is set |
| `Mpr121.Helper.IsNewTouch` | examples/mpr121-capacitive-stream/MPR121_Helper.h:58-60 | rising edge: true exactly when `e` is at most 11, bit `e` is set in the current word and clear in the previous one |
| `Mpr121.Helper.IsNewRelease` | examples/mpr121-capacitive-stream/MPR121_Helper.h:63-65 | falling edge: true exactly when `e` is at most 11, bit `e` is clear in the current word and set in the previous one |
| `Mpr121.Helper.GetNumTouches` | examples/mpr121-capacitive-stream/MPR121_Helper.h:68-74 | the 8-bit count returned by the scan over electrodes 0..11 equals the number of those electrodes whose bit is set in the current word, and is at most 12 |
| `Mpr121.Helper.GetFilteredData` | examples/mpr121-capacitive-stream/MPR121_Helper.h:79-82 | 0 for any electrode above 11; otherwise the cached reading of that electrode; the cache is never indexed out of bounds |
| `Mpr121.Helper.SetThresholds` | examples/mpr121-capacitive-stream/MPR121_Helper.h:85-87 | exactly one pair is forwarded to the driver: the two thresholds, unchanged |
| `Mpr121.Helper.SetTouchThreshold` | examples/mpr121-capacitive-stream/MPR121_Helper.h:90-92 | exactly one pair is forwarded: the given touch threshold with the release threshold reset to 20 |
| `Mpr121.Helper.SetReleaseThreshold` | examples/mpr121-capacitive-stream/MPR121_Helper.h:94-96 | exactly one pair is forwarded: the touch threshold reset to 40 with the given release threshold |
| `Mpr121.OutOfRangeDefaults` | examples/mpr121-capacitive-stream/MPR121_Helper.h:40-82 | for any electrode above 11, all five boolean queries return false and `GetFilteredData` returns 0, whatever the state |
| `Mpr121.EdgesExclusive` | examples/mpr121-capacitive-stream/MPR121_Helper.h:58-65 | a rising edge and a falling edge never hold on the same electrode at once |
| `Mpr121.EdgeSets` | examples/mpr121-capacitive-stream/MPR121_Helper.h:58-65 | the new touches are the electrodes touched now minus those touched before; the new releases are the reverse difference |
| `TouchMask.MaskTestIsBit` | examples/mpr121-capacitive-stream/MPR121_Helper.h:42 | the source's test `(m & (1 << e)) != 0` holds exactly when bit `e` of `m` is set |
| `TouchMask.TouchedBelowStep` | examples/mpr121-capacitive-stream/MPR121_Helper.h:70-72 | scanning electrode `i` adds one to the count of touched electrodes below it exactly when bit `i` is set, which is the step of the counting loop |
| `TouchMask.TouchedBelowBound` | examples/mpr121-capacitive-stream/MPR121_Helper.h:68-74 | at most `n` of the electrodes below `n` are touched |
| `TouchMask.TouchCountBound` | examples/mpr121-capacitive-stream/MPR121_Helper.h:68-74 | the touch count of any status word is at most 12, so the 8-bit counter cannot wrap |
| `TouchMask.TouchCountAllSet` | examples/mpr121-capacitive-stream/MPR121_Helper.h:68-74 | when all twelve electrode bits are set the count is exactly 12, so the bound is reached |
| `TouchMask.HighBitsIgnored` | examples/mpr121-capacitive-stream/MPR121_Helper.h:68-74 | setting or clearing bits 12..15 of a status word never changes the set of touched electrodes, nor therefore the count |
| `Scenarios.RefreshTwice` | examples/mpr121-capacitive-stream/MPR121_Helper.h:27-30 | after two touch refreshes with `m1` then `m2`, `WasTouched(c)` is bit `c` of `m1` and `IsTouched(c)` is bit `c` of `m2` for every electrode `c` up to 11, and the rising edges are the bits set in `m2` and clear in `m1` |

## Left out

- The Adafruit MPR121 driver (`touched()`, `filteredData()`, `setThresholds()`) is not part of this model. It performs I2C bus I/O in a library outside the repository. Its results are parameters of the refresh methods, and its threshold call is recorded in `forwarded`. What the chip does with a threshold pair is not modelled, and neither are its debounce or calibration.
- The non-owning `sensor` reference to the driver and its lifetime are left out. A null or dangling reference is a C++ ownership concern and has no observable logic here. The constructor therefore takes no argument.
- Hardware errors of the driver are not modelled. The helper does not intercept them.
- The physical meaning of a reading ("higher means closer") is left out, because it is a property of the chip.
- Staleness of the cache before the first proximity refresh is not tracked, as in the source. Only the zero initial value is stated.
- The source's `uint8_t` loop counters in the constructor, `updateFilteredData` and `getNumTouches` are unbounded integers here. They stop at 12 and never come near 256. The touch count itself is kept as a `bv8`.
- C++ converts an electrode argument to `uint8_t` at the call site, so for example 256 becomes 0. That conversion belongs to callers and is not modelled: the queries take a `u8`.
- Queries that change no state are expressed by making them functions that only read the object. `Mpr121.Helper.UpdateTouchData` and `Mpr121.Helper.UpdateFilteredData` state what stays unchanged through their frames and their `ensures`.
