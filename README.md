# PyBadge button driver — a Dafny model

This project models the button driver of the `pybadge-high` board-support crate
(`pybadge-high/src/buttons.rs`). The PyBadge's eight buttons (B, A, Start,
Select, Right, Down, Up, Left) sit behind an MC74HC165 parallel-in/serial-out
shift register. `Buttons::update()` latches the register and clocks out eight
bits. For each bit it shifts the partial byte left by one and sets bit 0 when
the data line is high. It then moves the old `current_state` into
`laste_state` and stores the new byte. The per-button queries test one mask
bit of `current_state`.

The model is one module, `Buttons` (`buttons.dfy`):

- `Buttons.Buttons` is a class with the driver's fields. `currentState` and
  `lastState` are `bv8`, the driver's `u8`; `lastState` is the driver's
  `laste_state`. The three pins are values of type `Pin`.
- `Update(samples)` is the sampling loop. `samples[i]` is the level of the
  data line at the i-th clock pulse, so the hardware read becomes an input.
  The loop uses the same `bv8` shift and OR as the driver. It is proved
  against `Weighted`, the MSB-first weighted sum of the samples, and its loop
  invariant bounds the partial byte by 2^k.
- `SampledByte` and `SamplesOf` are inverse maps between 8-sample strings and
  bytes. `MaskBit` and `WeightedBitAt` connect the mask tests to arithmetic
  bits.

The `any_pressed`/`none_pressed` pair is modelled as written, that is
inverted. See "## Findings".

Where the documentation and the code differ, the model follows the code.
The doc comment of `event()` promises an iterator of button changes, but the
function body is empty, so no press/release events are modelled. The data-line
read is unwrapped, and its error type cannot occur on this pin, so `Update`
has no error path.

## Model

| member | source | states |
|---|---|---|
| Buttons.Buttons.constructor | pybadge-high/src/lib.rs:90-96 | A freshly built driver has both bytes zero and keeps the given pins; every per-button query is false, `AnyPressed` is true and `NonePressed` false |
| Buttons.Buttons.Update | pybadge-high/src/buttons.rs:88-111 | Changes only `currentState` and `lastState` (the pins are untouched); `lastState` is the old `currentState`; `currentState` is the MSB-first weighted sum of the eight samples; query i reports sample i (B first, LEFT last) |
| Buttons.ShiftIn | pybadge-high/src/buttons.rs:97-105 | One loop iteration: a partial byte of k < 8 samples is below 2^k, so shift-left-and-set-bit-0 loses nothing and yields the value of k + 1 samples, still below 2^(k+1) |
| Buttons.ShiftLeftDoubles | pybadge-high/src/buttons.rs:98 | `<<= 1` on a byte below 128 doubles its value |
| Buttons.SetLowBit | pybadge-high/src/buttons.rs:103-105 | Setting bit 0 (OR with 1) of an even byte adds exactly one |
| Buttons.WeightedBound | pybadge-high/src/buttons.rs:94-99 | k samples give a value below 2^k, so eight samples fit in a `u8` |
| Buttons.WeightedAppend | pybadge-high/src/buttons.rs:97-105 | Taking one more sample doubles the value and adds the new bit |
| Buttons.WeightedBitAt | pybadge-high/src/buttons.rs:94-107 | Sample i of an MSB-first bit string of length n is bit n - 1 - i of its value |
| Buttons.MaskBit | pybadge-high/src/buttons.rs:41-71 | A byte ANDed with the single-bit mask 1 << k is nonzero exactly when bit k of its value is 1 |
| Buttons.SampledByte | pybadge-high/src/buttons.rs:10-17 | The byte for eight samples, built button by button: its B bit is set exactly when sample 0 is high, its A bit exactly when sample 1 is, and so on down to LEFT and sample 7 |
| Buttons.SampledByteMasks | pybadge-high/src/buttons.rs:10-17 | The same per-button statement over the masks in register order: mask i of the sampled byte is set exactly when sample i is high |
| Buttons.SampledByteBits | pybadge-high/src/buttons.rs:94-110 | A byte whose value is the weighted sum of eight samples has mask i set exactly when sample i is high |
| Buttons.ValueDeterminesByte | pybadge-high/src/buttons.rs:94-110 | The only byte whose value is the weighted sum of the samples is the sampled byte |
| Buttons.PressedMatchesSamples | pybadge-high/src/buttons.rs:10-71 | After sampling, `BPressed` reports sample 0, `APressed` sample 1, and so on down to `LeftPressed`, which reports sample 7 |
| Buttons.SamplesOf | pybadge-high/src/buttons.rs:94-110 | The eight samples built from a byte m are sampled back to exactly m |
| Buttons.UpdateStoresByte | pybadge-high/src/buttons.rs:88-111 | For every byte m, one update with the data line forced to the bits of m, B first, stores m and moves the old current byte into the previous one |
| Buttons.SampleRoundTrip | pybadge-high/src/buttons.rs:94-110 | The stored byte determines the eight samples it came from |
| Buttons.SameMaskBits | pybadge-high/src/buttons.rs:10-17 | Two bytes that agree on all eight button masks are equal |
| Buttons.MaskAt | pybadge-high/src/buttons.rs:10-17 | Mask i in register order is 1 << (7 - i) |
| Buttons.MasksPartition | pybadge-high/src/buttons.rs:10-17 | The masks in register order are 1 << 7 down to 1 << 0; they are pairwise disjoint and their union is 0xFF |
| Buttons.Buttons.AnyPressed | pybadge-high/src/buttons.rs:31-34 | As written: true exactly when no per-button query is true |
| Buttons.Buttons.NonePressed | pybadge-high/src/buttons.rs:36-39 | As written: true exactly when some per-button query is true; it is the negation of `AnyPressed` |
| Buttons.Buttons.APressed | pybadge-high/src/buttons.rs:41-43 | True exactly when bit 6 of `currentState` is 1 |
| Buttons.Buttons.BPressed | pybadge-high/src/buttons.rs:45-47 | True exactly when bit 7 of `currentState` is 1 |
| Buttons.Buttons.StartPressed | pybadge-high/src/buttons.rs:49-51 | True exactly when bit 5 of `currentState` is 1 |
| Buttons.Buttons.SelectPressed | pybadge-high/src/buttons.rs:53-55 | True exactly when bit 4 of `currentState` is 1 |
| Buttons.Buttons.RightPressed | pybadge-high/src/buttons.rs:57-59 | True exactly when bit 3 of `currentState` is 1 |
| Buttons.Buttons.DownPressed | pybadge-high/src/buttons.rs:61-63 | True exactly when bit 2 of `currentState` is 1 |
| Buttons.Buttons.UpPressed | pybadge-high/src/buttons.rs:65-67 | True exactly when bit 1 of `currentState` is 1 |
| Buttons.Buttons.LeftPressed | pybadge-high/src/buttons.rs:69-71 | True exactly when bit 0 of `currentState` is 1 |
| Buttons.UpdateTwiceSame | pybadge-high/src/buttons.rs:109-110 | Two consecutive updates with the same samples leave `currentState == lastState`, both equal to the sampled byte |
| Buttons.AnyPressedInverted | pybadge-high/src/buttons.rs:32-39 | With only B held, `BPressed` is true but `AnyPressed` is false and `NonePressed` true; the documented versions answer the other way |
| Buttons.Buttons.AnyPressedAsDocumented | pybadge-high/src/buttons.rs:31-34 | Corrected `any_pressed`: true exactly when some per-button query is true; it agrees with the as-written `NonePressed` |
| Buttons.Buttons.NonePressedAsDocumented | pybadge-high/src/buttons.rs:36-39 | Corrected `none_pressed`: true exactly when no per-button query is true; it is the negation of the corrected `AnyPressed` |

## Findings

| source | as written | input that shows it | evidently intended | confidence | as-written member | corrected member |
|---|---|---|---|---|---|---|
| pybadge-high/src/buttons.rs:31-39 | `any_pressed` returns `current_state == 0` and `none_pressed` returns `current_state != 0` | only B held (`current_state == 0x80`): `any_pressed()` is false and `none_pressed()` is true | `any_pressed` is `current_state != 0` and `none_pressed` is `current_state == 0`, as their doc comments say | high; not executed | Buttons.Buttons.AnyPressed, Buttons.AnyPressedInverted | Buttons.Buttons.AnyPressedAsDocumented, Buttons.Buttons.NonePressedAsDocumented |

The class keeps the as-written `AnyPressed` and `NonePressed`, because callers of the driver get that behaviour.

## Left out

- `event()` (buttons.rs:74) is an empty function that returns nothing. The press/release enumeration its doc comment mentions does not exist in the code, so none is modelled.
- Pin toggling and timing in `update()`: the latch pulse, the clock pulses and the `cycle_delay` waits (buttons.rs:90-93, 100-101, 106). These are hardware timing with no effect on the stored bytes. `Pin` values only identify the pins; their output levels are not modelled.
- `data_in.is_high().unwrap()` (buttons.rs:103) becomes the input `samples[i]`. The read cannot fail on this pin type, so there is no error path.
- The eight data-line reads of one `update()` become one input of exactly eight samples. The driver always reads exactly eight times, so this requirement does not restrict callers.
- `pybadge-high/src/flash.rs`, `sound.rs`, `time.rs` and `usb.rs` are not part of this model. They are thin wrappers over the board's hardware abstraction layer, interrupt handlers or USB stacks, with no driver-side logic to state.
- `pybadge-high/src/lib.rs` is modelled only where it builds the button driver (lib.rs:90-96, the constructor). The peripheral hand-out, clock and display set-up, the LED wrapper and the panic screen are initialization glue.
- The demo programs use the board's drivers (buttons, display, LED, speaker, flash, uptime, USB, NeoPixel); none adds logic to the button driver.
