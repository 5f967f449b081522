# Lab2_digi3 selector and ADC drivers in Dafny

A Dafny model of the logic in the Raspberry Pi Pico firmware of
Lab2_digi3. It covers two pieces.

- **Rate/window selector** (`lib/util/util.c`, module `Util`, file `util.dfy`).
  Two fixed option tables: sample rate {500, 1000, 5000} Hz and averaging length {8, 32, 128, 512}.
  Two active-low buttons. Each button advances its table index, modulo the
  table length, on a high-to-low edge and raises a one-shot "changed" flag.
  The consume routines read that flag and clear it.
  The module statics become the fields of class `Util.Buttons`. Each method is proved against a pure
  specification on the `Util.Selector` value (`Poll`, `TaskStep`, `Consume`,
  `Reset`). The lemmas about runs of polls (`PollRun`, `Run`) state what the
  selector promises over time.
- **LM35 and LDR ADC drivers** (`lib/LM35/lm35.c`, `lib/ldr/ldr.c`, modules
  `Lm35` and `Ldr`, files `lm35.dfy` and `ldr.dfy`).
  Each driver keeps a reference voltage, a sample count and an "initialised" flag.
  `begin` substitutes defaults for zero arguments.
  A reading throws one conversion away and takes the floor mean of the next `n` conversions.
  It then scales the result to millivolts with `raw * vref / 4095`.
  The two files hold the same static `read_raw_avg` helper and the same
  scaling formula. Module `Adc` (`adc.dfy`) models them once, with the C
  integer widths written out: a 32-bit accumulator, a 64-bit product, and
  16-bit and 32-bit casts. The lemmas prove that the accumulator, the 16-bit
  cast and the 64-bit product never wrap. The 32-bit cast of the millivolt
  value could wrap only for a raw value above 4095, and every averaged
  reading is at most 4095.
  Module `Arith` (`arith.dfy`) holds the multiplication and division facts
  that these proofs and the selector's wrap-around proofs share.

The ADC is a parameter. A reading takes a sequence `conv` of 12-bit
conversions (`Adc.Sample`, 0..4095), and `conv[0]` is the discarded one.
Button levels are `bool` arguments, with `true` meaning released (pulled up).

The model follows the code as written:
- `util.c` detects a plain edge from one poll to the next, with no hold-time debounce.
- The power-up rate index is 1 (1000 Hz).
- None of the modelled files keeps a sliding-window ring buffer, a scheduler or a display cache, so none is modelled.

Discrepancies inside the source, noted and not modelled as defects:
- `lib/LM35/lm35.h:8` and `lib/ldr/ldr.h:8` declare `begin` with one parameter. The `.c` files take two: the reference voltage and the sample count.
- `lib/ldr/ldr.h:10` says a reading is a single conversion without averaging. `lib/ldr/ldr.c:21-30` averages, exactly like the LM35 driver.
- `lib/ldr/ldr.c:12-13` sets up GPIO27 as an ADC pin but selects ADC input 0. The header promises ADC1 on GPIO27.
- Before the first `begin`, both drivers hold a sample count of 16 (`Adc.InitialSamples`). The fallback for a zero count is 8 (`Adc.DefaultSamples`).

## Model

| member | source | states |
|---|---|---|
| `Util.Buttons.constructor` | lib/util/util.c:10-15 | power-up state: rate index 1, length index 0, both last levels high, both flags clear |
| `Util.Buttons.Begin` | lib/util/util.c:30-40 | records each button's current level and clears both flags; both indices are unchanged |
| `Util.Buttons.Task` | lib/util/util.c:42-58 | the new state is `TaskStep` of the old state and the two levels read; indices stay in range |
| `Util.Buttons.ConsumeFsChanged` | lib/util/util.c:23-25 | returns the rate flag as it was and clears it; everything else unchanged |
| `Util.Buttons.ConsumeNChanged` | lib/util/util.c:26-28 | returns the length flag as it was and clears it; everything else unchanged |
| `Util.Buttons.Fs` | lib/util/util.c:18 | the selected rate is one of 500, 1000, 5000 Hz |
| `Util.Buttons.N` | lib/util/util.c:19 | the selected length is one of 8, 32, 128, 512 |
| `Util.Buttons.PeriodUs` | lib/util/util.c:20 | the period is the floor of 1000000 / rate (never a division by zero), and is 2000, 1000 or 200 µs |
| `Util.PollAdvancesOnlyOnEdge` | lib/util/util.c:44-49 | a poll keeps the index in range; the index changes if and only if the last level was high and the new one is low, and then becomes `(idx + 1) mod len`; the stored level is the one read; the flag is raised on an edge and otherwise kept |
| `Util.HeldLevelNeverAdvances` | lib/util/util.c:45 | any number of polls at the remembered level, held low or left high, leave the button's state unchanged |
| `Util.TaskKeepsInvariant` | lib/util/util.c:46-57 | one task call keeps both indices inside their tables and stores both levels just read |
| `Util.TaskButtonsIndependent` | lib/util/util.c:42-58 | each button's new state does not depend on the other button's level; without an edge a button only updates its stored level |
| `Util.PollRunCountsEdges` | lib/util/util.c:44-49 | after any sequence of polls, index = (start + number of falling edges) mod len; the flag is raised iff it was raised or an edge occurred; the stored level is the last level read |
| `Util.RunIsPerButton` | lib/util/util.c:42-58 | a run of task calls is the two buttons' runs taken separately |
| `Util.ClicksCycleBack` | lib/util/util.c:46 | `len` press-and-release cycles bring a released button back to its starting index, with the flag raised |
| `Util.FullCycleRestoresOptions` | lib/util/util.c:6-7 | three rate clicks give back the starting rate; four length clicks give back the starting length |
| `Util.ConsumeIsOneShot` | lib/util/util.c:23-28 | a consume returns the flag, and a second consume with no task call between returns false; index and level untouched |
| `Util.EdgeRaisesFlag` | lib/util/util.c:45-55 | after a falling edge the next consume returns true; without an edge the task leaves the flag as it was |
| `Util.InitialSelection` | lib/util/util.c:10-11 | the power-up state selects 1000 Hz and 8 samples, with no pending change |
| `Adc.ReadRawAvg` | lib/LM35/lm35.c:21-30 | discards `conv[0]` and treats a request of 0 as 1; the result is the floor mean of the next n conversions, lies between their minimum and maximum, and is at most 4095; the 32-bit accumulator and the 16-bit cast never truncate |
| `Adc.ZeroRequestReadsOne` | lib/LM35/lm35.c:22 | a request for zero samples averages exactly the one conversion after the discarded one |
| `Adc.AccumulatorFits` | lib/LM35/lm35.c:25-28 | the sum of at most 65535 conversions is at most 4095 times their count, below 2^32 |
| `Adc.MeanWithinRange` | lib/LM35/lm35.c:29 | the floor mean of a window lies between its smallest and largest conversion |
| `Adc.MeanOfConstant` | lib/LM35/lm35.c:26-29 | averaging a burst of equal conversions returns that value |
| `Adc.Millivolts` | lib/LM35/lm35.c:38 | for any 16-bit raw the 64-bit product does not wrap, so the result is the floor of `raw * vref / 4095` reduced by the 32-bit cast; for raw up to 4095 (every averaged reading) the cast does not wrap either, and the result is exactly that floor, at most vref, 0 at raw 0 and exactly vref at raw 4095 |
| `Adc.ScalingNeverWraps` | lib/ldr/ldr.c:38 | the 64-bit product never wraps; for raw up to 4095 the quotient is at most vref and fits the 32-bit result |
| `Adc.MillivoltsMonotone` | lib/ldr/ldr.c:36-39 | a larger raw reading never gives fewer millivolts |
| `Lm35.Sensor.constructor` | lib/LM35/lm35.c:5-7 | power-up state: not initialised, 3300 mV, 16 samples |
| `Lm35.Sensor.Begin` | lib/LM35/lm35.c:9-19 | the ADC set-up runs on the first call only; vref is the argument if it is positive, else 3300; the sample count is the argument if it is positive, else 8 |
| `Lm35.Sensor.ReadRaw` | lib/LM35/lm35.c:32-34 | the stored count is never zero, so the zero-as-one fallback never applies; the result is the floor mean of the stored number of conversions after the discarded one, within their range |
| `Lm35.Sensor.ReadMillivolts` | lib/LM35/lm35.c:36-39 | the averaged reading scaled by the stored vref; never above vref |
| `Ldr.Sensor.constructor` | lib/ldr/ldr.c:5-7 | power-up state: not initialised, 3300 mV, 16 samples |
| `Ldr.Sensor.Begin` | lib/ldr/ldr.c:9-19 | the ADC set-up runs on the first call only; vref is the argument if it is positive, else 3300; the sample count is the argument if it is positive, else 8 |
| `Ldr.Sensor.ReadRaw` | lib/ldr/ldr.c:21-34 | the stored count is never zero, so the zero-as-one fallback never applies; the result is the floor mean of the stored number of conversions after the discarded one (the same averaging as `Adc.ReadRawAvg`), within their range |
| `Ldr.Sensor.ReadMillivolts` | lib/ldr/ldr.c:36-39 | the averaged reading scaled by the stored vref; never above vref |

## Left out

- Peripheral SDK calls (`gpio_init`, `gpio_set_dir`, `gpio_pull_up`, `gpio_get`, `adc_init`, `adc_gpio_init`, `adc_select_input`, `adc_read`, `sleep_us`) are foreign code. Button levels and ADC conversions are parameters. The one-off ADC set-up in `begin` appears only as the `inited` flag and a ghost count of set-ups.
- Which GPIO pin and ADC input each driver selects is hardware routing and is not modelled.
- `lm35_read_celsius`, `lm35_read_volts` and `ldr_read_volts` are not modelled, because they are floating-point divisions.
- `btn_pressed` and `btn_init` in `lib/buttons/button.h` are not modelled. They are a blocking debounce built on sleeps and busy-polling, plus GPIO configuration.
- `Lab02.c` is not modelled. It is a print-and-sleep demonstration loop.
- The ADC result is assumed to be 12 bits wide (`Adc.Sample`), as the hardware guarantees. A larger value from `adc_read` is not modelled.
- The 8-bit index casts in `utils_buttons_task` are not written out. The indices are proved to stay below 3 and 4, so the casts never truncate.
- A real ADC delivers conversions without end. The model needs the caller to pass at least one conversion more than the averaged count.
