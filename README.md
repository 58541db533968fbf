# raspberry-game drivers in Dafny

A model of the two bit-level drivers in `src/main.rs` of the raspberry-game
program, with proofs about them.

- **ADC0834 read.** `Adc0834::read` bit-bangs one conversion out of an
  ADC0834 converter over three GPIO lines: chip-select, clock and a
  bidirectional data line. Step by step it selects the chip and clocks out
  four header bits: start, SGL/DIF, ODD/SIGN and SELECT1. It waits half a
  cycle for the multiplexer and turns the data line to input. It then
  samples eight bits MSB-first into `value1` and eight more LSB-first into
  `value2`. Finally it releases the chip, turns the data line back to
  output, and returns `value1` if the two agree and 0 if not.
- **LCD.** The `Lcd` driver talks to an HD44780-style controller in 4-bit
  mode through an I2C port expander. Every command or data byte becomes
  four expander writes: each nibble is sent once with the enable strobe
  (EN) set and once with it clear. RS selects the instruction or the data
  register, and the backlight bit is always on.

The model has four modules:

- `Sequences` (`sequences.dfy`): generic facts about concatenation and
  slicing that the other proofs cite.
- `SerialBits` (`serial_bits.dfy`): the value of a run of sampled bits,
  read MSB-first or LSB-first. It also carries the u8 arithmetic `read`
  uses to build those values, modelled on `bv8`.
- `Adc0834Driver` (`adc0834.dfy`): the three pins.
  - The driver is the class `Adc0834`. Its fields are the chip-select
    level, the clock level, the data-line mode and an append-only trace
    of pin events.
  - The converter is replaced by the sixteen levels it presents on the
    data line during one transaction.
  - `ReadTrace` is the reference for one transaction: the exact event
    sequence `read` produces. `ReadResult` is the value `read` returns.
  - A pin state machine (`Legal`, `Obeys`) states the pin discipline.
- `LcdDriver` (`lcd.dfy`): the I2C bus as the sequence of bytes written to
  it.
  - The class `Lcd` appends to that sequence.
  - The reference is the controller's side: `Latches` latches D4-D7 and
    RS on every falling EN edge, and `Assemble` rebuilds bytes from
    nibble pairs. `ControllerReceives` proves the bytes on the bus decode
    to exactly the transfers that were sent.

Rust's `u8` is `bv8` throughout. Shifts drop high bits as Rust's `<<` on
`u8` does. Where Rust would panic on overflow, a lemma shows that the
overflow cannot happen.

## Model

| member | source | states |
|---|---|---|
| Adc0834Driver.Adc0834.Read | src/main.rs:116-176 | The pins go through exactly `ReadTrace(channel, samples)`, appended to the trace, and every event obeys the pin discipline from the state `read` started in. The call ends with chip-select high, the clock low and the data line in Output mode, after 16 samples. The result as a number is `ReadResult(samples)`. |
| Adc0834Driver.Adc0834.SendHeader | src/main.rs:117-145 | Appends the header (select, Output, four clocked bits, settle, Input) and leaves the pins in the sampling state (selected, clock low, Input). |
| Adc0834Driver.Adc0834.SetChipSelect | src/main.rs:117 | `cs.set_low()` here and `cs.set_high()` at line 166: appends the chip-select event and changes only the chip-select level. Lowering it restarts the converter's count of served bits. |
| Adc0834Driver.Adc0834.SetDataMode | src/main.rs:119 | `dio.set_mode(..)` here and at lines 145 and 169: appends the mode change and changes only the data-line mode. |
| Adc0834Driver.Adc0834.WriteData | src/main.rs:123 | `dio.set_high()` here and at line 128, `dio.write(..)` at lines 133 and 138: appends the driven level and leaves all three pin levels as they were. |
| Adc0834Driver.Adc0834.ReadData | src/main.rs:153 | `dio.read()` here and at line 159: returns `samples[served]`, the converter's next bit, and low once all sixteen have been read. It appends that level as a sample, leaves the pins as they were and counts one more served bit. |
| Adc0834Driver.Adc0834.ClockOutBit | src/main.rs:122-124 | One header bit: clock low, drive the level, clock high. |
| Adc0834Driver.Adc0834.ShiftInMsbFirst | src/main.rs:148-154 | Appends the first pass (clock high, clock low, sample, eight times). `value1` is then the u8 shift-then-OR accumulation of the eight samples. |
| Adc0834Driver.Adc0834.ShiftInLsbFirst | src/main.rs:157-163 | Appends the second pass (sample, clock high, clock low, eight times). `value2` is then sample i ORed in at place i, for i = 0..7. |
| Adc0834Driver.Adc0834.SampleMsb | src/main.rs:150-153 | One iteration of the first loop: a rising and a falling clock edge, then a sample; `value1` shifted left with the sample ORed in at bit 0 is the u8 MSB-first value of one more sample. |
| Adc0834Driver.Adc0834.SampleLsb | src/main.rs:159-162 | One iteration of the second loop, on the trace and on `value2`. |
| Adc0834Driver.Adc0834.SetClockHigh | src/main.rs:178-181 | Appends a rising clock edge and sets the clock field; nothing else changes. |
| Adc0834Driver.Adc0834.SetClockLow | src/main.rs:183-186 | Appends a falling clock edge and clears the clock field; nothing else changes. |
| Adc0834Driver.Adc0834.constructor | src/main.rs:107-114 | `Adc0834::new` keeps the chip-select and clock levels it is handed, puts the data line into Output mode and logs that mode change. |
| SerialBits.MsbByteValue | src/main.rs:148-154 | Eight samples shifted in MSB-first never overflow the u8: the byte equals the MSB-first value. |
| SerialBits.MsbFirstBits | src/main.rs:148-154 | Closed form of MSB-first: sample k (k = 0..7) is bit 7 - k of `value1`, i.e. value1 = sum of r_k * 2^(7-k). |
| SerialBits.LsbByteValue | src/main.rs:157-163 | ORing sample i in at place i gives the byte whose value is the LSB-first value of the eight samples. |
| SerialBits.LsbFirstBits | src/main.rs:157-163 | Closed form of LSB-first: sample i of the second pass is bit i of `value2`, i.e. value2 = sum of r_(8+i) * 2^i. |
| SerialBits.AgreeIffReversed | src/main.rs:171-175 | The MSB-first value of one run equals the LSB-first value of another run of the same length exactly when the second run is the first one reversed (both directions). |
| Adc0834Driver.ReadResult | src/main.rs:171-175 | The returned value is below 256 and is either 0 or the MSB-first value of the first eight samples. |
| Adc0834Driver.ReadByteValue | src/main.rs:148-175 | The u8 `read` returns (`value1` if equal to `value2`, else 0) has the value `ReadResult(samples)`. |
| Adc0834Driver.ReadResultAgreement | src/main.rs:171-175 | When samples 9-16 are samples 1-8 reversed, `read` returns the first pass's value; otherwise it returns 0. |
| Adc0834Driver.ReadOfCleanConversion | src/main.rs:148-175 | For a converter that repeats its eight bits LSB-first, `read` returns their MSB-first value, with bit k of the stream at place 7 - k. |
| Adc0834Driver.MuxAddress | src/main.rs:131-139 | For channels 0-3, 2 * SELECT1 + ODD/SIGN is the channel number. |
| Adc0834Driver.HeaderProjections | src/main.rs:117-145 | The header drives exactly 1, 1, `channel % 2 != 0`, `channel > 1` onto the data line, samples nothing and switches the data line to Output, then to Input. |
| Adc0834Driver.HeaderObeys | src/main.rs:117-145 | From any pin state the header obeys the pin discipline (each bit is written with the chip selected, the clock low and the line in Output) and ends in the sampling state. |
| Adc0834Driver.ReadTraceObeys | src/main.rs:117-169 | From any pin state the whole transaction obeys the pin discipline: no clock edge while deselected, no write unless in Output, no sample unless in Input, both only with the chip selected and the clock low. It ends with chip-select high, the clock low and the line in Output. |
| Adc0834Driver.ReadTraceProjections | src/main.rs:117-169 | Over the whole transaction the data line is driven with 1, 1, ODD/SIGN, SELECT1. It is sampled exactly sixteen times, in order, and goes Output, Input, Output. |
| Adc0834Driver.ReadTraceFraming | src/main.rs:117-169 | Chip-select goes low at the first event and high at the second-to-last, the last event turns the data line back to Output, and no event in between touches chip-select. Every clock edge and all sixteen samples lie strictly between the two chip-select events. Every data write sits between a falling and a rising clock edge. |
| LcdDriver.FramesShape | src/main.rs:36-74 | Every byte of a transfer has the backlight bit set. EN is set in bytes 1 and 3 and clear in bytes 2 and 4. RS is set exactly for data, and R/W is always clear. Bytes 1-2 carry the high nibble and bytes 3-4 the low nibble in bits 4-7. |
| LcdDriver.FramesRoundTrip | src/main.rs:40-74 | The high nibble of byte 1 and the high nibble of byte 3 put the input byte back together. |
| LcdDriver.ControllerReceives | src/main.rs:36-90 | The controller latching on EN's falling edge receives exactly the transfers that were encoded, in order, followed by whatever later bytes carry. |
| LcdDriver.EncodeInjective | src/main.rs:36-90 | Distinct runs of transfers never produce the same bus bytes. |
| LcdDriver.Address | src/main.rs:80-84 | The address command lies in 0x80..0x8F for row 0 and in 0xC0..0xCF for row 1. It has bit 7 set, the clamped column in bits 0-3 and the clamped row in bit 6. |
| LcdDriver.AddressNoOverflow | src/main.rs:80-84 | `0x80 + 0x40*y + x`, after clamping, stays below 256 over the integers and equals the u8 result, so the u8 arithmetic never overflows. |
| LcdDriver.InitBus | src/main.rs:23-34 | `init` writes 21 bytes. The controller receives 0x33, 0x32, 0x28, 0x0C and 0x01 in that order, and the final backlight byte has EN clear, so it latches nothing. |
| LcdDriver.WriteBus | src/main.rs:80-90 | `write` puts 4 * (1 + \|data\|) bytes on the bus, and the controller receives the address command and then each byte of `data` as a data transfer. |
| LcdDriver.Lcd.WriteByte | src/main.rs:36-38 | Appends exactly one byte, the input with the backlight bit 0x08 ORed in. |
| LcdDriver.Lcd.SendCommand | src/main.rs:40-56 | Appends exactly the four frames of an instruction-register transfer of `comm`. |
| LcdDriver.Lcd.SendData | src/main.rs:58-74 | Appends exactly the four frames of a data-register transfer of `data`. |
| LcdDriver.Lcd.Clear | src/main.rs:76-78 | Appends exactly the frames of the Clear Display command 0x01. |
| LcdDriver.Lcd.Write | src/main.rs:80-90 | Appends the address command for the clamped (x, y), then a data transfer for each byte of `data`, in order. |
| LcdDriver.Lcd.Init | src/main.rs:23-34 | Appends the frames of 0x33, 0x32, 0x28, 0x0C, 0x01, then the single byte 0x08. |
| LcdDriver.Lcd.constructor | src/main.rs:17-21 | A new display has written nothing to the bus. |

## Left out

- Timing: `tick` and the `thread::sleep` calls in `Lcd` are wall-clock delays with no logical effect. The model has no clock and no `frequency` field. `tick` divides by `frequency`, so it panics when the frequency is 0; the model does not capture that.
- `main` is not modelled: acquiring the GPIO pins and the I2C bus, `Lcd::new`'s bus setup and slave address (`LCD_ADDRESS`), the polling loop, `println!` and `format!` are all foreign calls and process I/O.
- `Default for Lcd` only calls `Lcd::new` and is left out.
- The HC-SR04 distance sensor is a foreign crate returning an optional float, and is left out.
- The converter's electrical behaviour is not modelled. The sixteen levels it presents on the data line are an arbitrary input.
- Adc0834Driver.Adc0834.ReadData: one stand-in serves the same sixteen levels in every transaction, restarting when chip-select goes low. After the sixteenth data read it answers low.
- `write_byte`'s `assert!` on the I2C write count is left out: each write puts exactly one byte on the bus. The `unwrap` of the I2C result is left out with it.
- The controller's response to instructions (the resulting display contents and mode) is not modelled. The model stops at what the controller latches.

## Notes

- The model follows the code's clock edges, 41 per `read`: four pulses for the header bits, one settling edge, and a pulse for each of the sixteen samples.
- ODD/SIGN is modelled from the code's `channel % 2`. A mask `channel & 1` gives the same level for every u8.
- The data-line accessors do not reject a write in Input mode or a read in Output mode, because rppal does not. The discipline is proved about the trace `read` produces instead.
