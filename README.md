# SpiShiftRegisterChain in Dafny

A verified model of `SpiShiftRegisterChain`, an Arduino driver for a chain of
cascaded 74HC595-style shift registers. The driver keeps a byte buffer that
mirrors the outputs of the chain. It has three bit mutators (`setBitOn`,
`setBitOff`, `toggleBit`), a routine that clears the buffer
(`setDataToZeros`) and a flush (`writeData`). The flush clocks the buffer out
over SPI between two edges of the latch pin.

The project has three modules:

- `BitAddressing` (`bit_addressing.dfy`): bit `b` of the chain lives in byte
  `b / 8` under the mask `0b10000000 >> (b % 8)`, so bit 0 is the most
  significant bit of byte 0. The mutators are OR, AND-NOT and XOR of that one
  byte with the mask; here they are the functions `WithBitOn`, `WithBitOff`
  and `WithBitToggled` on the buffer's contents. `Bits` is the logical view,
  one boolean per output. The lemmas prove that each mutator changes exactly
  one entry of that view. They also prove that the view determines the buffer,
  so setting and clearing are idempotent and toggling is an involution.
- `SpiEvents` (`spi_events.dfy`): the calls into the pin and bus libraries
  (`pinMode`, `digitalWrite`, `SPI.beginTransaction`, `SPI.transfer`,
  `SPI.endTransaction`) become events of a trace. `FlushTrace` is the event
  sequence of one flush. Its lemmas prove that a flush puts on the bus exactly
  the first `n` bytes, highest index first. The latch is driven low before the
  first transfer and high after the last. Padding bytes never reach the bus.
- `ShiftRegisterChain` (`shift_register_chain.dfy`): the class itself. It
  holds the buffer as an `array<bv8>` (null until allocated, like
  `_dataArray(0)`) and the hardware calls made so far as a ghost `trace`.
  Each operation is a method whose `ensures` states its new state:
  - `SetBitOn`, `SetBitOff` and `ToggleBit`: the new buffer is `WithBitOn`,
    `WithBitOff` or `WithBitToggled` of the old. The trace grows by one
    `FlushTrace` of the updated buffer when the flush flag is set, and by
    nothing otherwise.
  - `SetDataToZeros`: the new buffer is `ZeroedPrefix` of the old. The trace
    is not touched.
  - `WriteData`: the trace grows by one `FlushTrace`. The buffer is unchanged.
  - The constructor: the trace is the single `PinModeOutput` call of
    `SetPinModes`, and the first `n` bytes are zero.

  The flush flag is an explicit parameter whose default is
  `DefaultWriteDataState` (`true`).

The model follows `src/SpiShiftRegisterChain.cpp`. The header
(`src/SpiShiftRegisterChain.h`) declares more than the implementation file
defines. It has a three-argument constructor, `maxClockSpeed`,
`setActiveState`, `setDefaultWriteState` and `initPins`, plus an
`_activeState` field. The implementation file never uses these. Its
constructor takes two arguments and calls `setPinModes`. It does not drive the
latch pin at construction. `writeData` drives the latch LOW and then HIGH as
fixed levels. The model does the same.

The buffer is `max(4, n)` bytes, but only the first `n` bytes are zeroed and
transferred. A fresh array's elements are arbitrary values to the verifier, so
bytes `n .. 3` start arbitrary when `n < 4`, as uninitialised memory does.

## Model

| member | source | states |
|---|---|---|
| `BitAddressing.AllocationSize` | src/SpiShiftRegisterChain.cpp:69 | the buffer size is at least 4 and at least `n`, and is one of the two (`max(4, n)`), so it is 4 even for an empty chain |
| `BitAddressing.BitMask` | src/SpiShiftRegisterChain.cpp:34 | the mask `0b10000000 >> (b % 8)` has exactly one bit set: position `b % 8` counted from the most significant bit |
| `BitAddressing.MaskSelectsOnePosition` | src/SpiShiftRegisterChain.cpp:34 | `0b10000000 >> p` has position `p` set and every other position clear, for each `p < 8` |
| `BitAddressing.PositionMaskIsBit` | src/SpiShiftRegisterChain.cpp:34 | the mask of position `p` is bit `7 - p` of the byte, so positions count from the most significant bit |
| `BitAddressing.OrMaskAt` | src/SpiShiftRegisterChain.cpp:34 | OR with the mask of `p` sets position `p` and keeps every other position of the byte |
| `BitAddressing.AndNotMaskAt` | src/SpiShiftRegisterChain.cpp:28 | AND with the complement of the mask of `p` clears position `p` and keeps every other position |
| `BitAddressing.XorMaskAt` | src/SpiShiftRegisterChain.cpp:45 | XOR with the mask of `p` flips position `p` and keeps every other position |
| `BitAddressing.BytesEqualByBits` | src/SpiShiftRegisterChain.cpp:34 | two bytes that agree at all eight positions are equal, so the per-bit view loses nothing |
| `BitAddressing.Bits` | src/SpiShiftRegisterChain.cpp:34 | the logical view of a buffer has exactly eight outputs per byte |
| `BitAddressing.BitsAt` | src/SpiShiftRegisterChain.cpp:34 | output `i` of the view is position `i % 8` of byte `i / 8`, and that byte lies inside the buffer |
| `BitAddressing.BitsDetermineBuffer` | src/SpiShiftRegisterChain.cpp:33-34 | two buffers of the same length with the same logical view are the same buffer |
| `BitAddressing.WithBitOn` | src/SpiShiftRegisterChain.cpp:34 | the OR update: bit `b` is set afterwards, the length is kept and every byte other than `b / 8` is unchanged; the full effect is stated by `WithBitOnView` and `WithBitOnIdempotent` |
| `BitAddressing.WithBitOff` | src/SpiShiftRegisterChain.cpp:28 | the AND-NOT update: bit `b` is clear afterwards, the length is kept and every byte other than `b / 8` is unchanged; the full effect is stated by `WithBitOffView` and `WithBitOffIdempotent` |
| `BitAddressing.WithBitToggled` | src/SpiShiftRegisterChain.cpp:45 | the XOR update: bit `b` is the opposite of what it was, the length is kept and every byte other than `b / 8` is unchanged; the full effect is stated by `WithBitToggledView` and `WithBitToggledInvolution` |
| `BitAddressing.ZeroedPrefix` | src/SpiShiftRegisterChain.cpp:39-42 | the effect of the zeroing loop: the length is kept and bytes `0 .. n - 1` are 0; that the padding is kept is stated by `ZeroedPrefixView` |
| `BitAddressing.WithBitOnView` | src/SpiShiftRegisterChain.cpp:33-34 | setting bit `b` turns output `b` on and leaves every other output and every other byte as it was; the length is kept |
| `BitAddressing.WithBitOffView` | src/SpiShiftRegisterChain.cpp:27-28 | clearing bit `b` turns output `b` off and leaves every other output and every other byte as it was; the length is kept |
| `BitAddressing.WithBitToggledView` | src/SpiShiftRegisterChain.cpp:44-45 | toggling bit `b` negates output `b` and leaves every other output and every other byte as it was; the length is kept |
| `BitAddressing.WithBitOnIdempotent` | src/SpiShiftRegisterChain.cpp:34 | setting the same bit twice gives the same buffer as setting it once |
| `BitAddressing.WithBitOffIdempotent` | src/SpiShiftRegisterChain.cpp:28 | clearing the same bit twice gives the same buffer as clearing it once |
| `BitAddressing.WithBitToggledInvolution` | src/SpiShiftRegisterChain.cpp:45 | toggling the same bit twice restores the original buffer |
| `BitAddressing.WithBitToggledIsOffOrOn` | src/SpiShiftRegisterChain.cpp:27-45 | toggling a set bit is clearing it, and toggling a clear bit is setting it |
| `BitAddressing.ZeroedPrefixView` | src/SpiShiftRegisterChain.cpp:39-42 | after clearing the first `n` bytes every output below `8 * n` is off, the padding bytes are unchanged and the length is kept |
| `BitAddressing.TwoByteChainScenario` | src/SpiShiftRegisterChain.cpp:34 | in a two-byte chain (padded to four bytes), setting bit 0 gives `[0x80, 0x00]` and then setting bit 15 gives `[0x80, 0x01]`; the padding is untouched |
| `SpiEvents.ReverseTransfers` | src/SpiShiftRegisterChain.cpp:54-55 | one transfer per byte, and the `k`-th transfer carries the `k`-th byte from the end |
| `SpiEvents.FlushTrace` | src/SpiShiftRegisterChain.cpp:50-59 | a flush issues `n + 4` calls: begin the transaction with the driver's settings, latch LOW, transfer bytes `n - 1` down to `0`, latch HIGH, end the transaction |
| `SpiEvents.ReverseTransfersCarry` | src/SpiShiftRegisterChain.cpp:54-55 | the bytes carried by the transfers of the loop are the chain bytes reversed |
| `SpiEvents.FlushShiftsChainBytesReversed` | src/SpiShiftRegisterChain.cpp:50-59 | the bytes a flush puts on the bus are exactly `buffer[0 .. n - 1]` reversed; none for an empty chain |
| `SpiEvents.FlushLatchFramesTransfers` | src/SpiShiftRegisterChain.cpp:51-58 | the latch is written exactly twice per flush, LOW at position 1 and HIGH at position `n + 2`, and every transfer lies strictly between the two |
| `SpiEvents.FlushIgnoresPadding` | src/SpiShiftRegisterChain.cpp:54-55 | two buffers that agree on their first `n` bytes produce the same flush: padding bytes never reach the bus |
| `SpiEvents.ThreeByteFlushScenario` | src/SpiShiftRegisterChain.cpp:50-59 | a buffer `[B0, B1, B2]` is flushed as `B2, B1, B0` between latch LOW and latch HIGH; a chain of length 0 transfers nothing |
| `ShiftRegisterChain.SpiShiftRegisterChain.constructor` | src/SpiShiftRegisterChain.cpp:7-16 | stores the pin and the length, fixes the bus settings, configures the latch pin as an output, allocates `max(4, n)` bytes and zeroes the first `n`, so every output of the chain starts off |
| `ShiftRegisterChain.SpiShiftRegisterChain.SetBitOff` | src/SpiShiftRegisterChain.cpp:27-31 | the buffer becomes the old buffer with bit `b` cleared and output `b` off; the trace grows by one flush of the updated buffer when the flag is set, by nothing otherwise |
| `ShiftRegisterChain.SpiShiftRegisterChain.SetBitOn` | src/SpiShiftRegisterChain.cpp:33-37 | the buffer becomes the old buffer with bit `b` set and output `b` on; the trace grows by one flush of the updated buffer when the flag is set, by nothing otherwise |
| `ShiftRegisterChain.SpiShiftRegisterChain.SetDataToZeros` | src/SpiShiftRegisterChain.cpp:39-42 | bytes `0 .. n - 1` become 0 and the padding keeps its contents; every output of the chain is off |
| `ShiftRegisterChain.SpiShiftRegisterChain.ToggleBit` | src/SpiShiftRegisterChain.cpp:44-48 | the buffer becomes the old buffer with bit `b` flipped and output `b` negated; the trace grows by one flush of the updated buffer when the flag is set, by nothing otherwise |
| `ShiftRegisterChain.SpiShiftRegisterChain.WriteData` | src/SpiShiftRegisterChain.cpp:50-59 | the trace grows by exactly `FlushTrace` of the current buffer, and the buffer is unchanged |
| `ShiftRegisterChain.SpiShiftRegisterChain.AllocateMemory` | src/SpiShiftRegisterChain.cpp:65-70 | the buffer is replaced by a fresh array of `max(4, n)` bytes |
| `ShiftRegisterChain.SpiShiftRegisterChain.SetPinModes` | src/SpiShiftRegisterChain.cpp:72-74 | the trace grows by one call configuring the latch pin as an output |
| `ShiftRegisterChain.TwoByteChainClient` | src/SpiShiftRegisterChain.cpp:7-59 | driving the class itself, a two-byte chain on pin 5 with bits 0 and 15 set without flushing holds `[0x80, 0x01]`, and the only calls so far are the pin setup plus one flush that shifts `0x01` then `0x80` between latch LOW and latch HIGH |

## Left out

- Pin and bus primitives (`pinMode`, `digitalWrite`, `SPI.beginTransaction`, `SPI.transfer`, `SPI.endTransaction`) are foreign calls. They are recorded only as trace events. The byte that `SPI.transfer` returns is ignored, as in the source.
- The contents of `SPISettings` (4 MHz, `LSBFIRST`, `SPI_MODE0`) are kept as a constant value passed to `BeginTransaction`. The order in which the bus shifts the bits of a byte onto the wire is outside the model.
- The destructor and the `delete[]` in `allocateMemory` are manual memory management. Dafny's allocation covers them. `AllocateMemory` just allocates a fresh array.
- `AllocateMemory`: a fresh buffer's contents are arbitrary (`new bv8[…]` without an initializer). Only `SetDataToZeros` fixes the first `n` bytes.
- The header-only declarations are not modelled because the implementation file has no bodies for them: the three-argument constructor, `maxClockSpeed`, `setActiveState`, `setDefaultWriteState`, `initPins` and the `_activeState`, `_bitOrder` and `_dataMode` fields. The same goes for a configurable latch polarity and for driving the latch to its idle level at construction.
- The header gives the flush flag the default `_defaultWriteDataState`, which is `true`. The model uses the constant `DefaultWriteDataState`. No setter can change it, because no setter is defined.
- The `ARDUINO`/`WProgram.h` include switch is build plumbing.
- Integer widths are not modelled: bit numbers and the chain length are unbounded. `int i = _dataLengthBytes - 1` is modelled as `-1` for an empty chain, which is the value the conversion gives on the target. The loop's signed counter going negative for a chain longer than the largest `int` is not modelled.
- Bit numbers outside the allocated buffer are undefined behaviour in the source. The mutators require `bitNumber / 8 < max(4, n)` instead of modelling that behaviour.
