/**
 * The driver object: a latch pin, the chain length in bytes, fixed bus
 * settings and a byte buffer mirroring the outputs of the cascaded registers.
 * Calls into the pin and bus libraries are appended to the ghost `trace`.
 */
module ShiftRegisterChain {
  import opened BitAddressing
  import opened SpiEvents

  /** Whether a mutator flushes when its caller does not say (`true`). */
  const DefaultWriteDataState := true

  class SpiShiftRegisterChain {
    const latchPin: nat
    const dataLengthBytes: nat
    const spiSettings: SpiSettings
    /** Null until allocated, then `max(4, dataLengthBytes)` bytes. */
    var dataArray: array?<bv8>
    /** Every hardware call this driver has made, oldest first. */
    ghost var trace: seq<Event>

    ghost predicate Valid()
      reads this
    {
      dataArray != null && dataArray.Length == AllocationSize(dataLengthBytes)
    }

    /**
     * Configures the latch pin as an output, allocates the buffer and zeroes
     * the first `dataLengthBytes` bytes. Nothing is promised about the padding.
     */
    constructor (latchPin: nat, dataLengthBytes: nat)
      ensures Valid() && fresh(dataArray)
      ensures this.latchPin == latchPin && this.dataLengthBytes == dataLengthBytes
      ensures spiSettings == DriverSettings
      ensures forall i :: 0 <= i < dataLengthBytes ==> dataArray[i] == 0
      ensures forall b :: 0 <= b < 8 * dataLengthBytes ==> !Bits(dataArray[..])[b]
      ensures trace == [PinModeOutput(latchPin)]
    {
      this.latchPin := latchPin;
      this.dataLengthBytes := dataLengthBytes;
      spiSettings := DriverSettings;
      dataArray := null;
      trace := [];
      new;
      SetPinModes();
      AllocateMemory();
      SetDataToZeros();
    }

    /** Clears bit `bitNumber`; flushes afterwards when `writeData` holds. */
    method SetBitOff(bitNumber: nat, writeData: bool := DefaultWriteDataState)
      requires Valid() && ByteIndex(bitNumber) < dataArray.Length
      modifies this`trace, dataArray
      ensures Valid() && dataArray == old(dataArray)
      ensures dataArray[..] == WithBitOff(old(dataArray[..]), bitNumber)
      ensures Bits(dataArray[..]) == Bits(old(dataArray[..]))[bitNumber := false]
      ensures trace == old(trace) + if writeData then FlushTrace(latchPin, spiSettings, dataArray[..], dataLengthBytes) else []
    {
      ghost var before := dataArray[..];
      WithBitOffView(before, bitNumber);
      var i := ByteIndex(bitNumber);
      dataArray[i] := dataArray[i] & !BitMask(bitNumber);
      assert dataArray[..] == WithBitOff(before, bitNumber);
      if writeData {
        WriteData();
      }
    }

    /** Sets bit `bitNumber`; flushes afterwards when `writeData` holds. */
    method SetBitOn(bitNumber: nat, writeData: bool := DefaultWriteDataState)
      requires Valid() && ByteIndex(bitNumber) < dataArray.Length
      modifies this`trace, dataArray
      ensures Valid() && dataArray == old(dataArray)
      ensures dataArray[..] == WithBitOn(old(dataArray[..]), bitNumber)
      ensures Bits(dataArray[..]) == Bits(old(dataArray[..]))[bitNumber := true]
      ensures trace == old(trace) + if writeData then FlushTrace(latchPin, spiSettings, dataArray[..], dataLengthBytes) else []
    {
      ghost var before := dataArray[..];
      WithBitOnView(before, bitNumber);
      var i := ByteIndex(bitNumber);
      dataArray[i] := dataArray[i] | BitMask(bitNumber);
      assert dataArray[..] == WithBitOn(before, bitNumber);
      if writeData {
        WriteData();
      }
    }

    /** Clears the first `dataLengthBytes` bytes; the padding keeps its contents. */
    method SetDataToZeros()
      requires Valid()
      modifies dataArray
      ensures dataArray[..] == ZeroedPrefix(old(dataArray[..]), dataLengthBytes)
      ensures forall b :: 0 <= b < 8 * dataLengthBytes ==> !Bits(dataArray[..])[b]
    {
      ZeroedPrefixView(dataArray[..], dataLengthBytes);
      var i := 0;
      while i < dataLengthBytes
        invariant 0 <= i <= dataLengthBytes
        invariant forall j :: 0 <= j < i ==> dataArray[j] == 0
        invariant forall j :: i <= j < dataArray.Length ==> dataArray[j] == old(dataArray[j])
      {
        dataArray[i] := 0;
        i := i + 1;
      }
    }

    /** Flips bit `bitNumber`; flushes afterwards when `writeData` holds. */
    method ToggleBit(bitNumber: nat, writeData: bool := DefaultWriteDataState)
      requires Valid() && ByteIndex(bitNumber) < dataArray.Length
      modifies this`trace, dataArray
      ensures Valid() && dataArray == old(dataArray)
      ensures dataArray[..] == WithBitToggled(old(dataArray[..]), bitNumber)
      ensures Bits(dataArray[..]) == Bits(old(dataArray[..]))[bitNumber := !Bits(old(dataArray[..]))[bitNumber]]
      ensures trace == old(trace) + if writeData then FlushTrace(latchPin, spiSettings, dataArray[..], dataLengthBytes) else []
    {
      ghost var before := dataArray[..];
      WithBitToggledView(before, bitNumber);
      var i := ByteIndex(bitNumber);
      dataArray[i] := dataArray[i] ^ BitMask(bitNumber);
      assert dataArray[..] == WithBitToggled(before, bitNumber);
      if writeData {
        WriteData();
      }
    }

    /**
     * Flushes the buffer: opens a bus transaction, drives the latch low,
     * shifts out bytes `dataLengthBytes - 1` down to `0`, drives the latch
     * high and closes the transaction. The buffer is left as it was.
     */
    method WriteData()
      requires Valid()
      modifies this`trace
      ensures unchanged(dataArray)
      ensures trace == old(trace) + FlushTrace(latchPin, spiSettings, dataArray[..], dataLengthBytes)
    {
      trace := trace + [BeginTransaction(spiSettings)];
      trace := trace + [DigitalWrite(latchPin, Low)];
      // The counter is signed: for an empty chain it starts at -1 and nothing is shifted.
      var i: int := dataLengthBytes - 1;
      while i >= 0
        invariant -1 <= i < dataLengthBytes
        invariant trace == old(trace) + [BeginTransaction(spiSettings), DigitalWrite(latchPin, Low)]
                           + ReverseTransfers(dataArray[i + 1..dataLengthBytes])
      {
        assert dataArray[i..dataLengthBytes][1..] == dataArray[i + 1..dataLengthBytes];
        trace := trace + [Transfer(dataArray[i])];
        i := i - 1;
      }
      trace := trace + [DigitalWrite(latchPin, High)];
      trace := trace + [EndTransaction];
    }

    /** Replaces the buffer by a fresh one of `max(4, dataLengthBytes)` bytes of arbitrary contents. */
    method AllocateMemory()
      modifies this`dataArray
      ensures Valid() && fresh(dataArray)
    {
      dataArray := new bv8[AllocationSize(dataLengthBytes)];
    }

    /** Configures the latch pin as a digital output. */
    method SetPinModes()
      modifies this`trace
      ensures trace == old(trace) + [PinModeOutput(latchPin)]
    {
      trace := trace + [PinModeOutput(latchPin)];
    }
  }

  /**
   * A two-byte chain on pin 5: setting bits 0 and 15 without flushing gives
   * `[0x80, 0x01]` and issues no bus traffic; a flush then shifts `0x01`, `0x80`
   * between latch LOW and latch HIGH.
   */
  method TwoByteChainClient() returns (chainBytes: seq<bv8>, ghost events: seq<Event>)
    ensures chainBytes == [0x80, 0x01]
    ensures events == [PinModeOutput(5), BeginTransaction(DriverSettings), DigitalWrite(5, Low),
                       Transfer(0x01), Transfer(0x80), DigitalWrite(5, High), EndTransaction]
  {
    var chain := new SpiShiftRegisterChain(5, 2);
    chain.SetBitOn(0, false);
    assert chain.dataArray[..2] == [0x80, 0x00];
    chain.SetBitOn(15, false);
    assert chain.trace == [PinModeOutput(5)];
    chainBytes := chain.dataArray[..2];
    chain.WriteData();
    events := chain.trace;
  }
}
