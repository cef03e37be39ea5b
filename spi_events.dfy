/**
 * The hardware calls the driver makes, recorded as a trace of events.
 *
 * Pin configuration, latch writes and bus transfers are calls into the board
 * support library; the model does not perform them but appends one event per
 * call, in order. `FlushTrace` is the sequence one flush of the buffer issues.
 */
module SpiEvents {

  /** Logic level driven on a digital output line. */
  datatype Level = Low | High

  /** Order in which the bus shifts the bits of one byte onto the wire. */
  datatype BitOrder = LsbFirst | MsbFirst

  /** Parameters of a bus transaction: clock in Hz, bit order, clock/phase mode. */
  datatype SpiSettings = SpiSettings(clockHz: nat, bitOrder: BitOrder, dataMode: nat)

  /** The settings the driver fixes at construction: 4 MHz, LSB first, mode 0. */
  const DriverSettings := SpiSettings(4000000, LsbFirst, 0)

  /** One call into the hardware layer. */
  datatype Event =
    | PinModeOutput(pin: nat)                   // configure a pin as a digital output
    | BeginTransaction(settings: SpiSettings)   // acquire the bus with these settings
    | DigitalWrite(pin: nat, level: Level)      // drive a pin to a level
    | Transfer(value: bv8)                      // clock one byte out (the byte read back is ignored)
    | EndTransaction                            // release the bus

  /** One transfer per byte of `bytes`, last byte first. */
  function ReverseTransfers(bytes: seq<bv8>): (r: seq<Event>)
    ensures |r| == |bytes|
    ensures forall k :: 0 <= k < |bytes| ==> r[k] == Transfer(bytes[|bytes| - 1 - k])
  {
    if bytes == [] then [] else ReverseTransfers(bytes[1..]) + [Transfer(bytes[0])]
  }

  /**
   * What one flush issues: open a transaction, drive the latch low, shift out
   * bytes `n - 1` down to `0` of `buf`, drive the latch high, close the transaction.
   */
  function FlushTrace(latchPin: nat, settings: SpiSettings, buf: seq<bv8>, n: nat): (r: seq<Event>)
    requires n <= |buf|
    ensures |r| == n + 4
    ensures r[0] == BeginTransaction(settings) && r[1] == DigitalWrite(latchPin, Low)
    ensures forall j :: 2 <= j < n + 2 ==> r[j] == Transfer(buf[n + 1 - j])
    ensures r[n + 2] == DigitalWrite(latchPin, High) && r[n + 3] == EndTransaction
  {
    [BeginTransaction(settings), DigitalWrite(latchPin, Low)]
    + ReverseTransfers(buf[..n])
    + [DigitalWrite(latchPin, High), EndTransaction]
  }

  /** The bytes a trace shifts onto the bus, in the order they are shifted. */
  function TransferredBytes(trace: seq<Event>): (r: seq<bv8>)
    ensures |r| <= |trace|
  {
    if trace == [] then [] else ShiftedBy(trace[0]) + TransferredBytes(trace[1..])
  }

  /** The byte an event shifts onto the bus, if any. */
  function ShiftedBy(e: Event): (r: seq<bv8>)
    ensures |r| <= 1 && (|r| == 1 <==> e.Transfer?)
  {
    if e.Transfer? then [e.value] else []
  }

  /** The reverse of a sequence of bytes. */
  function Reversed(s: seq<bv8>): (r: seq<bv8>)
    ensures |r| == |s|
  {
    if s == [] then [] else Reversed(s[1..]) + [s[0]]
  }

  // ---------------------------------------------------------------------
  // Lemmas about a flush
  // ---------------------------------------------------------------------

  /** Reading the bytes back out of `ReverseTransfers` gives the bytes reversed. */
  lemma {:induction false} ReverseTransfersCarry(bytes: seq<bv8>)
    ensures TransferredBytes(ReverseTransfers(bytes)) == Reversed(bytes)
  {
    if bytes != [] {
      ReverseTransfersCarry(bytes[1..]);
      TransferredBytesAppend(ReverseTransfers(bytes[1..]), [Transfer(bytes[0])]);
    }
  }

  /** The bytes of two traces played one after the other. */
  lemma {:induction false} TransferredBytesAppend(a: seq<Event>, b: seq<Event>)
    ensures TransferredBytes(a + b) == TransferredBytes(a) + TransferredBytes(b)
  {
    if a == [] {
      assert a + b == b;
    } else {
      assert (a + b)[0] == a[0] && (a + b)[1..] == a[1..] + b;
      TransferredBytesAppend(a[1..], b);
      assert TransferredBytes(a + b) == ShiftedBy(a[0]) + (TransferredBytes(a[1..]) + TransferredBytes(b));
    }
  }

  /** A flush puts on the bus exactly bytes `0 .. n - 1` of the buffer, highest index first. */
  lemma FlushShiftsChainBytesReversed(latchPin: nat, settings: SpiSettings, buf: seq<bv8>, n: nat)
    requires n <= |buf|
    ensures TransferredBytes(FlushTrace(latchPin, settings, buf, n)) == Reversed(buf[..n])
  {
    var head := [BeginTransaction(settings), DigitalWrite(latchPin, Low)];
    var tail := [DigitalWrite(latchPin, High), EndTransaction];
    ReverseTransfersCarry(buf[..n]);
    TransferredBytesAppend(head, ReverseTransfers(buf[..n]));
    TransferredBytesAppend(head + ReverseTransfers(buf[..n]), tail);
    assert TransferredBytes(head) == [] by {
      assert head[1..][1..] == [];
    }
    assert TransferredBytes(tail) == [] by {
      assert tail[1..][1..] == [];
    }
  }

  /**
   * The latch is written exactly twice in a flush: low before the first
   * transfer and high after the last; every transfer lies strictly between.
   */
  lemma FlushLatchFramesTransfers(latchPin: nat, settings: SpiSettings, buf: seq<bv8>, n: nat)
    requires n <= |buf|
    ensures forall j :: 0 <= j < n + 4 && FlushTrace(latchPin, settings, buf, n)[j].DigitalWrite? ==>
              (j == 1 && FlushTrace(latchPin, settings, buf, n)[j].level == Low) ||
              (j == n + 2 && FlushTrace(latchPin, settings, buf, n)[j].level == High)
    ensures forall j :: 0 <= j < n + 4 && FlushTrace(latchPin, settings, buf, n)[j].Transfer? ==>
              1 < j < n + 2
  {
  }

  /** Only the first `n` bytes reach the bus: the padding after them never does. */
  lemma FlushIgnoresPadding(latchPin: nat, settings: SpiSettings, a: seq<bv8>, b: seq<bv8>, n: nat)
    requires n <= |a| && n <= |b| && a[..n] == b[..n]
    ensures FlushTrace(latchPin, settings, a, n) == FlushTrace(latchPin, settings, b, n)
  {
  }

  /** A buffer `[B0, B1, B2]` is shifted out as `B2, B1, B0`; an empty chain shifts nothing. */
  lemma ThreeByteFlushScenario(b0: bv8, b1: bv8, b2: bv8, p: bv8)
    ensures FlushTrace(5, DriverSettings, [b0, b1, b2, p], 3) ==
      [BeginTransaction(DriverSettings), DigitalWrite(5, Low),
       Transfer(b2), Transfer(b1), Transfer(b0),
       DigitalWrite(5, High), EndTransaction]
    ensures TransferredBytes(FlushTrace(5, DriverSettings, [b0, b1, b2, p], 0)) == []
  {
    FlushShiftsChainBytesReversed(5, DriverSettings, [b0, b1, b2, p], 0);
  }
}
