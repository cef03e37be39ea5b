/**
 * Bit addressing over the output buffer of a chain of cascaded shift registers.
 *
 * Bit `b` of the chain lives in byte `b / 8` of the buffer, under the mask
 * `0b10000000 >> (b % 8)`: bit 0 of the chain is the most significant bit of
 * byte 0, whatever order the bus later puts the bits of a byte on the wire.
 * The three mutators of the driver are OR, AND-NOT and XOR of one byte with
 * that mask; here they are functions on the buffer's contents, and `Bits`
 * gives the logical view (one boolean per output) that their lemmas speak of.
 */
module BitAddressing {

  /** `0b10000000`: the mask of the first bit of a byte. */
  const FirstBitMask: bv8 := 0x80

  /** Number of bytes the driver allocates for a chain of `n` bytes: `max(4, n)`. */
  function AllocationSize(n: nat): (size: nat)
    ensures size >= 4 && size >= n
    ensures size == 4 || size == n
  {
    if n < 4 then 4 else n
  }

  /** Mask of position `p` (0 = most significant) within a byte. */
  function PositionMask(p: nat): bv8
    requires p < 8
  {
    FirstBitMask >> p
  }

  /** Whether position `p` (0 = most significant) of byte `x` is set. */
  predicate BitAt(x: bv8, p: nat)
    requires p < 8
  {
    x & PositionMask(p) != 0
  }

  /** Index of the byte holding bit `bitNumber` of the chain. */
  function ByteIndex(bitNumber: nat): nat
  {
    bitNumber / 8
  }

  /** The mask the driver applies to `ByteIndex(bitNumber)` for bit `bitNumber`. */
  function BitMask(bitNumber: nat): (m: bv8)
    ensures forall p :: 0 <= p < 8 ==> (BitAt(m, p) <==> p == bitNumber % 8)
  {
    MaskSelectsOnePosition(bitNumber % 8);
    PositionMask(bitNumber % 8)
  }

  /** Whether bit `bitNumber` of the chain is on in `buf`. */
  predicate BitIsSet(buf: seq<bv8>, bitNumber: nat)
    requires ByteIndex(bitNumber) < |buf|
  {
    buf[ByteIndex(bitNumber)] & BitMask(bitNumber) != 0
  }

  /** The logical view of a buffer: one boolean per bit, bit 0 first. */
  function Bits(buf: seq<bv8>): (r: seq<bool>)
    ensures |r| == 8 * |buf|
  {
    seq(8 * |buf|, i requires 0 <= i < 8 * |buf| => BitIsSet(buf, i))
  }

  /** The buffer with byte `bitNumber / 8` OR-ed with the mask of `bitNumber`. */
  function WithBitOn(buf: seq<bv8>, bitNumber: nat): (r: seq<bv8>)
    requires ByteIndex(bitNumber) < |buf|
    ensures |r| == |buf| && BitIsSet(r, bitNumber)
    ensures forall j :: 0 <= j < |buf| && j != ByteIndex(bitNumber) ==> r[j] == buf[j]
  {
    buf[ByteIndex(bitNumber) := buf[ByteIndex(bitNumber)] | BitMask(bitNumber)]
  }

  /** The buffer with byte `bitNumber / 8` AND-ed with the complement of the mask of `bitNumber`. */
  function WithBitOff(buf: seq<bv8>, bitNumber: nat): (r: seq<bv8>)
    requires ByteIndex(bitNumber) < |buf|
    ensures |r| == |buf| && !BitIsSet(r, bitNumber)
    ensures forall j :: 0 <= j < |buf| && j != ByteIndex(bitNumber) ==> r[j] == buf[j]
  {
    buf[ByteIndex(bitNumber) := buf[ByteIndex(bitNumber)] & !BitMask(bitNumber)]
  }

  /** The buffer with byte `bitNumber / 8` XOR-ed with the mask of `bitNumber`. */
  function WithBitToggled(buf: seq<bv8>, bitNumber: nat): (r: seq<bv8>)
    requires ByteIndex(bitNumber) < |buf|
    ensures |r| == |buf| && (BitIsSet(r, bitNumber) <==> !BitIsSet(buf, bitNumber))
    ensures forall j :: 0 <= j < |buf| && j != ByteIndex(bitNumber) ==> r[j] == buf[j]
  {
    buf[ByteIndex(bitNumber) := buf[ByteIndex(bitNumber)] ^ BitMask(bitNumber)]
  }

  /** The first `n` bytes cleared, the rest of the buffer as it was. */
  function ZeroedPrefix(buf: seq<bv8>, n: nat): (r: seq<bv8>)
    requires n <= |buf|
    ensures |r| == |buf|
    ensures forall j :: 0 <= j < n ==> r[j] == 0
  {
    seq(|buf|, i requires 0 <= i < |buf| => if i < n then 0 else buf[i])
  }

  // ---------------------------------------------------------------------
  // Facts about single bytes
  // ---------------------------------------------------------------------

  /** The mask of position `p` has position `p` set and no other. */
  lemma MaskSelectsOnePosition(p: nat)
    requires p < 8
    ensures forall q :: 0 <= q < 8 ==> (BitAt(PositionMask(p), q) <==> q == p)
  {
  }

  /** Position `p` counts from the most significant bit: its mask is bit `7 - p` of the byte. */
  lemma PositionMaskIsBit(p: nat)
    requires p < 8
    ensures PositionMask(p) == (1 as bv8) << (7 - p)
  {
  }

  /** Two bytes that agree at every position are equal. */
  lemma BytesEqualByBits(x: bv8, y: bv8)
    requires forall q :: 0 <= q < 8 ==> (BitAt(x, q) <==> BitAt(y, q))
    ensures x == y
  {
    assert BitAt(x, 0) == BitAt(y, 0) && BitAt(x, 1) == BitAt(y, 1);
    assert BitAt(x, 2) == BitAt(y, 2) && BitAt(x, 3) == BitAt(y, 3);
    assert BitAt(x, 4) == BitAt(y, 4) && BitAt(x, 5) == BitAt(y, 5);
    assert BitAt(x, 6) == BitAt(y, 6) && BitAt(x, 7) == BitAt(y, 7);
  }

  /** OR with the mask of `p` sets position `p` and keeps every other position. */
  lemma OrMaskAt(x: bv8, p: nat, q: nat)
    requires p < 8 && q < 8
    ensures BitAt(x | PositionMask(p), q) <==> q == p || BitAt(x, q)
  {
    MaskSelectsOnePosition(p);
  }

  /** AND with the complement of the mask of `p` clears position `p` and keeps every other. */
  lemma AndNotMaskAt(x: bv8, p: nat, q: nat)
    requires p < 8 && q < 8
    ensures BitAt(x & !PositionMask(p), q) <==> q != p && BitAt(x, q)
  {
    MaskSelectsOnePosition(p);
  }

  /** XOR with the mask of `p` flips position `p` and keeps every other. */
  lemma XorMaskAt(x: bv8, p: nat, q: nat)
    requires p < 8 && q < 8
    ensures BitAt(x ^ PositionMask(p), q) <==> (if q == p then !BitAt(x, q) else BitAt(x, q))
  {
    MaskSelectsOnePosition(p);
  }

  // ---------------------------------------------------------------------
  // Facts about whole buffers
  // ---------------------------------------------------------------------

  /** The logical view at bit `i` reads position `i % 8` of byte `i / 8`. */
  lemma BitsAt(buf: seq<bv8>, i: nat)
    requires i < 8 * |buf|
    ensures ByteIndex(i) < |buf| && Bits(buf)[i] == BitAt(buf[i / 8], i % 8)
  {
  }

  /** Two buffers of one length with the same logical view are equal. */
  lemma BitsDetermineBuffer(x: seq<bv8>, y: seq<bv8>)
    requires |x| == |y| && Bits(x) == Bits(y)
    ensures x == y
  {
    forall j | 0 <= j < |x|
      ensures x[j] == y[j]
    {
      forall q | 0 <= q < 8
        ensures BitAt(x[j], q) <==> BitAt(y[j], q)
      {
        var i := 8 * j + q;
        assert i / 8 == j && i % 8 == q;
        BitsAt(x, i);
        BitsAt(y, i);
      }
      BytesEqualByBits(x[j], y[j]);
    }
  }

  /** Setting bit `b` turns exactly that bit on; no other bit or byte changes. */
  lemma WithBitOnView(buf: seq<bv8>, b: nat)
    requires ByteIndex(b) < |buf|
    ensures |WithBitOn(buf, b)| == |buf|
    ensures Bits(WithBitOn(buf, b)) == Bits(buf)[b := true]
    ensures forall j :: 0 <= j < |buf| && j != ByteIndex(b) ==> WithBitOn(buf, b)[j] == buf[j]
  {
    var r := WithBitOn(buf, b);
    forall i | 0 <= i < 8 * |buf|
      ensures Bits(r)[i] == Bits(buf)[b := true][i]
    {
      BitsAt(r, i);
      BitsAt(buf, i);
      if i / 8 == b / 8 {
        OrMaskAt(buf[i / 8], b % 8, i % 8);
      }
    }
  }

  /** Clearing bit `b` turns exactly that bit off; no other bit or byte changes. */
  lemma WithBitOffView(buf: seq<bv8>, b: nat)
    requires ByteIndex(b) < |buf|
    ensures |WithBitOff(buf, b)| == |buf|
    ensures Bits(WithBitOff(buf, b)) == Bits(buf)[b := false]
    ensures forall j :: 0 <= j < |buf| && j != ByteIndex(b) ==> WithBitOff(buf, b)[j] == buf[j]
  {
    var r := WithBitOff(buf, b);
    forall i | 0 <= i < 8 * |buf|
      ensures Bits(r)[i] == Bits(buf)[b := false][i]
    {
      BitsAt(r, i);
      BitsAt(buf, i);
      if i / 8 == b / 8 {
        AndNotMaskAt(buf[i / 8], b % 8, i % 8);
      }
    }
  }

  /** Toggling bit `b` flips exactly that bit; no other bit or byte changes. */
  lemma WithBitToggledView(buf: seq<bv8>, b: nat)
    requires ByteIndex(b) < |buf|
    ensures |WithBitToggled(buf, b)| == |buf|
    ensures b < |Bits(buf)| && Bits(WithBitToggled(buf, b)) == Bits(buf)[b := !Bits(buf)[b]]
    ensures forall j :: 0 <= j < |buf| && j != ByteIndex(b) ==> WithBitToggled(buf, b)[j] == buf[j]
  {
    var r := WithBitToggled(buf, b);
    forall i | 0 <= i < 8 * |buf|
      ensures Bits(r)[i] == Bits(buf)[b := !Bits(buf)[b]][i]
    {
      BitsAt(r, i);
      BitsAt(buf, i);
      if i / 8 == b / 8 {
        XorMaskAt(buf[i / 8], b % 8, i % 8);
      }
    }
  }

  /** Setting a bit that is already set changes nothing more. */
  lemma WithBitOnIdempotent(buf: seq<bv8>, b: nat)
    requires ByteIndex(b) < |buf|
    ensures WithBitOn(WithBitOn(buf, b), b) == WithBitOn(buf, b)
  {
  }

  /** Clearing a bit that is already clear changes nothing more. */
  lemma WithBitOffIdempotent(buf: seq<bv8>, b: nat)
    requires ByteIndex(b) < |buf|
    ensures WithBitOff(WithBitOff(buf, b), b) == WithBitOff(buf, b)
  {
  }

  /** Toggling the same bit twice restores the buffer. */
  lemma WithBitToggledInvolution(buf: seq<bv8>, b: nat)
    requires ByteIndex(b) < |buf|
    ensures WithBitToggled(WithBitToggled(buf, b), b) == buf
  {
  }

  /** Toggling is clearing a set bit and setting a clear one. */
  lemma WithBitToggledIsOffOrOn(buf: seq<bv8>, b: nat)
    requires ByteIndex(b) < |buf|
    ensures WithBitToggled(buf, b) == if BitIsSet(buf, b) then WithBitOff(buf, b) else WithBitOn(buf, b)
  {
  }

  /** Clearing the first `n` bytes turns off every bit below `8 * n` and keeps the padding. */
  lemma ZeroedPrefixView(buf: seq<bv8>, n: nat)
    requires n <= |buf|
    ensures |ZeroedPrefix(buf, n)| == |buf|
    ensures forall b :: 0 <= b < 8 * n ==> !Bits(ZeroedPrefix(buf, n))[b]
    ensures forall j :: n <= j < |buf| ==> ZeroedPrefix(buf, n)[j] == buf[j]
  {
  }

  /**
   * A chain of two bytes (padded to four): bit 0 is the top bit of byte 0 and
   * bit 15 the bottom bit of byte 1; the padding bytes are whatever they were.
   */
  lemma TwoByteChainScenario(p2: bv8, p3: bv8)
    ensures WithBitOn([0x00, 0x00, p2, p3], 0) == [0x80, 0x00, p2, p3]
    ensures WithBitOn([0x80, 0x00, p2, p3], 15) == [0x80, 0x01, p2, p3]
  {
  }
}
