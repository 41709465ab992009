/**
 * The DSP's stereo sample ring buffer (ring_buffer.rs): two fixed-length
 * sample arrays updated in place, a write cursor, a read cursor and a
 * count of unread frames. Each method is proved to move the buffer from
 * old(State()) to the state RingModel's functions describe, so the FIFO
 * lemmas proved there hold of this class.
 */
module RingBuffers {
  import opened Numeric
  import opened RingModel

  class RingBuffer {
    const leftBuffer: array<I16>
    const rightBuffer: array<I16>
    var writePos: int
    var readPos: int
    var sampleCount: nat

    /** The buffer as a RingModel value. */
    ghost function State(): Ring
      reads this, leftBuffer, rightBuffer
    {
      Ring(leftBuffer[..], rightBuffer[..], writePos, readPos, sampleCount)
    }

    ghost predicate Valid()
      reads this, leftBuffer, rightBuffer
    {
      leftBuffer != rightBuffer && RingModel.Valid(State())
    }

    /**
     * new: both arrays hold bufferLen zero samples, cursors and count are 0.
     * bufferLen stands for the DSP's BUFFER_LEN.
     */
    constructor (bufferLen: nat)
      requires bufferLen > 0
      ensures Valid() && fresh(leftBuffer) && fresh(rightBuffer)
      ensures leftBuffer.Length == rightBuffer.Length == bufferLen
      ensures forall k :: 0 <= k < bufferLen ==> leftBuffer[k] == 0 && rightBuffer[k] == 0
      ensures writePos == 0 && readPos == 0 && sampleCount == 0
      ensures State() == New(bufferLen)
    {
      leftBuffer := new I16[bufferLen](_ => 0);
      rightBuffer := new I16[bufferLen](_ => 0);
      writePos, readPos, sampleCount := 0, 0, 0;
      new;
      assert leftBuffer[..] == New(bufferLen).left;
      assert rightBuffer[..] == New(bufferLen).right;
    }

    /**
     * write_sample: the frame goes to slot writePos of each array, the
     * write cursor moves on by one modulo the capacity and the count grows
     * by one; the read cursor and every other slot are untouched. There is
     * no capacity check (see RingModel.WriteIntoFullOverwritesOldest).
     */
    method WriteSample(left: I16, right: I16)
      requires Valid()
      modifies this, leftBuffer, rightBuffer
      ensures Valid()
      ensures leftBuffer[..] == old(leftBuffer[..])[old(writePos) := left]
      ensures rightBuffer[..] == old(rightBuffer[..])[old(writePos) := right]
      ensures readPos == old(readPos)
      ensures State() == Write(old(State()), Frame(left, right))
    {
      ghost var after := Write(State(), Frame(left, right));
      leftBuffer[writePos] := left;
      rightBuffer[writePos] := right;
      writePos := (writePos + 1) % leftBuffer.Length;
      sampleCount := sampleCount + 1;
      assert State() == after;
    }

    /**
     * read: fills `left` and `right` with the left.Length oldest unread
     * frames, slot (readPos + i) mod capacity going to index i, advancing
     * the read cursor once per frame; the arrays of the buffer and the
     * write cursor are untouched. The source asserts the two requires on
     * the lengths.
     */
    method Read(left: array<I16>, right: array<I16>)
      requires Valid()
      requires left.Length == right.Length && left.Length <= sampleCount
      requires left != right
      requires left != leftBuffer && left != rightBuffer && right != leftBuffer && right != rightBuffer
      modifies this, left, right
      ensures Valid()
      ensures forall i :: 0 <= i < left.Length ==>
        Frame(left[i], right[i]) == RingModel.Read(old(State()), left.Length).0[i]
      ensures State() == RingModel.Read(old(State()), left.Length).1
    {
      var n := left.Length;
      ghost var start := State();
      var cap := leftBuffer.Length;
      for i := 0 to n
        invariant readPos == (start.readPos + i) % cap
        invariant writePos == start.writePos && sampleCount == start.sampleCount
        invariant forall k :: 0 <= k < i ==> Frame(left[k], right[k]) == Peek(start, k)
      {
        left[i] := leftBuffer[readPos];
        right[i] := rightBuffer[readPos];
        ModAddLeft(start.readPos + i, 1, cap);
        readPos := (readPos + 1) % cap;
      }
      sampleCount := sampleCount - n;
      assert State() == RingModel.Read(start, n).1;
    }

    /**
     * read_interleaved: the same frames as `read`, in the same order,
     * written side by side: out[2i] is the left and out[2i + 1] the right
     * sample of the i-th oldest unread frame. The source asserts that the
     * length is even and that enough frames are buffered.
     */
    method ReadInterleaved(out: array<I16>)
      requires Valid()
      requires out.Length % 2 == 0 && out.Length / 2 <= sampleCount
      requires out != leftBuffer && out != rightBuffer
      modifies this, out
      ensures Valid()
      ensures out[..] == Interleave(RingModel.Read(old(State()), out.Length / 2).0)
      ensures State() == RingModel.Read(old(State()), out.Length / 2).1
    {
      var n := out.Length / 2;
      ghost var start := State();
      var cap := leftBuffer.Length;
      var outIdx := 0;
      for i := 0 to n
        invariant outIdx == 2 * i
        invariant readPos == (start.readPos + i) % cap
        invariant writePos == start.writePos && sampleCount == start.sampleCount
        invariant forall k :: 0 <= k < i ==>
          out[2 * k] == Peek(start, k).left && out[2 * k + 1] == Peek(start, k).right
      {
        out[outIdx] := leftBuffer[readPos];
        out[outIdx + 1] := rightBuffer[readPos];
        outIdx := outIdx + 2;
        ModAddLeft(start.readPos + i, 1, cap);
        readPos := (readPos + 1) % cap;
      }
      sampleCount := sampleCount - n;
      assert State() == RingModel.Read(start, n).1;
      InterleavedRead(out[..], start, n);
    }

    /** get_sample_count: the number of unread frames; with overwrites it may exceed the capacity. */
    method GetSampleCount() returns (count: int)
      requires Valid()
      ensures count == |Unread(State())|
    {
      count := sampleCount;
    }
  }
}
