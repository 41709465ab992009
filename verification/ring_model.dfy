/**
 * The stereo sample ring buffer of the DSP (ring_buffer.rs) as a value:
 * two backing sequences of equal length (the capacity), a write cursor,
 * a read cursor and a count of frames written but not yet read.
 * The class RingBuffers.RingBuffer is proved against these functions.
 */
module RingModel {
  import opened Numeric

  /** One stereo frame: a left and a right sample. */
  datatype Frame = Frame(left: I16, right: I16)

  datatype Ring = Ring(left: seq<I16>, right: seq<I16>, writePos: int, readPos: int, sampleCount: nat)
  {
    function Capacity(): nat { |left| }
  }

  /**
   * The invariant every operation keeps: both backing sequences have the
   * capacity, both cursors lie in [0, capacity) and the write cursor is
   * sampleCount slots after the read cursor, modulo the capacity.
   */
  predicate Valid(r: Ring) {
    && |r.left| > 0
    && |r.right| == |r.left|
    && 0 <= r.writePos < |r.left|
    && 0 <= r.readPos < |r.left|
    && r.writePos == (r.readPos + r.sampleCount) % |r.left|
  }

  /** The frame in the slot `i` places after the read cursor. */
  function Peek(r: Ring, i: nat): Frame
    requires Valid(r)
  {
    var k := (r.readPos + i) % |r.left|;
    Frame(r.left[k], r.right[k])
  }

  /** The frames a read of all sampleCount frames would hand out, in order. */
  function Unread(r: Ring): seq<Frame>
    requires Valid(r)
  {
    seq(r.sampleCount, i requires 0 <= i => Peek(r, i))
  }

  /** A fresh buffer: zero-filled slots of the given capacity, both cursors and the count at 0. */
  function New(capacity: nat): (r: Ring)
    requires capacity > 0
    ensures Valid(r) && r.Capacity() == capacity && Unread(r) == []
  {
    Ring(seq(capacity, _ => 0), seq(capacity, _ => 0), 0, 0, 0)
  }

  /**
   * write_sample: store the frame at the write cursor, advance that cursor
   * by one modulo the capacity and count one more frame. There is no check
   * against the capacity.
   */
  function Write(r: Ring, f: Frame): (w: Ring)
    requires Valid(r)
    ensures Valid(w) && w.Capacity() == r.Capacity()
    ensures w.readPos == r.readPos && w.sampleCount == r.sampleCount + 1
  {
    WriteCursor(r);
    Ring(r.left[r.writePos := f.left], r.right[r.writePos := f.right],
         (r.writePos + 1) % |r.left|, r.readPos, r.sampleCount + 1)
  }

  /**
   * read: hand out the n oldest unread frames, advance the read cursor by n
   * modulo the capacity and count n frames fewer; the slots and the write
   * cursor stay as they are.
   */
  function Read(r: Ring, n: nat): (res: (seq<Frame>, Ring))
    requires Valid(r) && n <= r.sampleCount
    ensures Valid(res.1) && |res.0| == n
    ensures res.1.left == r.left && res.1.right == r.right && res.1.writePos == r.writePos
    ensures res.1.sampleCount == r.sampleCount - n
  {
    ReadCursor(r, n);
    (seq(n, i requires 0 <= i => Peek(r, i)),
     Ring(r.left, r.right, r.writePos, (r.readPos + n) % |r.left|, r.sampleCount - n))
  }

  /** The layout read_interleaved writes: left and right of each frame, side by side. */
  function Interleave(fs: seq<Frame>): (s: seq<I16>)
    ensures |s| == 2 * |fs|
    ensures forall i :: 0 <= i < |fs| ==> s[2 * i] == fs[i].left && s[2 * i + 1] == fs[i].right
  {
    if fs == [] then [] else [fs[0].left, fs[0].right] + Interleave(fs[1..])
  }

  /** The write cursor, advanced, is still sampleCount + 1 slots after the read cursor. */
  lemma WriteCursor(r: Ring)
    requires Valid(r)
    ensures (r.writePos + 1) % |r.left| == (r.readPos + (r.sampleCount + 1)) % |r.left|
  {
    ModAddLeft(r.readPos + r.sampleCount, 1, |r.left|);
  }

  /** After the read cursor moves n slots, the write cursor is sampleCount - n slots after it. */
  lemma ReadCursor(r: Ring, n: nat)
    requires Valid(r) && n <= r.sampleCount
    ensures r.writePos == ((r.readPos + n) % |r.left| + (r.sampleCount - n)) % |r.left|
  {
    var a, b := r.readPos + n, r.sampleCount - n;
    ModAddLeft(a, b, |r.left|);
    assert a + b == r.readPos + r.sampleCount;
  }

  /** Samples laid out as read_interleaved writes them are the interleaving of the frames read. */
  lemma InterleavedRead(s: seq<I16>, r: Ring, n: nat)
    requires Valid(r) && n <= r.sampleCount && |s| == 2 * n
    requires forall k :: 0 <= k < n ==> s[2 * k] == Peek(r, k).left && s[2 * k + 1] == Peek(r, k).right
    ensures s == Interleave(Read(r, n).0)
  {
    var frames := Read(r, n).0;
    forall j | 0 <= j < |s|
      ensures s[j] == Interleave(frames)[j]
    {
      var k := j / 2;
      assert frames[k] == Peek(r, k);
      if j % 2 == 0 {
        assert j == 2 * k;
      } else {
        assert j == 2 * k + 1;
      }
    }
  }

  // ---------------------------------------------------------------------
  // FIFO behaviour

  /** While the buffer is not full, a write appends its frame to the unread frames. */
  lemma WriteEnqueues(r: Ring, f: Frame)
    requires Valid(r) && r.sampleCount < r.Capacity()
    ensures Unread(Write(r, f)) == Unread(r) + [f]
  {
    var w := Write(r, f);
    var n := |r.left|;
    forall i | 0 <= i < r.sampleCount
      ensures Unread(w)[i] == Unread(r)[i]
    {
      ModDistinct(r.readPos, i, r.sampleCount, n);
    }
  }

  /**
   * Writing into a full buffer overwrites the oldest unread frame: the next
   * read returns the new frame first, the frame it replaced is lost, and
   * sampleCount exceeds the capacity (the new frame is then counted twice).
   */
  lemma WriteIntoFullOverwritesOldest(r: Ring, f: Frame)
    requires Valid(r) && r.sampleCount == r.Capacity()
    ensures Write(r, f).sampleCount > r.Capacity()
    ensures Unread(Write(r, f)) == [f] + Unread(r)[1..] + [f]
  {
    var w := Write(r, f);
    var n, p := |r.left|, r.readPos;
    ModUnique(p, n, 0, p);
    ModUnique(p + n, n, 1, p);
    assert r.writePos == p;
    var u, u' := Unread(r), Unread(w);
    assert u'[0] == f;
    assert u'[n] == f;
    forall i | 1 <= i < n
      ensures u'[i] == u[i]
    {
      ModDistinct(p, 0, i, n);
    }
    assert u' == [f] + u[1..] + [f];
  }

  lemma PeekAfterRead(r: Ring, n: nat, i: nat)
    requires Valid(r) && n <= r.sampleCount
    ensures Peek(Read(r, n).1, i) == Peek(r, n + i)
  {
    var cap, a := |r.left|, r.readPos + n;
    ModAddLeft(a, i, cap);
    assert Read(r, n).1.readPos == a % cap;
    assert a + i == r.readPos + (n + i);
  }

  /** A read hands out the oldest n unread frames and leaves the rest, in order. */
  lemma ReadDequeues(r: Ring, n: nat)
    requires Valid(r) && n <= r.sampleCount
    ensures Read(r, n).0 == Unread(r)[..n]
    ensures Unread(Read(r, n).1) == Unread(r)[n..]
  {
    var (out, r') := Read(r, n);
    var u, u' := Unread(r), Unread(r');
    forall i | 0 <= i < |u'|
      ensures u'[i] == u[n..][i]
    {
      PeekAfterRead(r, n, i);
    }
  }

  /** A producer or consumer step on the buffer. */
  datatype Op = Put(frame: Frame) | Take(count: nat)

  /** The frames the steps hand to the buffer, in order. */
  function Written(ops: seq<Op>): seq<Frame>
  {
    if ops == [] then []
    else (if ops[0].Put? then [ops[0].frame] else []) + Written(ops[1..])
  }

  /** How many frames the Takes ask for in all. */
  function Taken(ops: seq<Op>): nat
  {
    if ops == [] then 0
    else (if ops[0].Take? then ops[0].count else 0) + Taken(ops[1..])
  }

  /** One Put per frame, in order. */
  function Puts(fs: seq<Frame>): seq<Op>
  {
    if fs == [] then [] else [Put(fs[0])] + Puts(fs[1..])
  }

  /**
   * Every Take asks for no more frames than are buffered (the source asserts
   * this), and, when `bounded`, every Put finds the buffer not full.
   */
  predicate Disciplined(r: Ring, ops: seq<Op>, bounded: bool)
    requires Valid(r)
    decreases |ops|
  {
    ops == [] ||
    match ops[0]
    case Put(f) => (bounded ==> r.sampleCount < r.Capacity()) && Disciplined(Write(r, f), ops[1..], bounded)
    case Take(n) => n <= r.sampleCount && Disciplined(Read(r, n).1, ops[1..], bounded)
  }

  /** The frames the Takes receive, in order, and the final buffer. */
  function Run(r: Ring, ops: seq<Op>): (res: (seq<Frame>, Ring))
    requires Valid(r) && Disciplined(r, ops, false)
    ensures Valid(res.1) && res.1.Capacity() == r.Capacity()
    ensures |res.0| == Taken(ops)
    ensures res.1.sampleCount == r.sampleCount + |Written(ops)| - Taken(ops)
    decreases |ops|
  {
    if ops == [] then ([], r)
    else match ops[0]
      case Put(f) => Run(Write(r, f), ops[1..])
      case Take(n) =>
        var (out, r1) := Read(r, n);
        var (rest, r2) := Run(r1, ops[1..]);
        (out + rest, r2)
  }

  lemma {:induction false} BoundedIsDisciplined(r: Ring, ops: seq<Op>)
    requires Valid(r) && Disciplined(r, ops, true)
    ensures Disciplined(r, ops, false)
    decreases |ops|
  {
    if ops != [] {
      match ops[0]
      case Put(f) => BoundedIsDisciplined(Write(r, f), ops[1..]);
      case Take(n) => BoundedIsDisciplined(Read(r, n).1, ops[1..]);
    }
  }

  /**
   * The FIFO round-trip law: as long as no write finds the buffer full and no
   * read asks for more than is buffered, the frames read, followed by those
   * still unread, are the frames that were unread at the start followed by
   * the frames written, in write order.
   */
  lemma {:induction false} RunIsFifo(r: Ring, ops: seq<Op>)
    requires Valid(r) && Disciplined(r, ops, true)
    ensures Disciplined(r, ops, false)
    ensures Run(r, ops).0 + Unread(Run(r, ops).1) == Unread(r) + Written(ops)
    decreases |ops|
  {
    BoundedIsDisciplined(r, ops);
    if ops != [] {
      match ops[0]
      case Put(f) =>
        WriteEnqueues(r, f);
        RunIsFifo(Write(r, f), ops[1..]);
        assert Written(ops) == [f] + Written(ops[1..]);
      case Take(n) =>
        ReadDequeues(r, n);
        var (out, r1) := Read(r, n);
        RunIsFifo(r1, ops[1..]);
        var (rest, r2) := Run(r1, ops[1..]);
        assert Written(ops) == Written(ops[1..]);
        calc {
          Run(r, ops).0 + Unread(r2);
          out + rest + Unread(r2);
          out + (rest + Unread(r2));
          out + (Unread(r1) + Written(ops[1..]));
          (out + Unread(r1)) + Written(ops[1..]);
          { assert out + Unread(r1) == Unread(r)[..n] + Unread(r)[n..] == Unread(r); }
          Unread(r) + Written(ops);
        }
    }
  }

  lemma {:induction false} PutsThenTakeAll(r: Ring, fs: seq<Frame>)
    requires Valid(r) && r.sampleCount + |fs| <= r.Capacity()
    ensures var ops := Puts(fs) + [Take(r.sampleCount + |fs|)];
            Disciplined(r, ops, true) && Written(ops) == fs && Taken(ops) == r.sampleCount + |fs|
    decreases |fs|
  {
    var ops := Puts(fs) + [Take(r.sampleCount + |fs|)];
    if fs != [] {
      var w := Write(r, fs[0]);
      PutsThenTakeAll(w, fs[1..]);
      assert ops[0] == Put(fs[0]);
      assert ops[1..] == Puts(fs[1..]) + [Take(w.sampleCount + |fs[1..]|)];
      assert fs == [fs[0]] + fs[1..];
    } else {
      assert ops[1..] == [];
    }
  }

  /** Starting empty, writing at most a capacity of frames and then reading them all returns them in order. */
  lemma RoundTripFromNew(capacity: nat, fs: seq<Frame>)
    requires 0 < capacity && |fs| <= capacity
    ensures var ops := Puts(fs) + [Take(|fs|)];
            Disciplined(New(capacity), ops, false) && Run(New(capacity), ops).0 == fs
  {
    var r, ops := New(capacity), Puts(fs) + [Take(|fs|)];
    PutsThenTakeAll(r, fs);
    RunIsFifo(r, ops);
    var (out, final) := Run(r, ops);
    assert out + Unread(final) == fs;
    assert |out| == |fs|;
    assert out == (out + Unread(final))[..|out|];
  }
}
