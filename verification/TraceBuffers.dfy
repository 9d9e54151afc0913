/**
 * The 64 KB trace buffer of trace.c: a linear cursor that dumps advance and a successful read rewinds. Memory is
 * word-addressed by byte offset from `paddr` and not bounded, so that a run past the end of the allocation is
 * visible as an offset at or above BUFFER_SIZE.
 */
module TraceBuffers {
  import opened Words

  const BUFFER_SIZE := 0x1_0000

  type Memory = map<nat, Word>

  ghost predicate Stored(mem: Memory, wp: nat)
  {
    wp % 4 == 0 && forall k: nat :: 4 * k < wp ==> 4 * k in mem
  }

  /** The words between paddr and the cursor. */
  ghost function Content(mem: Memory, wp: nat): (c: seq<Word>)
    requires Stored(mem, wp)
    ensures |c| == wp / 4
    ensures forall k :: 0 <= k < |c| ==> c[k] == mem[4 * k]
  {
    seq(wp / 4, k requires 0 <= k < wp / 4 => mem[4 * k])
  }

  /** Memory that was never written reads as the zero it was allocated with. */
  function WordAt(mem: Memory, a: nat): Word { if a in mem then mem[a] else 0 }

  /** Zeroing the allocation; what lies beyond it is not touched. */
  function Cleared(mem: Memory): (m: Memory)
    ensures m.Keys == mem.Keys
    ensures forall a: nat :: WordAt(m, a) == if a < 0x1_0000 then 0 else WordAt(mem, a)
  {
    map a: nat | a in mem :: if a < BUFFER_SIZE then 0 else mem[a]
  }

  lemma ContentAppend(mem: Memory, wp: nat, x: Word)
    requires Stored(mem, wp)
    ensures Stored(mem[wp := x], wp + 4) && Content(mem[wp := x], wp + 4) == Content(mem, wp) + [x]
  {
    var m := mem[wp := x];
    forall k: nat | 4 * k < wp + 4 ensures 4 * k in m {
      if 4 * k < wp {} else { assert 4 * k == wp; }
    }
    assert wp == 4 * (wp / 4);
  }

  /** What one read(2) call returns: a byte count or -EFAULT. */
  datatype ReadResult = Bytes(n: nat) | Fault

  class TraceBuffer {
    var mem: Memory
    var writePoint: nat
    var locked: bool

    ghost predicate Valid()
      reads this
    {
      Stored(mem, writePoint)
    }

    ghost function Contents(): seq<Word>
      reads this
      requires Valid()
    {
      Content(mem, writePoint)
    }

    constructor ()
      ensures Valid() && Contents() == [] && writePoint == 0 && !locked
    {
      mem, writePoint, locked := map[], 0, false;
    }

    method Lock()
      requires Valid() && !locked
      modifies this`locked
      ensures Valid() && locked
    {
      locked := true;
    }

    method Unlock()
      requires Valid() && locked
      modifies this`locked
      ensures Valid() && !locked
    {
      locked := false;
    }

    /** Stores one word at the write cursor and moves the cursor past it. */
    method Append(x: Word)
      requires Valid() && locked
      modifies this`mem, this`writePoint
      ensures Valid() && Contents() == old(Contents()) + [x] && writePoint == old(writePoint) + 4
    {
      ContentAppend(mem, writePoint, x);
      mem := mem[writePoint := x];
      writePoint := writePoint + 4;
    }

    /**
     * `faults(k)` tells whether copying the k-th word to user space faults. `copied` is the sequence of words handed to
     * copy_to_user successfully; the user address and `len` play no part in which words those are.
     */
    method CsRead(faults: nat -> bool) returns (r: ReadResult, copied: seq<Word>)
      requires Valid() && !locked
      modifies this
      ensures Valid() && !locked
      ensures (forall k :: 0 <= k < |old(Contents())| ==> !faults(k)) ==>
                r == Bytes(4 * |old(Contents())|) && copied == old(Contents()) && Contents() == [] && writePoint == 0
                && (if old(writePoint) > 0 then mem == Cleared(old(mem)) else mem == old(mem))
      ensures (exists k :: 0 <= k < |old(Contents())| && faults(k)) ==>
                r == Fault && mem == old(mem) && writePoint == old(writePoint) && |copied| < |old(Contents())|
                && copied == old(Contents())[..|copied|] && faults(|copied|) && forall k :: 0 <= k < |copied| ==> !faults(k)
    {
      var readPoint := 0;
      var bytesRead := 0;
      copied := [];
      if writePoint == 0 { return Bytes(0), []; }
      Lock();
      while readPoint != writePoint
        invariant Valid() && locked && mem == old(mem) && writePoint == old(writePoint)
        invariant readPoint % 4 == 0 && readPoint <= writePoint && bytesRead == readPoint && |copied| == readPoint / 4
        invariant copied == old(Contents())[..readPoint / 4]
        invariant forall k :: 0 <= k < |copied| ==> !faults(k)
        decreases writePoint - readPoint
      {
        assert readPoint == 4 * (readPoint / 4);
        var val := mem[readPoint];
        if faults(readPoint / 4) {
          Unlock();
          return Fault, copied;
        }
        assert val == old(Contents())[readPoint / 4];
        copied := copied + [val];
        readPoint := readPoint + 4;
        bytesRead := bytesRead + 4;
      }
      writePoint := 0;
      mem := Cleared(mem);
      Unlock();
      r := Bytes(bytesRead);
    }
  }
}
