/**
 * The stand-alone FIFO device of mount_cs_device.c: a read and a write cursor over one linear buffer. Both go back to the
 * start only when a reader finds them equal.
 */
module CsDevices {
  import opened Words

  const BUFFER_SIZE := 0x1_0000

  /** The device: memory by byte offset from paddr, and the two cursors as offsets. */
  datatype State = State(mem: map<nat, Word>, readPoint: nat, writePoint: nat)

  /** One system call: a write of `val`, or a read; `ok` is false when the copy to or from user space faults. */
  datatype Op = Write(val: Word, ok: bool) | Read(ok: bool)

  /** What the call returns: a byte count (and for a read the word copied out), or -EFAULT. */
  datatype Reply = Wrote | Got(val: Word) | End | Fault

  ghost predicate Valid(s: State)
  {
    && s.readPoint % 4 == 0 && s.writePoint % 4 == 0 && s.readPoint <= s.writePoint
    && forall k: nat :: s.readPoint <= 4 * k < s.writePoint ==> 4 * k in s.mem
  }

  /** The words between the cursors. */
  ghost function Queue(s: State): (q: seq<Word>)
    requires Valid(s)
    ensures |q| == (s.writePoint - s.readPoint) / 4
  {
    var n := (s.writePoint - s.readPoint) / 4;
    seq(n, k requires 0 <= k < n => s.mem[4 * (s.readPoint / 4 + k)])
  }

  /** An unbounded queue: a read takes the oldest word and gives it to the caller; if the copy faults it is gone. */
  function QueueStep(q: seq<Word>, op: Op): (seq<Word>, Reply)
  {
    match op
    case Write(val, ok) => if ok then (q + [val], Wrote) else (q, Fault)
    case Read(ok) => if q == [] then (q, End) else (q[1..], if ok then Got(q[0]) else Fault)
  }

  /** Memory that was never written reads as the zero it was allocated with. */
  function WordAt(mem: map<nat, Word>, a: nat): Word { if a in mem then mem[a] else 0 }

  class CsDevice {
    var mem: map<nat, Word>
    var readPoint: nat
    var writePoint: nat

    function Snapshot(): State
      reads this
    {
      State(mem, readPoint, writePoint)
    }

    constructor ()
      ensures Valid(Snapshot()) && Queue(Snapshot()) == [] && Snapshot() == State(map[], 0, 0)
    {
      mem, readPoint, writePoint := map[], 0, 0;
    }

    method CsRead(ok: bool) returns (r: Reply)
      requires Valid(Snapshot())
      modifies this
      ensures Valid(Snapshot())
      ensures (Queue(Snapshot()), r) == QueueStep(old(Queue(Snapshot())), Read(ok))
      ensures old(Queue(Snapshot())) == [] ==> r == End && Queue(Snapshot()) == [] && readPoint == writePoint == 0
      ensures old(Queue(Snapshot())) == [] ==> forall a :: 0 <= a < 0x1_0000 ==> WordAt(mem, a) == 0
      ensures old(Queue(Snapshot())) != [] ==> Queue(Snapshot()) == old(Queue(Snapshot()))[1..]
      ensures old(Queue(Snapshot())) != [] ==> r == if ok then Got(old(Queue(Snapshot()))[0]) else Fault
      ensures Snapshot() == DeviceStep(old(Snapshot()), Read(ok))
    {
      ghost var before := Snapshot();
      if readPoint == writePoint {
        writePoint := 0;
        readPoint := 0;
        mem := map a: nat | a in mem :: if a < BUFFER_SIZE then 0 else mem[a];
        return End;
      }
      var val := mem[4 * (readPoint / 4)];
      readPoint := readPoint + 4;
      TakeOldest(before);
      if !ok { return Fault; }
      r := Got(val);
    }

    /** A faulting copy_from_user may have written part of the word at write_point; the cursor does not move. */
    method CsWrite(val: Word, ok: bool) returns (r: Reply)
      requires Valid(Snapshot())
      modifies this`mem, this`writePoint
      ensures Valid(Snapshot())
      ensures (Queue(Snapshot()), r) == QueueStep(old(Queue(Snapshot())), Write(val, ok))
      ensures if ok then r == Wrote && Queue(Snapshot()) == old(Queue(Snapshot())) + [val]
              else r == Fault && Queue(Snapshot()) == old(Queue(Snapshot()))
      ensures Snapshot() == DeviceStep(old(Snapshot()), Write(val, ok))
    {
      ghost var before := Snapshot();
      AppendNewest(before, val);
      mem := mem[writePoint := val];
      if !ok { return Fault; }
      writePoint := writePoint + 4;
      r := Wrote;
    }
  }

  /** The device state after a call, for histories of calls. */
  function DeviceStep(s: State, op: Op): State
  {
    match op
    case Write(val, ok) => s.(mem := s.mem[s.writePoint := val], writePoint := if ok then s.writePoint + 4 else s.writePoint)
    case Read(_) =>
      if s.readPoint == s.writePoint
      then State(map a: nat | a in s.mem :: if a < BUFFER_SIZE then 0 else s.mem[a], 0, 0)
      else s.(readPoint := s.readPoint + 4)
  }

  function DeviceReply(s: State, op: Op): Reply
  {
    match op
    case Write(_, ok) => if ok then Wrote else Fault
    case Read(ok) =>
      if s.readPoint == s.writePoint then End
      else if ok && s.readPoint in s.mem then Got(s.mem[s.readPoint])
      else Fault
  }

  lemma TakeOldest(s: State)
    requires Valid(s) && s.readPoint < s.writePoint
    ensures Queue(s) != [] && s.readPoint in s.mem && Queue(s)[0] == s.mem[s.readPoint]
    ensures Valid(s.(readPoint := s.readPoint + 4)) && Queue(s.(readPoint := s.readPoint + 4)) == Queue(s)[1..]
  {
    assert s.readPoint == 4 * (s.readPoint / 4);
  }

  /** A word put at the write cursor is not in the queue until the cursor moves. */
  lemma PutBeyond(s: State, val: Word)
    requires Valid(s)
    ensures var t := s.(mem := s.mem[s.writePoint := val]); Valid(t) && Queue(t) == Queue(s)
  {
    var t := s.(mem := s.mem[s.writePoint := val]);
    forall k | 0 <= k < |Queue(s)| ensures Queue(t)[k] == Queue(s)[k] {
      assert 4 * (s.readPoint / 4 + k) < s.writePoint;
    }
  }

  lemma MoveCursor(s: State)
    requires Valid(s) && s.writePoint in s.mem
    ensures var u := s.(writePoint := s.writePoint + 4); Valid(u) && Queue(u) == Queue(s) + [s.mem[s.writePoint]]
  {
    var u := s.(writePoint := s.writePoint + 4);
    assert s.readPoint == 4 * (s.readPoint / 4) && s.writePoint == 4 * (s.writePoint / 4);
    forall k: nat | u.readPoint <= 4 * k < u.writePoint ensures 4 * k in u.mem {
      if 4 * k < s.writePoint {} else { assert 4 * k == s.writePoint; }
    }
    assert 4 * (s.readPoint / 4 + |Queue(s)|) == s.writePoint;
  }

  lemma AppendNewest(s: State, val: Word)
    requires Valid(s)
    ensures var t := s.(mem := s.mem[s.writePoint := val]);
            Valid(t) && Queue(t) == Queue(s) && Valid(t.(writePoint := t.writePoint + 4))
                && Queue(t.(writePoint := t.writePoint + 4)) == Queue(s) + [val]
  {
    hide Valid, Queue;
    PutBeyond(s, val);
    MoveCursor(s.(mem := s.mem[s.writePoint := val]));
  }

  lemma StepRefines(s: State, op: Op)
    requires Valid(s)
    ensures Valid(DeviceStep(s, op)) && (Queue(DeviceStep(s, op)), DeviceReply(s, op)) == QueueStep(Queue(s), op)
  {
    match op
    case Write(val, ok) => AppendNewest(s, val);
    case Read(ok) => if s.readPoint < s.writePoint { TakeOldest(s); }
  }

  // ---- Whole histories ----

  function Run(ops: seq<Op>): State
  {
    if ops == [] then State(map[], 0, 0) else DeviceStep(Run(ops[..|ops| - 1]), ops[|ops| - 1])
  }

  function Replies(ops: seq<Op>): seq<Reply>
  {
    if ops == [] then [] else Replies(ops[..|ops| - 1]) + [DeviceReply(Run(ops[..|ops| - 1]), ops[|ops| - 1])]
  }

  function QueueRun(ops: seq<Op>): seq<Word>
  {
    if ops == [] then [] else QueueStep(QueueRun(ops[..|ops| - 1]), ops[|ops| - 1]).0
  }

  function QueueReplies(ops: seq<Op>): seq<Reply>
  {
    if ops == [] then [] else QueueReplies(ops[..|ops| - 1]) + [QueueStep(QueueRun(ops[..|ops| - 1]), ops[|ops| - 1]).1]
  }

  /** No sequence of calls can tell the device from an unbounded queue: rewinds are invisible. */
  lemma {:induction false} RefinesQueue(ops: seq<Op>)
    ensures Valid(Run(ops)) && Queue(Run(ops)) == QueueRun(ops) && Replies(ops) == QueueReplies(ops)
  {
    if ops != [] {
      RefinesQueue(ops[..|ops| - 1]);
      StepRefines(Run(ops[..|ops| - 1]), ops[|ops| - 1]);
    }
  }

  function Written(ops: seq<Op>): seq<Word>
  {
    if ops == [] then [] else
      Written(ops[..|ops| - 1]) + match ops[|ops| - 1] case Write(v, true) => [v] case _ => []
  }

  /** The words that left the queue, oldest first, each marked with whether its reader got it. */
  function Left(ops: seq<Op>): seq<(Word, bool)>
  {
    if ops == [] then [] else
      var q := QueueRun(ops[..|ops| - 1]);
      Left(ops[..|ops| - 1]) + match ops[|ops| - 1] case Read(ok) => (if q == [] then [] else [(q[0], ok)]) case _ => []
  }

  function Values(s: seq<(Word, bool)>): (r: seq<Word>)
    ensures |r| == |s| && forall k :: 0 <= k < |s| ==> r[k] == s[k].0
  {
    seq(|s|, k requires 0 <= k < |s| => s[k].0)
  }

  lemma ValuesAppend(s: seq<(Word, bool)>, x: (Word, bool))
    ensures Values(s + [x]) == Values(s) + [x.0]
  {
  }

  lemma HistoryStep(ops: seq<Op>)
    requires ops != []
    ensures var prev, op := ops[..|ops| - 1], ops[|ops| - 1];
            var q := QueueRun(prev);
            && Written(ops) == Written(prev) + (if op.Write? && op.ok then [op.val] else [])
            && Left(ops) == Left(prev) + (if op.Read? && q != [] then [(q[0], op.ok)] else [])
            && QueueRun(ops) == (if op.Write? then (if op.ok then q + [op.val] else q) else if q == [] then q else q[1..])
  {
  }

  /** The words of the accepted writes, in order, are the words that left followed by the words still there. */
  lemma {:induction false} WrittenAreLeftOrHere(ops: seq<Op>)
    ensures Written(ops) == Values(Left(ops)) + QueueRun(ops)
  {
    if ops == [] {
    } else {
      hide Values, Written, Left, QueueRun;
      HistoryStep(ops);
      var prev, op := ops[..|ops| - 1], ops[|ops| - 1];
      WrittenAreLeftOrHere(prev);
      var q, gone := QueueRun(prev), Left(prev);
      assert gone + [] == gone;
      if op.Write? && op.ok {
        assert Values(gone) + (q + [op.val]) == Values(gone) + q + [op.val];
      } else if op.Read? && q != [] {
        ValuesAppend(gone, (q[0], op.ok));
        assert q == [q[0]] + q[1..];
      }
    }
  }

  /** The k-th reply is -EFAULT for a read of a non-empty device exactly when that read dropped a word. */
  lemma {:induction false} DroppedExactlyOnFault(ops: seq<Op>, ok: bool)
    ensures var q := QueueRun(ops); var r := DeviceReply(Run(ops), Read(ok));
            && (r == End <==> q == [])
            && (q != [] ==> Left(ops + [Read(ok)]) == Left(ops) + [(q[0], ok)])
            && (q != [] ==> (r == Fault <==> !ok) && (ok ==> r == Got(q[0])))
  {
    RefinesQueue(ops);
    StepRefines(Run(ops), Read(ok));
    assert (ops + [Read(ok)])[..|ops|] == ops;
  }

  /** The words of those writes that the caller was told had succeeded, in order. */
  function Answered(ops: seq<Op>, replies: seq<Reply>): seq<Word>
    requires |ops| == |replies|
  {
    if ops == [] then []
    else
      var n := |ops| - 1;
      Answered(ops[..n], replies[..n]) + if ops[n].Write? && replies[n] == Wrote then [ops[n].val] else []
  }

  /**
   * What the callers see: a write is answered with success exactly if its copy succeeded and with -EFAULT otherwise; and the
   * words of the writes answered with success are, in order, those that left followed by those still queued.
   */
  lemma {:induction false} RepliesTell(ops: seq<Op>)
    ensures |Replies(ops)| == |ops|
    ensures forall k :: 0 <= k < |ops| && ops[k].Write? ==> Replies(ops)[k] == if ops[k].ok then Wrote else Fault
    ensures Answered(ops, Replies(ops)) == Written(ops) == Values(Left(ops)) + QueueRun(ops)
  {
    WrittenAreLeftOrHere(ops);
    if ops != [] {
      hide Left, QueueRun, Values, Run;
      var prev := ops[..|ops| - 1];
      RepliesTell(prev);
      assert Replies(ops)[..|prev|] == Replies(prev);
      assert Answered(prev, Replies(prev)) == Written(prev);
    }
  }

  /** The words of those reads that the caller was told had succeeded. */
  function Gained(replies: seq<Reply>): seq<Word>
  {
    if replies == [] then []
    else Gained(replies[..|replies| - 1]) + match replies[|replies| - 1] case Got(v) => [v] case _ => []
  }

  /** The words that left and were marked as delivered. */
  function Delivered(left: seq<(Word, bool)>): seq<Word>
  {
    if left == [] then []
    else Delivered(left[..|left| - 1]) + if left[|left| - 1].1 then [left[|left| - 1].0] else []
  }

  lemma DeliveredNext(left: seq<(Word, bool)>, x: (Word, bool))
    ensures Delivered(left + [x]) == Delivered(left) + if x.1 then [x.0] else []
  {
    assert (left + [x])[..|left|] == left;
  }

  lemma GainedNext(replies: seq<Reply>, r: Reply)
    ensures Gained(replies + [r]) == Gained(replies) + match r case Got(v) => [v] case _ => []
  {
    assert (replies + [r])[..|replies|] == replies;
  }

  /** Callers got exactly the words that left the queue, in order, without those whose read faulted. */
  lemma {:induction false} ReadersGetDelivered(ops: seq<Op>)
    ensures Gained(Replies(ops)) == Delivered(Left(ops))
  {
    if ops != [] {
      hide Gained, Delivered, Run, QueueRun;
      var prev, op := ops[..|ops| - 1], ops[|ops| - 1];
      ReadersGetDelivered(prev);
      RefinesQueue(prev);
      StepRefines(Run(prev), op);
      GainedNext(Replies(prev), DeviceReply(Run(prev), op));
      if op.Read? && QueueRun(prev) != [] { DeliveredNext(Left(prev), (QueueRun(prev)[0], op.ok)); }
      assert Left(prev) + [] == Left(prev);
    }
  }

  /** A read that finds the device empty leaves every word of the buffer zero. */
  lemma EmptyReadClears(ops: seq<Op>, ok: bool, a: nat)
    requires QueueRun(ops) == [] && a < 0x1_0000
    ensures Run(ops + [Read(ok)]).readPoint == Run(ops + [Read(ok)]).writePoint == 0 && WordAt(Run(ops + [Read(ok)]).mem, a) == 0
  {
    RefinesQueue(ops);
    assert (ops + [Read(ok)])[..|ops|] == ops;
  }

  // ---- Capacity ----

  /** Words accepted since the last read that found the device empty. */
  function SinceEmpty(ops: seq<Op>): nat
  {
    if ops == [] then 0
    else
      match ops[|ops| - 1]
      case Write(_, ok) => SinceEmpty(ops[..|ops| - 1]) + if ok then 1 else 0
      case Read(_) => if QueueRun(ops[..|ops| - 1]) == [] then 0 else SinceEmpty(ops[..|ops| - 1])
  }

  lemma {:induction false} CursorIsHistory(ops: seq<Op>)
    ensures Run(ops).writePoint == 4 * SinceEmpty(ops)
  {
    if ops != [] {
      CursorIsHistory(ops[..|ops| - 1]);
      RefinesQueue(ops[..|ops| - 1]);
    }
  }

  /** The write cursor stays in the buffer throughout exactly when no more than 0x4000 words are accepted between empty reads. */
  lemma {:induction false} InBoundsIff(ops: seq<Op>)
    ensures (forall k :: 0 <= k <= |ops| ==> Run(ops[..k]).readPoint <= Run(ops[..k]).writePoint <= BUFFER_SIZE)
       <==> (forall k :: 0 <= k <= |ops| ==> SinceEmpty(ops[..k]) <= 0x4000)
  {
    forall k | 0 <= k <= |ops|
      ensures Run(ops[..k]).readPoint <= Run(ops[..k]).writePoint <= BUFFER_SIZE <==> SinceEmpty(ops[..k]) <= 0x4000
    {
      CursorIsHistory(ops[..k]);
      RefinesQueue(ops[..k]);
    }
  }

  /** n rounds of one write and one read. */
  function PingPong(n: nat, x: Word): seq<Op>
  {
    if n == 0 then [] else PingPong(n - 1, x) + [Write(x, true)] + [Read(true)]
  }

  lemma RoundEmpties(p: seq<Op>, x: Word)
    requires QueueRun(p) == []
    ensures var r := p + [Write(x, true)] + [Read(true)]; QueueRun(r) == [] && SinceEmpty(r) == SinceEmpty(p) + 1
  {
    var q := p + [Write(x, true)];
    assert q[..|q| - 1] == p;
    assert QueueRun(q) == [x];
    var r := q + [Read(true)];
    assert r[..|r| - 1] == q;
  }

  /** The bound is on history, not on occupancy: with never more than one word queued the cursor still runs away. */
  lemma {:induction false} OccupancyDoesNotBound(n: nat, x: Word)
    ensures QueueRun(PingPong(n, x)) == [] && SinceEmpty(PingPong(n, x)) == n && Run(PingPong(n, x)).writePoint == 4 * n
  {
    if n > 0 {
      hide QueueRun, SinceEmpty, Run;
      OccupancyDoesNotBound(n - 1, x);
      RoundEmpties(PingPong(n - 1, x), x);
    }
    CursorIsHistory(PingPong(n, x));
  }
}
