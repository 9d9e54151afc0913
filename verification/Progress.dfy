/**
 * No run can get into a state from which the calls cannot be completed: wherever the software polls, some hardware steps
 * make the poll succeed. So the guarantees about completed calls are never vacuous.
 */
module Progress {
  import opened Words
  import opened Devices
  import opened Programs
  import opened Chain
  import opened LocalRuns
  import opened Sessions
  import opened Guarantees

  lemma {:induction false} ExecAppend(w: World, a: seq<Event>, b: seq<Event>)
    ensures Exec(w, a + b) == Exec(Exec(w, a), b)
  {
    hide Step;
    if b == [] {
      assert a + b == a;
    } else {
      var c := a + b;
      assert c[..|c| - 1] == a + b[..|b| - 1] && c[|c| - 1] == b[|b| - 1];
      ExecAppend(w, a, b[..|b| - 1]);
    }
  }

  lemma ExecFirst(w: World, e: Event, es: seq<Event>)
    ensures Exec(w, [e] + es) == Exec(Step(w, e), es)
  {
    hide Step;
    ExecAppend(w, [e], es);
    assert [e][..0] == [];
    assert Exec(w, [e]) == Step(Exec(w, []), e);
  }

  /** Calls of the current whole-chain call that follow the current one. */
  function CallsLeft(n: nat, m: Mark): nat
    requires m.i < n
  {
    if m.up then m.i else n - 1 - m.i
  }

  /** How far the component being polled or read out is from done. */
  function Delay(d: Device): nat
  {
    |d.fifo| + (if d.phase.Running? then 2 else if d.phase.Stopping? then 1 else 0)
  }

  /** What to do next: the software's step, or the hardware step its poll is waiting for. */
  lemma NextEvent(w: World, base: seq<Device>, m: Mark) returns (e: Event, m': Mark)
    requires Inv(w, base, m) && m.pc < |Body(Kinds(base), m)|
    ensures Inv(Step(w, e), base, m') && m' in {m, m.(pc := m.pc + 1)}
    ensures m' == m ==> |Step(w, e).devs| == |w.devs| && Delay(Step(w, e).devs[m.i]) < Delay(w.devs[m.i])
  {
    hide Placed, Ledger, Idle, Flow, Clean, Up, Down, From, Moving, Act, MoveOk, Todo, HwStep;
    PlacedShape(w, base, m);
    KindsIn(base, m.i);
    SwMoves(w, base, m);
    var i, d := Body(Kinds(base), m)[m.pc], w.devs[m.i];
    if i.Dump? && d.Rrd() != ONES {
      e, m' := Sw, m;
      SwKeeps(w, base, m);
      assert SwMark(w, m) == m;
    } else if !i.Dump? && Blocked(d, i) {
      m' := m;
      e := Hardware(WhatUnblocks(d, m.i));
      HwKeeps(w, base, m, e.h);
      Unblocks(w, base, m);
    } else {
      e, m' := Sw, m.(pc := m.pc + 1);
      SwKeeps(w, base, m);
      assert SwMark(w, m) == m';
    }
  }

  function WhatUnblocks(d: Device, j: nat): Hw
  {
    if d.phase.Stopping? then StopDone(j) else if d.kind.Link? && d.fifo != [] then Drain(j) else FlushDone(j)
  }

  /** A component whose poll fails is stopping, or is running with a flush pending. */
  lemma BlockedState(d: Device, d0: Device, s: Word, m: Mark, i: Instr)
    requires Off(d0) && Moving(d, d0, s, m) && Blocked(d, i)
    requires var p := if m.up then Up(d0.kind, m.first) else Down(d0.kind); m.pc < |p| && i == p[m.pc]
    ensures !m.up && d0.IsTmc() && d.kind == d0.kind && (d.phase.Stopping? || (d.phase.Running? && d.Flushing() && m.pc == 4))
  {
    hide RiseDev, Act, Proper;
    if m.up {
      RiseStep(d0, m.first, m.pc, s);
    } else {
      DumpAt(d0.kind, m.pc);
    }
  }

  lemma Unblocks(w: World, base: seq<Device>, m: Mark)
    requires Inv(w, base, m) && m.pc < |Body(Kinds(base), m)| && Blocked(w.devs[m.i], Body(Kinds(base), m)[m.pc])
    ensures var w' := HwStep(w, WhatUnblocks(w.devs[m.i], m.i));
            |w'.devs| == |w.devs| && Delay(w'.devs[m.i]) < Delay(w.devs[m.i])
  {
    hide Placed, Ledger, Idle, Flow, Clean, Up, Down, From, Moving, Act, Todo, Deliver, Kinds;
    PlacedShape(w, base, m);
    KindsIn(base, m.i);
    var d := w.devs[m.i];
    BlockedState(d, base[m.i], w.scratch, m, Body(Kinds(base), m)[m.pc]);
    if !d.phase.Stopping? {
      if d.kind.Link? && d.fifo != [] {
        DeliverBefore(w.devs[m.i := d.(fifo := d.fifo[1..])], w.seen, m.i + 1, d.fifo[0]);
      } else {
        FlushStops(d, base[m.i], w.scratch, m.pc) by { FallOf(d, base[m.i], w.scratch, m); }
      }
    }
  }

  lemma FallOf(d: Device, d0: Device, s: Word, m: Mark)
    requires KindOk(d0.kind) && d0.IsTmc() && !m.up && Moving(d, d0, s, m)
    ensures FallTmc(d0, d, s, m.pc)
  {
  }

  lemma FlushStops(d: Device, d0: Device, s: Word, k: nat)
    requires KindOk(d0.kind) && d0.IsTmc() && FallTmc(d0, d, s, k) && k == 4 && d.phase.Running?
        && (d.kind.Link? ==> d.fifo == [])
    ensures d.FlushDone().phase.Stopping? && d.FlushDone().fifo == d.fifo
  {
  }

  lemma {:induction false} DeliverBefore(devs: seq<Device>, seen: seq<Word>, j: nat, x: Word)
    ensures forall k :: 0 <= k < j && k < |devs| ==> Deliver(devs, seen, j, x).0[k] == devs[k]
    decreases |devs| - j
  {
    if j < |devs| && devs[j].kind.Funnel? && devs[j].PortOpen() { DeliverBefore(devs, seen, j + 1, x); }
  }

  lemma Completes(w: World, base: seq<Device>, m: Mark) returns (es: seq<Event>)
    requires Inv(w, base, m) && m.i < |base| && m.i < |w.devs| && MarkOk(Kinds(base), m)
    ensures Exec(w, es).todo == []
    decreases m.turns, CallsLeft(|base|, m), |Body(Kinds(base), m)| - m.pc, Delay(w.devs[m.i])
  {
    hide Inv, Up, Down, Step, Delay, Kinds;
    KindsSize(base);
    if m.pc == |Body(Kinds(base), m)| {
      InvTodo(w, base, m);
      TodoNext(Kinds(base), m);
      if AtEnd(Kinds(base), m) {
        es := [];
      } else {
        var next := HandOver(w, base, m);
        var m' := NextCall(Kinds(base), m);
        InvShape(w, next, m');
        es := Completes(w, next, m');
      }
    } else {
      var e, m' := NextEvent(w, base, m);
      InvShape(Step(w, e), base, m');
      BodySame(Kinds(base), m, m');
      var rest := Completes(Step(w, e), base, m');
      es := [e] + rest;
      ExecFirst(w, e, rest);
    }
  }

  lemma KindsSize(base: seq<Device>)
    ensures |Kinds(base)| == |base|
  {
  }

  lemma BodySame(ks: seq<Kind>, m: Mark, m': Mark)
    requires MarkOk(ks, m) && m' in {m, m.(pc := m.pc + 1)}
    ensures Body(ks, m') == Body(ks, m)
  {
    hide Up, Down;
  }

  lemma InvTodo(w: World, base: seq<Device>, m: Mark)
    requires Inv(w, base, m)
    ensures MarkOk(Kinds(base), m) && w.todo == Todo(Kinds(base), m)
  {
    hide Ledger, Idle, Flow, Clean, Todo, Moving, IsUp;
  }

  predicate Finished(w: World) { w.todo == [] }

  /** Every run can be extended to one that completes all its whole-chain calls. */
  lemma {:induction false} AlwaysCompletable(base: seq<Device>, scratch: Word, turns: nat, es: seq<Event>)
    requires ResetChain(base)
    ensures exists more: seq<Event> :: Finished(Exec(Start(base, scratch, turns), es + more))
  {
    hide Inv, Start, Step, MarkOk;
    var cur, m := Runs(base, scratch, turns, es);
    InvShape(Exec(Start(base, scratch, turns), es), cur, m);
    MarkBound(Kinds(cur), m);
    KindsSize(cur);
    var more := Completes(Exec(Start(base, scratch, turns), es), cur, m);
    ExecAppend(Start(base, scratch, turns), es, more);
    assert Finished(Exec(Start(base, scratch, turns), es + more));
  }

  lemma MarkBound(ks: seq<Kind>, m: Mark)
    requires MarkOk(ks, m)
    ensures m.i < |ks|
  {
  }
}
