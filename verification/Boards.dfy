/**
 * The driver in its own form: one method per C function, reading and writing registers of a board whose hardware moves
 * on its own before every access. The board records the register program it has performed (`done`) and the interleaving
 * in which it was performed (`log`), so that every statement about runs of `Chain.Exec` applies to it.
 */
module Boards {
  import opened Words
  import opened Devices
  import opened Programs
  import opened Chain
  import opened TraceBuffers
  import CycleCounters
  import Funnels

  /** Every software event finds an instruction to perform. */
  ghost predicate Busy(w: World, es: seq<Event>)
  {
    es == [] || (Busy(w, es[..|es| - 1]) && (es[|es| - 1].Sw? ==> Exec(w, es[..|es| - 1]).todo != []))
  }

  lemma HwIgnoresTodo(w: World, h: Hw, q: seq<Cmd>)
    ensures HwStep(w.(todo := q), h) == HwStep(w, h).(todo := q) && HwStep(w, h).todo == w.todo
  {
    hide Deliver;
  }

  lemma SuffixStep(w: World, e: Event, q: seq<Cmd>)
    requires e.Sw? ==> w.todo != []
    ensures Step(w.(todo := w.todo + q), e) == Step(w, e).(todo := Step(w, e).todo + q)
  {
    hide Act, Blocked, Deliver, HwStep, Device.Rrd, Device.Popped;
    if e.Hardware? { HwIgnoresTodo(w, e.h, w.todo + q); }
    if e.Sw? {
      assert (w.todo + q)[1..] == w.todo[1..] + q;
      assert (w.todo + q)[0] == w.todo[0];
    }
  }

  lemma {:induction false} Suffix(w: World, es: seq<Event>, q: seq<Cmd>)
    requires Busy(w, es)
    ensures Exec(w.(todo := w.todo + q), es) == Exec(w, es).(todo := Exec(w, es).todo + q)
    ensures Busy(w.(todo := w.todo + q), es)
  {
    hide Step;
    if es != [] {
      Suffix(w, es[..|es| - 1], q);
      SuffixStep(Exec(w, es[..|es| - 1]), es[|es| - 1], q);
    }
  }

  /** From `init`, the events `log` perform the program `done` and leave `rest` to do. */
  ghost predicate Performs(init: World, done: seq<Cmd>, log: seq<Event>, w: World, rest: seq<Cmd>)
  {
    var start := init.(todo := done + rest);
    Exec(start, log) == w.(todo := rest) && Busy(start, log)
  }

  lemma PerformsAhead(init: World, done: seq<Cmd>, log: seq<Event>, w: World, rest: seq<Cmd>)
    requires Performs(init, done, log, w, [])
    ensures Performs(init, done, log, w, rest)
  {
    assert done + [] == done && [] + rest == rest;
    Suffix(init.(todo := done), log, rest);
  }

  lemma PerformsHw(init: World, done: seq<Cmd>, log: seq<Event>, w: World, rest: seq<Cmd>, h: Hw)
    requires Performs(init, done, log, w, rest)
    ensures Performs(init, done, log + [Hardware(h)], HwStep(w, h), rest)
  {
    hide Deliver;
    var l := log + [Hardware(h)];
    assert l[..|l| - 1] == log;
  }

  /** A software event that leaves its instruction in place: a failed poll, or a word read in the RRD loop. */
  lemma PerformsStay(init: World, done: seq<Cmd>, log: seq<Event>, w: World, c: Cmd)
    requires Performs(init, done, log, w, [c])
    ensures var v := SwStep(w.(todo := [c]));
            (v.todo == [c] ==> Performs(init, done, log + [Sw], v, [c]))
            && (v.todo == [] ==> Performs(init, done + [c], log + [Sw], v, []))
  {
    hide Act, Blocked;
    var l := log + [Sw];
    assert l[..|l| - 1] == log;
    assert done + [c] + [] == done + [c];
  }

  // ---- What the hardware can do to a component between two accesses ----

  /** A TMC on its way to Stopped: while it still runs, a flush is pending and will stop it. */
  predicate Stoppable(d: Device)
  {
    && d.IsTmc()
    && (d.phase.Running? ==> d.Flushing() && StopsOnFlush(d))
    && (d.Flushing() ==> d.phase.Running?)
  }

  predicate StopsOnFlush(d: Device) { d.Reg(TMC_FFCR) & FFCR_STOP_ON_FLUSH != 0 }

  ghost predicate Later(d: Device, e: Device)
  {
    && e.kind == d.kind && e.open == d.open && e.osLocked == d.osLocked
    && (!d.IsTmc() || d.phase.Disabled? || d.phase.Stopped? ==> e == d)
    && (!d.phase.Running? ==> !e.phase.Running? && e.fifo == d.fifo)
    && (Stoppable(d) ==> Stoppable(e))
    && Undirected(d, e)
  }

  /** By itself the hardware switches nothing on or off, stops nothing unasked, and only clears FlushMan. */
  ghost predicate Undirected(d: Device, e: Device)
  {
    && (d.phase.Disabled? <==> e.phase.Disabled?)
    && (d.phase.Running? && !d.Flushing() ==> e.phase.Running?)
    && (e.regs == d.regs || (d.Flushing() && e.regs == d.regs[TMC_FFCR := d.Reg(TMC_FFCR) & !FFCR_FLUSHMAN]))
  }

  /** A TMC that is capturing, locked, with the given registers. */
  predicate Started(d: Device, regs: map<int, Word>) { d.phase.Running? && !d.open && d.regs == regs }

  /** A TMC that is off, empty and locked, `regs` being its registers when it was running: StopOnFl is set, CTL cleared. */
  predicate Halted(d: Device, regs: map<int, Word>)
  {
    && d.phase.Disabled? && d.fifo == [] && !d.open
    && d.regs == regs[0x304 := StopBit(if 0x304 in regs then regs[0x304] else 0)][0x020 := 0]
  }

  lemma FlushAbsent(d: Device, ctl: Word)
    requires d.Reg(TMC_FFCR) in {0x3, 0x133}
    ensures !d.Flushing() && forall e: Device :: e.regs == d.regs[0x020 := ctl] ==> !e.Flushing()
  {
  }

  predicate Still(d: Device) { !d.IsTmc() || d.phase.Disabled? }

  ghost predicate AllLater(a: seq<Device>, b: seq<Device>)
  {
    |a| == |b| && forall j :: 0 <= j < |a| ==> Later(a[j], b[j])
  }

  lemma PushLater(d: Device, x: Word)
    requires d.IsTmc() && d.phase.Running?
    ensures Later(d, d.Push(x)) && d.Push(x).phase == d.phase
  {
  }

  lemma LaterTrans(d: Device, e: Device, f: Device)
    requires Later(d, e) && Later(e, f)
    ensures Later(d, f)
  {
    UndirectedTrans(d, e, f);
    hide Undirected;
  }

  lemma UndirectedTrans(d: Device, e: Device, f: Device)
    requires Undirected(d, e) && Undirected(e, f)
    ensures Undirected(d, f)
  {
    FlushOver(d.Reg(TMC_FFCR));
  }

  lemma FlushOver(f: Word)
    ensures (f & !FFCR_FLUSHMAN) & FFCR_FLUSHMAN == 0
  {
  }

  lemma {:induction false} DeliverLater(devs: seq<Device>, seen: seq<Word>, j: nat, x: Word)
    ensures AllLater(devs, Deliver(devs, seen, j, x).0)
    ensures forall k :: 0 <= k < j && k < |devs| ==> Deliver(devs, seen, j, x).0[k] == devs[k]
    decreases |devs| - j
  {
    hide Device.Push, Device.PortOpen;
    if j < |devs| {
      if devs[j].kind.Funnel? && devs[j].PortOpen() {
        DeliverLater(devs, seen, j + 1, x);
      } else if devs[j].IsTmc() && devs[j].phase.Running? {
        PushLater(devs[j], x);
      }
    }
  }

  lemma FlushDoneEffect(d: Device)
    ensures var e := d.FlushDone();
            e == d || (&& d.IsTmc() && d.phase.Running? && d.Flushing() && !e.Flushing()
                       && e.regs == d.regs[TMC_FFCR := d.Reg(TMC_FFCR) & !FFCR_FLUSHMAN]
                       && e == d.(regs := e.regs, phase := e.phase)
                       && e.phase == (if StopsOnFlush(d) then Stopping else Running))
  {
    FlushOver(d.Reg(TMC_FFCR));
  }

  lemma FlushLater(d: Device)
    ensures Later(d, d.FlushDone())
  {
    FlushDoneEffect(d);
    hide Device.FlushDone, Device.Flushing, StopsOnFlush;
  }

  lemma SameRegsFlush(d: Device, e: Device)
    requires e.regs == d.regs
    ensures e.Flushing() == d.Flushing() && forall r: int :: e.Reg(r) == d.Reg(r)
  {
  }

  lemma StopLater(d: Device)
    ensures Later(d, d.StopDone())
  {
    SameRegsFlush(d, d.StopDone());
    hide Device.Flushing;
  }

  lemma PopLater(d: Device)
    requires d.phase.Running? && d.fifo != [] && d.IsTmc()
    ensures Later(d, d.(fifo := d.fifo[1..]))
  {
    SameRegsFlush(d, d.(fifo := d.fifo[1..]));
    hide Device.Flushing;
  }

  lemma CompleteLater(d: Device)
    ensures Later(d, d.FlushDone()) && Later(d, d.StopDone())
    ensures d.phase.Running? && d.fifo != [] && d.IsTmc() ==> Later(d, d.(fifo := d.fifo[1..]))
  {
    hide Later;
    FlushLater(d);
    StopLater(d);
    if d.phase.Running? && d.fifo != [] && d.IsTmc() { PopLater(d); }
  }

  lemma HwLater(w: World, h: Hw)
    ensures AllLater(w.devs, HwStep(w, h).devs) && HwStep(w, h).scratch == w.scratch
        && HwStep(w, h).drained == w.drained && HwStep(w, h).todo == w.todo
    ensures h.Drain? && h.j < |w.devs| && w.devs[h.j].kind.Link? && w.devs[h.j].phase.Running? && w.devs[h.j].fifo != [] ==>
              HwStep(w, h).devs[h.j] == w.devs[h.j].(fifo := w.devs[h.j].fifo[1..])
  {
    hide Later, Deliver, Device.FlushDone, Device.StopDone;
    forall d: Device ensures Later(d, d) { SelfLater(d); }
    match h
    case Emit(x) => DeliverLater(w.devs, w.seen, 1, x);
    case Drain(j) =>
      if j < |w.devs| && w.devs[j].kind.Link? && w.devs[j].phase.Running? && w.devs[j].fifo != [] {
        CompleteLater(w.devs[j]);
        var v := w.devs[j := w.devs[j].(fifo := w.devs[j].fifo[1..])];
        DeliverLater(v, w.seen, j + 1, w.devs[j].fifo[0]);
        var r := HwStep(w, h).devs;
        forall k | 0 <= k < |w.devs| ensures Later(w.devs[k], r[k]) {
          LaterTrans(w.devs[k], v[k], r[k]);
        }
      }
    case FlushDone(j) => if j < |w.devs| { CompleteLater(w.devs[j]); }
    case StopDone(j) => if j < |w.devs| { CompleteLater(w.devs[j]); }
  }

  lemma SelfLater(d: Device)
    ensures Later(d, d)
  {
  }

  lemma AllLaterTrans(a: seq<Device>, b: seq<Device>, c: seq<Device>)
    requires AllLater(a, b) && AllLater(b, c)
    ensures AllLater(a, c)
  {
    hide Later;
    forall j | 0 <= j < |a| ensures Later(a[j], c[j]) { LaterTrans(a[j], b[j], c[j]); }
  }

  /** No flush and no stop is under way. */
  predicate Calm(d: Device) { !(d.phase.Running? && d.Flushing()) && !d.phase.Stopping? }

  /** The words of a trace memory that a dump loop stores: up to the first all-ones word. */
  function UpToOnes(fifo: seq<Word>): seq<Word>
  {
    if fifo == [] || fifo[0] == ONES then [] else [fifo[0]] + UpToOnes(fifo[1..])
  }

  lemma {:induction false} UpToOnesAll(fifo: seq<Word>)
    requires ONES !in fifo
    ensures UpToOnes(fifo) == fifo
  {
    if fifo != [] {
      assert fifo[0] in fifo;
      UpToOnesAll(fifo[1..]);
    }
  }

  class Board {
    /** The components, and the history the model keeps of them. */
    var w: World
    /** Polls the hardware may still take before it finishes what it is doing. */
    var due: nat
    const buffer: TraceBuffer
    var pmccntr: nat
    /** The PMU's control register and software lock. */
    var pmcr: Word
    var pmuOpen: bool

    ghost const init: World
    ghost var done: seq<Cmd>
    ghost var log: seq<Event>
    /** The program performed up to the last time the PMU export was set. */
    ghost var exported: seq<Cmd>

    ghost predicate Midway(rest: seq<Cmd>)
      reads this
    {
      w.todo == [] && Performs(init, done, log, w, rest)
    }

    ghost predicate Valid()
      reads this
    {
      Midway([])
    }

    lemma Ahead(c: Cmd)
      requires Valid()
      ensures Midway([c])
    {
      PerformsAhead(init, done, log, w, [c]);
    }

    constructor (devs: seq<Device>, scratch: Word)
      ensures Valid() && w == init == World(devs, scratch, [], [], [], []) && done == []
      ensures fresh(buffer) && buffer.Valid() && !buffer.locked && buffer.Contents() == []
    {
      w := World(devs, scratch, [], [], [], []);
      init := World(devs, scratch, [], [], [], []);
      due := 0;
      pmccntr := 0;
      pmcr, pmuOpen := 0, false;
      done := [];
      log := [];
      exported := [];
      buffer := new TraceBuffer();
    }

    // ---- The bus ----

    method HardwareEvent(h: Hw, ghost rest: seq<Cmd>)
      requires Midway(rest)
      modifies this`w, this`log
      ensures Midway(rest) && w == HwStep(old(w), h) && AllLater(old(w.devs), w.devs) && w.scratch == old(w.scratch)
          && w.drained == old(w.drained)
      ensures (h.Drain? && h.j < |old(w.devs)| && old(w.devs)[h.j].kind.Link? && old(w.devs)[h.j].phase.Running?
               && old(w.devs)[h.j].fifo != []) ==>
                w.devs[h.j] == old(w.devs)[h.j].(fifo := old(w.devs)[h.j].fifo[1..])
    {
      PerformsHw(init, done, log, w, rest, h);
      HwLater(w, h);
      w := HwStep(w, h);
      log := log + [Hardware(h)];
    }

    /** The hardware does anything it can, any number of times. */
    method HardwareRuns(ghost rest: seq<Cmd>)
      requires Midway(rest)
      modifies this`w, this`log
      ensures Midway(rest) && AllLater(old(w.devs), w.devs) && w.scratch == old(w.scratch) && w.drained == old(w.drained)
    {
      var n: nat := *;
      forall j | 0 <= j < |w.devs| ensures Later(w.devs[j], w.devs[j]) { SelfLater(w.devs[j]); }
      while n > 0
        invariant Midway(rest) && AllLater(old(w.devs), w.devs) && w.scratch == old(w.scratch) && w.drained == old(w.drained)
      {
        var h: Hw := *;
        ghost var before := w.devs;
        HardwareEvent(h, rest);
        AllLaterTrans(old(w.devs), before, w.devs);
        n := n - 1;
      }
    }

    /** One register access that completes. `mid` is the component as the access found it. */
    method Access(dev: nat, instr: Instr) returns (ghost mid: Device)
      requires Valid() && dev < |w.devs| && (instr.Put? || instr.Load? || instr.Mask?)
      modifies this`w, this`log, this`done
      ensures Valid() && done == old(done) + [Cmd(dev, instr)] && |w.devs| == |old(w.devs)| && w.drained == old(w.drained)
      ensures Steady(old(w.devs), w.devs, dev)
      ensures Later(old(w.devs)[dev], mid)
      ensures var l := Act(Local(mid, old(w.scratch)), instr); w.devs[dev] == l.d && w.scratch == l.scratch
    {
      HardwareRuns([]);
      mid := w.devs[dev];
      PerformsAhead(init, done, log, w, [Cmd(dev, instr)]);
      PerformsStay(init, done, log, w, Cmd(dev, instr));
      ActSteady(old(w.devs), w.devs, dev, Local(mid, w.scratch), instr);
      w := SwStep(w.(todo := [Cmd(dev, instr)]));
      log := log + [Sw];
      done := done + [Cmd(dev, instr)];
    }

    method IoWrite(dev: nat, reg: int, val: Word) returns (ghost mid: Device)
      requires Valid() && dev < |w.devs|
      modifies this`w, this`log, this`done
      ensures Valid() && done == old(done) + [Cmd(dev, Put(reg, val))] && |w.devs| == |old(w.devs)| && w.drained == old(w.drained)
      ensures Steady(old(w.devs), w.devs, dev)
      ensures Later(old(w.devs)[dev], mid) && w.devs[dev] == mid.Write(reg, val) && w.scratch == old(w.scratch)
    {
      mid := Access(dev, Put(reg, val));
    }

    /** A write to a component that the hardware leaves alone: a trace unit, a funnel, or a TMC that is off. */
    method IoConfigure(dev: nat, reg: int, val: Word)
      requires Valid() && dev < |w.devs|
      modifies this`w, this`log, this`done
      ensures PerformedOne(dev, Put(reg, val)) && w.drained == old(w.drained) && w.scratch == old(w.scratch)
      ensures Still(old(w.devs)[dev]) ==> w.devs[dev] == old(w.devs)[dev].Write(reg, val)
    {
      hide Performs, Device.Write;
      ghost var mid := IoWrite(dev, reg, val);
    }

    /** One configuration write, `a` being the components as the call under way found them. */
    method IoSet(dev: nat, reg: int, val: Word, ghost a: seq<Device>)
      requires Valid() && dev < |w.devs| && (a == w.devs || Steady(a, w.devs, dev))
      requires reg != CORESIGHT_LAR && reg != TRCOSLAR && reg != TMC_CTL && (reg == TMC_FFCR ==> val & FFCR_FLUSHMAN == 0)
      modifies this`w, this`log, this`done
      ensures Valid() && done == old(done) + [Cmd(dev, Put(reg, val))] && Steady(a, w.devs, dev)
      ensures SameShape(old(w.devs), w.devs, dev) && w.drained == old(w.drained)
      ensures Programmable(old(w.devs)[dev]) ==>
                w.devs[dev] == old(w.devs)[dev].(regs := old(w.devs)[dev].regs[reg := val]) && Programmable(w.devs[dev])
    {
      hide Performs;
      ghost var d := w.devs[dev];
      IoConfigure(dev, reg, val);
      if Programmable(d) { SetEffect(d, reg, val); }
    }

    method IoRead(dev: nat, reg: int) returns (val: Word, ghost mid: Device)
      requires Valid() && dev < |w.devs|
      modifies this`w, this`log, this`done
      ensures Valid() && done == old(done) + [Cmd(dev, Load(reg))] && |w.devs| == |old(w.devs)| && w.drained == old(w.drained)
      ensures Steady(old(w.devs), w.devs, dev)
      ensures Later(old(w.devs)[dev], mid) && w.devs[dev] == mid && val == w.scratch == mid.Reg(reg)
    {
      mid := Access(dev, Load(reg));
      val := w.scratch;
    }

    /** Writing back a value computed from the one last read (or last written back): (value & keep) | bits. */
    method IoWriteBack(dev: nat, reg: int, val: Word, keep: Word, bits: Word) returns (ghost mid: Device)
      requires Valid() && dev < |w.devs| && val == Masked(w.scratch, keep, bits)
      modifies this`w, this`log, this`done
      ensures Valid() && done == old(done) + [Cmd(dev, Mask(reg, keep, bits))] && |w.devs| == |old(w.devs)|
          && w.drained == old(w.drained)
      ensures Steady(old(w.devs), w.devs, dev)
      ensures Later(old(w.devs)[dev], mid) && w.devs[dev] == mid.Write(reg, val) && w.scratch == val
    {
      hide Masked;
      mid := Access(dev, Mask(reg, keep, bits));
    }

    // ---- Polling ----

    /** The hardware finishes the flush and the stop that component dev has been asked for. */
    method Finish(dev: nat, ghost rest: seq<Cmd>)
      requires Midway(rest) && dev < |w.devs| && w.devs[dev].IsTmc()
      modifies this`w, this`log
      ensures Midway(rest) && AllLater(old(w.devs), w.devs) && w.scratch == old(w.scratch) && w.drained == old(w.drained)
      ensures Calm(w.devs[dev])
    {
      forall j | 0 <= j < |w.devs| ensures Later(w.devs[j], w.devs[j]) { SelfLater(w.devs[j]); }
      while w.devs[dev].kind.Link? && w.devs[dev].phase.Running? && w.devs[dev].fifo != []
        invariant Midway(rest) && AllLater(old(w.devs), w.devs) && w.scratch == old(w.scratch) && w.drained == old(w.drained)
        decreases |w.devs[dev].fifo|
      {
        ghost var before := w.devs;
        HardwareEvent(Drain(dev), rest);
        AllLaterTrans(old(w.devs), before, w.devs);
      }
      ghost var drained := w.devs;
      HardwareEvent(FlushDone(dev), rest);
      AllLaterTrans(old(w.devs), drained, w.devs);
      ghost var flushed := w.devs;
      FlushClears(drained[dev]);
      HardwareEvent(StopDone(dev), rest);
      AllLaterTrans(old(w.devs), flushed, w.devs);
    }

    /**
     * One poll of a status bit: any hardware activity, then the read. The hardware is assumed to finish what it was asked
     * for within `due` further polls.
     */
    method Poll(dev: nat, instr: Instr) returns (clear: bool)
      requires dev < |w.devs| && Midway([Cmd(dev, instr)])
      requires (instr.AwaitFlush? && Stoppable(w.devs[dev])) || (instr.AwaitReady? && w.devs[dev].IsTmc()
          && !w.devs[dev].phase.Running?)
      modifies this`w, this`log, this`done, this`due
      ensures AllLater(old(w.devs), w.devs) && w.scratch == old(w.scratch) && w.drained == old(w.drained)
      ensures clear ==> Valid() && done == old(done) + [Cmd(dev, instr)] && !Blocked(w.devs[dev], instr)
      ensures !clear ==> Midway([Cmd(dev, instr)]) && done == old(done) && Blocked(w.devs[dev], instr) && due < old(due)
    {
      ghost var c := Cmd(dev, instr);
      HardwareRuns([c]);
      if due == 0 {
        ghost var before := w.devs;
        Finish(dev, [c]);
        AllLaterTrans(old(w.devs), before, w.devs);
      } else {
        due := due - 1;
      }
      PollStep(w, c);
      PerformsStay(init, done, log, w, c);
      clear := !Blocked(w.devs[dev], instr);
      log := log + [Sw];
      if clear { done := done + [c]; }
    }

    // ---- coresight_priv.h ----

    /** The instructions p have been performed on component dev, and nothing else. */
    twostate predicate Performed(dev: nat, p: seq<Instr>)
      reads this
    {
      Valid() && done == old(done) + On(dev, p) && SameShape(old(w.devs), w.devs, dev) && Steady(old(w.devs), w.devs, dev)
    }

    /** One instruction has been performed on component dev. */
    twostate predicate PerformedOne(dev: nat, i: Instr)
      reads this
    {
      Valid() && done == old(done) + [Cmd(dev, i)] && SameShape(old(w.devs), w.devs, dev) && Steady(old(w.devs), w.devs, dev)
    }

    method CsUnlock(dev: nat)
      requires Valid() && dev < |w.devs|
      modifies this`w, this`log, this`done
      ensures PerformedOne(dev, Put(0xFB0, 0xC5AC_CE55)) && w.drained == old(w.drained)
      ensures Still(old(w.devs)[dev]) ==> w.devs[dev] == old(w.devs)[dev].(open := true)
      ensures Undirected(old(w.devs)[dev], w.devs[dev])
      ensures w.devs[dev].open && (!old(w.devs)[dev].phase.Running? ==> !w.devs[dev].phase.Running?)
      ensures !old(w.devs)[dev].IsTmc() ==> w.devs[dev] == old(w.devs)[dev].(open := true) && w.scratch == old(w.scratch)
    {
      ghost var mid := IoWrite(dev, CORESIGHT_LAR, UNLOCK_KEY);
    }

    method CsLock(dev: nat)
      requires Valid() && dev < |w.devs|
      modifies this`w, this`log, this`done
      ensures PerformedOne(dev, Put(0xFB0, 0)) && w.drained == old(w.drained)
      ensures Undirected(old(w.devs)[dev], w.devs[dev])
      ensures !w.devs[dev].open && (old(w.devs)[dev].phase.Disabled? ==> w.devs[dev] == old(w.devs)[dev].(open := false))
      ensures !old(w.devs)[dev].IsTmc() ==> w.devs[dev] == old(w.devs)[dev].(open := false) && w.scratch == old(w.scratch)
    {
      ghost var mid := IoWrite(dev, CORESIGHT_LAR, 0);
    }

    // ---- tmc.c ----

    method TmcEnable(dev: nat)
      requires Valid() && dev < |w.devs|
      modifies this`w, this`log, this`done
      ensures PerformedOne(dev, Put(0x020, 1)) && w.drained == old(w.drained)
      ensures old(w.devs)[dev].IsTmc() && Programmable(old(w.devs)[dev]) ==>
                w.devs[dev] == old(w.devs)[dev].(phase := Running, fifo := [], regs := old(w.devs)[dev].regs[0x020 := 1])
    {
      ghost var mid := IoWrite(dev, TMC_CTL, 1);
    }

    method TmcDisable(dev: nat)
      requires Valid() && dev < |w.devs|
      modifies this`w, this`log, this`done
      ensures PerformedOne(dev, Put(0x020, 0)) && w.drained == old(w.drained)
      ensures old(w.devs)[dev].IsTmc() && old(w.devs)[dev].open ==> w.devs[dev].phase.Disabled? && w.devs[dev].fifo == []
      ensures old(w.devs)[dev].IsTmc() && old(w.devs)[dev].open && old(w.devs)[dev].phase.Stopped? ==>
                w.devs[dev] == old(w.devs)[dev].(phase := Disabled, fifo := [], regs := old(w.devs)[dev].regs[0x020 := 0])
    {
      ghost var mid := IoWrite(dev, TMC_CTL, 0);
    }

    /** A TMC that is running is never ready, so waiting for it is only meaningful otherwise. */
    method TmcWaitForTmcready(dev: nat)
      requires Valid() && dev < |w.devs| && w.devs[dev].IsTmc() && !w.devs[dev].phase.Running?
      modifies this`w, this`log, this`done, this`due
      ensures PerformedOne(dev, AwaitReady) && w.drained == old(w.drained) && w.scratch == old(w.scratch)
      ensures Later(old(w.devs)[dev], w.devs[dev]) && w.devs[dev].Ready()
    {
      due := *;
      ghost var c := Cmd(dev, AwaitReady);
      PerformsAhead(init, done, log, w, [c]);
      var clear := Poll(dev, AwaitReady);
      while !clear
        invariant AllLater(old(w.devs), w.devs) && w.scratch == old(w.scratch) && w.drained == old(w.drained)
        invariant if clear then Valid() && done == old(done) + [c] && w.devs[dev].Ready() else Midway([c]) && done == old(done)
        decreases if clear then 0 else 1, due
      {
        ghost var before := w.devs;
        clear := Poll(dev, AwaitReady);
        AllLaterTrans(old(w.devs), before, w.devs);
      }
      LaterSteady(old(w.devs), w.devs, dev);
    }

    /** The polling loop of tmc_flush_and_stop. */
    method TmcWaitForFlush(dev: nat)
      requires Valid() && dev < |w.devs| && Stoppable(w.devs[dev])
      modifies this`w, this`log, this`done, this`due
      ensures PerformedOne(dev, AwaitFlush) && w.drained == old(w.drained)
      ensures Later(old(w.devs)[dev], w.devs[dev]) && !w.devs[dev].phase.Running? && !w.devs[dev].Flushing()
    {
      due := *;
      ghost var c := Cmd(dev, AwaitFlush);
      PerformsAhead(init, done, log, w, [c]);
      var clear := Poll(dev, AwaitFlush);
      while !clear
        invariant AllLater(old(w.devs), w.devs) && w.scratch == old(w.scratch) && w.drained == old(w.drained)
        invariant if clear then Valid() && done == old(done) + [c] && !w.devs[dev].Flushing()
                  else Midway([c]) && done == old(done)
        decreases if clear then 0 else 1, due
      {
        ghost var before := w.devs;
        clear := Poll(dev, AwaitFlush);
        AllLaterTrans(old(w.devs), before, w.devs);
      }
      LaterSteady(old(w.devs), w.devs, dev);
    }

    /** The flush adds StopOnFl to FFCR and changes no other register. */
    method TmcFlushAndStop(dev: nat)
      requires Valid() && dev < |w.devs| && w.devs[dev].IsTmc() && w.devs[dev].open
      modifies this`w, this`log, this`done, this`due
      ensures Performed(dev, FlushAndStop()) && w.drained == old(w.drained)
      ensures w.devs[dev].open && w.devs[dev].Ready()
      ensures var d := old(w.devs)[dev];
              d.phase.Running? && !d.Flushing() ==>
                w.devs[dev].phase.Stopped? && w.devs[dev].regs == d.regs[0x304 := StopBit(d.Reg(0x304))]
    {
      hide Masked, Or, StopBit, On, FlushAndStop, Performs, Stoppable, Undirected, Steady, Device.Write, Device.Flushing;
      ghost var a := w.devs;
      var ffcr;
      ghost var mid, mid1, mid2;
      ffcr, mid := IoRead(dev, TMC_FFCR);
      ghost var b := w.devs;
      ghost var f := ffcr;
      ffcr := Or(ffcr, FFCR_STOP_ON_FLUSH);
      MaskOr(w.scratch, FFCR_STOP_ON_FLUSH);
      mid1 := IoWriteBack(dev, TMC_FFCR, ffcr, ONES, FFCR_STOP_ON_FLUSH);
      SteadyTrans(a, b, w.devs, dev);
      b := w.devs;
      FlushBits(f);
      WriteKeeps(mid1, ffcr);
      ffcr := Or(ffcr, FFCR_FLUSHMAN);
      MaskOr(w.scratch, FFCR_FLUSHMAN);
      mid2 := IoWriteBack(dev, TMC_FFCR, ffcr, ONES, FFCR_FLUSHMAN);
      SteadyTrans(a, b, w.devs, dev);
      b := w.devs;
      WriteKeeps(mid2, ffcr);
      FlushRequested(mid2, ffcr);
      TmcWaitForFlush(dev);
      SteadyTrans(a, b, w.devs, dev);
      b := w.devs;
      ghost var e := w.devs[dev];
      TmcWaitForTmcready(dev);
      SteadyTrans(a, b, w.devs, dev);
      if a[dev].phase.Running? && !a[dev].Flushing() {
        FlushOutcome(a[dev], mid, mid1, mid2, e, w.devs[dev]);
      }
      OnFlushAndStop(dev, old(done));
    }

    // ---- tmc-etf.c, tmc-etr.c ----

    /** How every TMC enable function begins. */
    method TmcOpenWhenReady(dev: nat)
      requires Valid() && dev < |w.devs| && w.devs[dev].IsTmc() && !w.devs[dev].phase.Running?
      modifies this`w, this`log, this`done, this`due
      ensures Performed(dev, [OPEN, AwaitReady]) && w.drained == old(w.drained)
      ensures Still(old(w.devs)[dev]) ==> w.devs[dev] == old(w.devs)[dev].(open := true)
    {
      hide Performs, Undirected, Stoppable;
      CsUnlock(dev);
      TmcWaitForTmcready(dev);
    }

    /** How every TMC enable function ends. */
    method TmcStart(dev: nat)
      requires Valid() && dev < |w.devs|
      modifies this`w, this`log, this`done
      ensures Performed(dev, [Put(TMC_CTL, 1), CLOSE]) && w.drained == old(w.drained)
      ensures old(w.devs)[dev].IsTmc() && Programmable(old(w.devs)[dev]) && old(w.devs)[dev].Reg(TMC_FFCR) in {0x3, 0x133} ==>
                Started(w.devs[dev], old(w.devs)[dev].regs[0x020 := 1])
    {
      hide Performs, Later;
      if w.devs[dev].Reg(TMC_FFCR) in {0x3, 0x133} { FlushAbsent(w.devs[dev], 1); }
      TmcEnable(dev);
      CsLock(dev);
    }

    /** How both sink enable functions end. */
    method TmcArmSink(dev: nat, trigger: Word)
      requires Valid() && dev < |w.devs|
      modifies this`w, this`log, this`done
      ensures Performed(dev, [Put(TMC_FFCR, SINK_FFCR), Put(TMC_TRG, trigger), Put(TMC_CTL, 1), CLOSE])
      ensures w.drained == old(w.drained)
      ensures old(w.devs)[dev].IsTmc() && Programmable(old(w.devs)[dev]) ==>
                Started(w.devs[dev], old(w.devs)[dev].regs[0x304 := 0x133][0x01C := trigger][0x020 := 1])
    {
      hide Performs, Steady, Started;
      FormatterFlags();
      ghost var a := w.devs;
      IoSet(dev, TMC_FFCR, SINK_FFCR, a);
      IoSet(dev, TMC_TRG, trigger, a);
      ghost var b := w.devs;
      TmcStart(dev);
      SteadyTrans(a, b, w.devs, dev);
    }

    method TmcEnableEtfSink(dev: nat, trigger: Word)
      requires Valid() && dev < |w.devs| && w.devs[dev].IsTmc() && !w.devs[dev].phase.Running?
      modifies this`w, this`log, this`done, this`due
      ensures Performed(dev, EtfSinkUp(trigger)) && w.drained == old(w.drained)
      ensures old(w.devs)[dev].phase.Disabled? ==>
                Started(w.devs[dev], old(w.devs)[dev].regs[0x028 := 0][0x304 := 0x133][0x01C := trigger][0x020 := 1])
    {
      hide Performs, On, EtfSinkUp, Steady, Started;
      ghost var a := w.devs;
      TmcOpenWhenReady(dev);
      IoSet(dev, TMC_MODE, MODE_CIRCULAR_BUFFER, a);
      ghost var b := w.devs;
      TmcArmSink(dev, trigger);
      SteadyTrans(a, b, w.devs, dev);
      OnEtfSinkUp(dev, trigger, old(done));
    }

    /** One read of RRD within a dump loop; the loop's instruction completes with the first all-ones word. */
    method ReadRrd(dev: nat) returns (result: Word)
      requires dev < |w.devs| && Midway([Cmd(dev, Dump)]) && !w.devs[dev].phase.Running?
      modifies this`w, this`log, this`done
      ensures Steady(old(w.devs), w.devs, dev) && SameShape(old(w.devs), w.devs, dev) && w.drained == old(w.drained) + [result]
      ensures !w.devs[dev].phase.Running? && w.devs[dev].open == old(w.devs)[dev].open
      ensures if result == ONES then Valid() && done == old(done) + [Cmd(dev, Dump)]
              else Midway([Cmd(dev, Dump)]) && done == old(done) && |w.devs[dev].fifo| < |old(w.devs)[dev].fifo|
      ensures old(w.devs)[dev].phase.Stopped? ==> var fifo := old(w.devs)[dev].fifo;
                result == (if fifo == [] then ONES else fifo[0])
                    && w.devs[dev] == old(w.devs)[dev].(fifo := if fifo == [] then [] else fifo[1..])
    {
      ghost var c := Cmd(dev, Dump);
      HardwareRuns([c]);
      result := w.devs[dev].Rrd();
      DumpStep(w, c);
      PerformsStay(init, done, log, w, c);
      PopSteady(old(w.devs), w.devs, dev);
      w := w.(devs := w.devs[dev := w.devs[dev].Popped()], drained := w.drained + [result]);
      log := log + [Sw];
      if result == ONES { done := done + [c]; }
    }

    /** Copies the stopped sink into the trace buffer and terminates the block; returns the number of words stored. */
    method TmcDumpEtfSink(dev: nat) returns (dataCount: nat)
      requires Valid() && dev < |w.devs| && !w.devs[dev].phase.Running? && buffer.Valid() && !buffer.locked
      modifies this`w, this`log, this`done, buffer
      ensures PerformedOne(dev, Dump) && buffer.Valid() && !buffer.locked
      ensures !w.devs[dev].phase.Running? && w.devs[dev].open == old(w.devs)[dev].open
      ensures dataCount > 0 && |w.drained| == |old(w.drained)| + dataCount && w.drained[..|old(w.drained)|] == old(w.drained)
      ensures buffer.Contents() == old(buffer.Contents()) + w.drained[|old(w.drained)|..]
      ensures old(w.devs)[dev].phase.Stopped? ==> var block := UpToOnes(old(w.devs)[dev].fifo);
                buffer.Contents() == old(buffer.Contents()) + block + [ONES] && dataCount == |block| + 1
                && w.devs[dev] == old(w.devs)[dev].(fifo := w.devs[dev].fifo)
                && (ONES !in old(w.devs)[dev].fifo ==> w.devs[dev].fifo == [])
    {
      hide Midway, Valid, Reading, UpToOnes, Content, Stored, Steady, Device.Rrd, Device.Popped;
      Ahead(Cmd(dev, Dump));
      dataCount := 0;
      ghost var fifo := w.devs[dev].fifo;
      ghost var before := w.devs;
      ghost var read := [];
      ghost var start := buffer.Contents();
      ReadingFirst(fifo);
      var result := ReadRrd(dev);
      buffer.Lock();
      while result != ONES
        invariant Steady(before, w.devs, dev) && SameShape(before, w.devs, dev)
        invariant !w.devs[dev].phase.Running? && w.devs[dev].open == before[dev].open
        invariant if result == ONES then Valid() && done == old(done) + [Cmd(dev, Dump)]
                  else Midway([Cmd(dev, Dump)]) && done == old(done)
        invariant w.drained == old(w.drained) + read + [result] && |read| == dataCount
        invariant buffer.Valid() && buffer.locked && buffer.Contents() == start + read
        invariant before[dev].phase.Stopped? ==>
                    w.devs[dev] == before[dev].(fifo := w.devs[dev].fifo) && Reading(fifo, read, result, w.devs[dev].fifo)
        decreases if result == ONES then 0 else 1, |w.devs[dev].fifo|
      {
        buffer.Append(result);
        ghost var left, last, prev := w.devs[dev].fifo, result, w.devs;
        read := read + [result];
        result := ReadRrd(dev);
        SteadyTrans(before, prev, w.devs, dev);
        ReadMore(old(w.drained), start, read[..|read| - 1], last, result);
        dataCount := dataCount + 1;
        if before[dev].phase.Stopped? { ReadingOn(fifo, read[..|read| - 1], last, left); }
      }
      buffer.Append(result);
      dataCount := dataCount + 1;
      buffer.Unlock();
      if before[dev].phase.Stopped? { ReadingEnds(fifo, read, w.devs[dev].fifo); }
      BlockAdded(old(w.drained), start, read);
    }

    method TmcDisableEtfSink(dev: nat)
      requires Valid() && dev < |w.devs| && w.devs[dev].IsTmc() && buffer.Valid() && !buffer.locked
      modifies this`w, this`log, this`done, this`due, buffer
      ensures Performed(dev, SinkDown()) && buffer.Valid() && !buffer.locked && w.devs[dev].phase.Disabled?
      ensures |old(w.drained)| < |w.drained| && w.drained[..|old(w.drained)|] == old(w.drained)
      ensures buffer.Contents() == old(buffer.Contents()) + w.drained[|old(w.drained)|..]
      ensures old(w.devs)[dev].phase.Running? && !old(w.devs)[dev].Flushing() ==> Halted(w.devs[dev], old(w.devs)[dev].regs)
    {
      hide Performs, On, StopBit, Steady, Undirected, Device.Flushing, SinkDown;
      ghost var a := w.devs;
      CsUnlock(dev);
      ghost var b := w.devs;
      UnlockCalm(a[dev], b[dev]);
      TmcFlushAndStop(dev);
      SteadyTrans(a, b, w.devs, dev);
      b := w.devs;
      var dataCount := TmcDumpEtfSink(dev);
      SteadyTrans(a, b, w.devs, dev);
      b := w.devs;
      TmcDisable(dev);
      SteadyTrans(a, b, w.devs, dev);
      b := w.devs;
      CsLock(dev);
      SteadyTrans(a, b, w.devs, dev);
      OnSinkDown(dev, old(done));
    }

    method TmcEnableEtfLink(dev: nat)
      requires Valid() && dev < |w.devs| && w.devs[dev].IsTmc() && !w.devs[dev].phase.Running?
      modifies this`w, this`log, this`done, this`due
      ensures Performed(dev, LinkUp()) && w.drained == old(w.drained)
      ensures old(w.devs)[dev].phase.Disabled? ==>
                Started(w.devs[dev], old(w.devs)[dev].regs[0x028 := 2][0x304 := 0x3][0x034 := 0][0x020 := 1])
    {
      hide Performs, On, LinkUp, Steady, Started;
      FormatterFlags();
      ghost var a := w.devs;
      TmcOpenWhenReady(dev);
      IoSet(dev, TMC_MODE, MODE_HARDWARE_FIFO, a);
      IoSet(dev, TMC_FFCR, LINK_FFCR, a);
      IoSet(dev, TMC_BUFWM, 0, a);
      ghost var b := w.devs;
      TmcStart(dev);
      SteadyTrans(a, b, w.devs, dev);
      OnLinkUp(dev, old(done));
    }

    method TmcDisableEtfLink(dev: nat)
      requires Valid() && dev < |w.devs| && w.devs[dev].IsTmc()
      modifies this`w, this`log, this`done, this`due
      ensures Performed(dev, LinkDown()) && w.drained == old(w.drained) && w.devs[dev].phase.Disabled?
      ensures old(w.devs)[dev].phase.Running? && !old(w.devs)[dev].Flushing() ==> Halted(w.devs[dev], old(w.devs)[dev].regs)
    {
      hide Performs, On, StopBit, Steady, Undirected, Device.Flushing, LinkDown;
      ghost var a := w.devs;
      CsUnlock(dev);
      ghost var b := w.devs;
      UnlockCalm(a[dev], b[dev]);
      TmcFlushAndStop(dev);
      SteadyTrans(a, b, w.devs, dev);
      b := w.devs;
      TmcDisable(dev);
      SteadyTrans(a, b, w.devs, dev);
      b := w.devs;
      CsLock(dev);
      SteadyTrans(a, b, w.devs, dev);
      OnLinkDown(dev, old(done));
    }

    /** The read-modify-write of AXICTL in tmc_enable_etr_sink. */
    method TmcProgramAxictl(dev: nat)
      requires Valid() && dev < |w.devs|
      modifies this`w, this`log, this`done
      ensures Performed(dev, [Load(TMC_AXICTL), Mask(TMC_AXICTL, 0xFFFF_FF7C, 0xF02)]) && w.drained == old(w.drained)
      ensures var d := old(w.devs)[dev];
              Programmable(d) ==> w.devs[dev] == d.(regs := d.regs[0x110 := Masked(d.Reg(0x110), 0xFFFF_FF7C, 0xF02)])
    {
      hide Performs, Masked, AxictlValue, Undirected, Stoppable;
      ghost var d := w.devs[dev];
      var axictl;
      ghost var mid;
      axictl, mid := IoRead(dev, TMC_AXICTL);
      AxictlIs(axictl);
      axictl := AxictlValue(axictl);
      mid := IoWriteBack(dev, TMC_AXICTL, axictl, 0xFFFF_FF7C, 0xF02);
      if Programmable(d) { SetEffect(d, TMC_AXICTL, axictl); }
    }

    method TmcEnableEtrSink(dev: nat, size: Word, trigger: Word)
      requires size < 0x8000_0000
      requires Valid() && dev < |w.devs| && w.devs[dev].IsTmc() && !w.devs[dev].phase.Running?
      modifies this`w, this`log, this`done, this`due
      ensures Performed(dev, EtrSinkUp(SizeWords(size), trigger)) && w.drained == old(w.drained)
      ensures var d := old(w.devs)[dev];
              d.phase.Disabled? ==>
                Started(w.devs[dev], d.regs[0x004 := size / 4][0x028 := 0]
                                           [0x110 := Masked(d.Reg(0x110), 0xFFFF_FF7C, 0xF02)]
                                           [0x11C := 0][0x304 := 0x133][0x01C := trigger][0x020 := 1])
    {
      hide Performs, On, SizeWords, EtrSinkUp, Steady, Started, Masked, Device.Reg;
      ghost var a := w.devs;
      TmcOpenWhenReady(dev);
      EtrRead(w.devs[dev], a[dev], SizeWords(size));
      SizeIs(size);
      IoSet(dev, TMC_RSZ, SizeWords(size), a);
      IoSet(dev, TMC_MODE, MODE_CIRCULAR_BUFFER, a);
      ghost var b := w.devs;
      TmcProgramAxictl(dev);
      SteadyTrans(a, b, w.devs, dev);
      IoSet(dev, TMC_DBAHI, 0, a);
      ghost var c := w.devs;
      TmcArmSink(dev, trigger);
      SteadyTrans(a, c, w.devs, dev);
      OnEtrSinkUp(dev, SizeWords(size), trigger, old(done));
    }

    /** Reads the stopped sink out and discards the words. */
    method TmcDumpEtrSink(dev: nat)
      requires Valid() && dev < |w.devs| && !w.devs[dev].phase.Running?
      modifies this`w, this`log, this`done
      ensures PerformedOne(dev, Dump) && !w.devs[dev].phase.Running? && w.devs[dev].open == old(w.devs)[dev].open
      ensures old(w.devs)[dev].phase.Stopped? ==>
                && w.drained == old(w.drained) + UpToOnes(old(w.devs)[dev].fifo) + [ONES]
                && w.devs[dev] == old(w.devs)[dev].(fifo := w.devs[dev].fifo)
                && (ONES !in old(w.devs)[dev].fifo ==> w.devs[dev].fifo == [])
    {
      hide Midway, Valid, Reading, UpToOnes, Steady, Device.Rrd, Device.Popped;
      Ahead(Cmd(dev, Dump));
      ghost var fifo := w.devs[dev].fifo;
      ghost var before := w.devs;
      ghost var read := [];
      ReadingFirst(fifo);
      var result := ReadRrd(dev);
      while result != ONES
        invariant Steady(before, w.devs, dev) && SameShape(before, w.devs, dev)
        invariant !w.devs[dev].phase.Running? && w.devs[dev].open == before[dev].open
        invariant if result == ONES then Valid() && done == old(done) + [Cmd(dev, Dump)]
                  else Midway([Cmd(dev, Dump)]) && done == old(done)
        invariant w.drained == old(w.drained) + read + [result]
        invariant before[dev].phase.Stopped? ==>
                    w.devs[dev] == before[dev].(fifo := w.devs[dev].fifo) && Reading(fifo, read, result, w.devs[dev].fifo)
        decreases if result == ONES then 0 else 1, |w.devs[dev].fifo|
      {
        ghost var left, last, prev := w.devs[dev].fifo, result, w.devs;
        read := read + [result];
        result := ReadRrd(dev);
        SteadyTrans(before, prev, w.devs, dev);
        if before[dev].phase.Stopped? { ReadingOn(fifo, read[..|read| - 1], last, left); }
      }
      if before[dev].phase.Stopped? { ReadingEnds(fifo, read, w.devs[dev].fifo); }
    }

    method TmcDisableEtrSink(dev: nat)
      requires Valid() && dev < |w.devs| && w.devs[dev].IsTmc()
      modifies this`w, this`log, this`done, this`due
      ensures Performed(dev, SinkDown()) && w.devs[dev].phase.Disabled?
      ensures old(w.devs)[dev].phase.Running? && !old(w.devs)[dev].Flushing() ==> Halted(w.devs[dev], old(w.devs)[dev].regs)
    {
      hide Performs, On, StopBit, Steady, Undirected, Device.Flushing, SinkDown;
      ghost var a := w.devs;
      CsUnlock(dev);
      ghost var b := w.devs;
      UnlockCalm(a[dev], b[dev]);
      TmcFlushAndStop(dev);
      SteadyTrans(a, b, w.devs, dev);
      b := w.devs;
      TmcDumpEtrSink(dev);
      SteadyTrans(a, b, w.devs, dev);
      b := w.devs;
      TmcDisable(dev);
      SteadyTrans(a, b, w.devs, dev);
      b := w.devs;
      CsLock(dev);
      SteadyTrans(a, b, w.devs, dev);
      OnSinkDown(dev, old(done));
    }

    // ---- funnel.c ----

    method FunnelEnable(dev: nat, port: nat, priority: Word)
      requires Valid() && dev < |w.devs| && port < 32
      modifies this`w, this`log, this`done
      ensures Performed(dev, FunnelUp(port, priority)) && w.drained == old(w.drained)
      ensures old(w.devs)[dev].kind.Funnel? ==>
                && w.devs[dev] == Funnels.AfterEnable(old(w.devs)[dev], port, priority)
                && Enables(old(w.devs)[dev], w.devs[dev], port, priority)
    {
      hide Performs, On, Masked, FunctlBits, FunctlValue, Undirected, Stoppable, Steady, OpensPort, FunnelUp;
      ghost var a := w.devs;
      ghost var mid;
      CsUnlock(dev);
      ghost var b := w.devs;
      var functl;
      functl, mid := IoRead(dev, FUNCTL);
      SteadyTrans(a, b, w.devs, dev);
      b := w.devs;
      FunctlIs(functl, port);
      FunctlMasked(functl, port);
      functl := FunctlValue(functl, (1 as Word) << port);
      mid := IoWriteBack(dev, FUNCTL, functl, FUNCTL_KEEP, FunctlBits(port));
      SteadyTrans(a, b, w.devs, dev);
      b := w.devs;
      IoConfigure(dev, PRICTL, priority);
      SteadyTrans(a, b, w.devs, dev);
      b := w.devs;
      CsLock(dev);
      SteadyTrans(a, b, w.devs, dev);
      OnFunnelUp(dev, port, priority, old(done));
      if a[dev].kind.Funnel? { EnableEffect(a[dev], port, priority); }
    }

    /** Written without opening the software lock: whether the writes take effect depends on the funnel. */
    method FunnelDisable(dev: nat)
      requires Valid() && dev < |w.devs|
      modifies this`w, this`log, this`done
      ensures Performed(dev, FunnelDown()) && w.drained == old(w.drained)
      ensures old(w.devs)[dev].kind.Funnel? ==> w.devs[dev] == Funnels.AfterDisable(old(w.devs)[dev])
      ensures old(w.devs)[dev].kind.Funnel? ==>
                var d := old(w.devs)[dev];
                w.devs[dev] == if d.kind.gated && !d.open then d else d.(regs := d.regs[0x000 := 0x300][0x004 := 0xFAC688])
    {
      hide Performs;
      ghost var mid := IoWrite(dev, FUNCTL, 0x300);
      mid := IoWrite(dev, PRICTL, 0xFAC688);
    }

    // ---- etm.c ----

    method UnlockOs(dev: nat)
      requires Valid() && dev < |w.devs|
      modifies this`w, this`log, this`done
      ensures PerformedOne(dev, Put(0x300, 0)) && w.drained == old(w.drained)
      ensures var d := old(w.devs)[dev]; d.kind.Etm? ==> w.devs[dev] == if d.open then d.(osLocked := false) else d
    {
      IoConfigure(dev, TRCOSLAR, 0);
    }

    method LockOs(dev: nat)
      requires Valid() && dev < |w.devs|
      modifies this`w, this`log, this`done
      ensures PerformedOne(dev, Put(0x300, 1)) && w.drained == old(w.drained)
      ensures var d := old(w.devs)[dev]; d.kind.Etm? ==> w.devs[dev] == if d.open then d.(osLocked := true) else d
    {
      IoConfigure(dev, TRCOSLAR, 1);
    }

    method DisableUnit(dev: nat)
      requires Valid() && dev < |w.devs|
      modifies this`w, this`log, this`done
      ensures PerformedOne(dev, Put(0x004, 0)) && w.drained == old(w.drained)
      ensures var d := old(w.devs)[dev];
              d.kind.Etm? ==> w.devs[dev] == if d.open && !d.osLocked then d.(regs := d.regs[0x004 := 0]) else d
    {
      IoConfigure(dev, TRCPRGCTLR, 0);
    }

    method EnableUnit(dev: nat)
      requires Valid() && dev < |w.devs|
      modifies this`w, this`log, this`done
      ensures PerformedOne(dev, Put(0x004, 1)) && w.drained == old(w.drained)
      ensures var d := old(w.devs)[dev];
              d.kind.Etm? ==> w.devs[dev] == if d.open && !d.osLocked then d.(regs := d.regs[0x004 := 1]) else d
    {
      IoConfigure(dev, TRCPRGCTLR, 1);
    }

    /** The nine configuration writes between disable_unit and enable_unit. */
    method EtmConfigure(dev: nat)
      requires Valid() && dev < |w.devs|
      modifies this`w, this`log, this`done
      ensures Performed(dev, EtmProgram()[3..12]) && w.drained == old(w.drained)
      ensures Programmable(old(w.devs)[dev]) ==> w.devs[dev] == old(w.devs)[dev].(regs := EtmSetting(old(w.devs)[dev].regs))
    {
      hide Performs, On, EtmProgram, Device.Write, Steady;
      ghost var a := w.devs;
      IoSet(dev, TRCCONFIGR, 0x49, a);
      IoSet(dev, TRCSTALLCTLR, 0x0, a);
      IoSet(dev, TRCSYNCPR, 0xC, a);
      IoSet(dev, TRCTRACEIDR, 0x6, a);
      IoSet(dev, TRCTSCTLR, 0x0, a);
      IoSet(dev, TRCVICTLR, 0x6F0201, a);
      IoSet(dev, TRCVIIECTLR, 0x0, a);
      IoSet(dev, TRCVISSCTLR, 0x0, a);
      IoSet(dev, TRCBBCTLR, 0x0, a);
      OnEtmConfigure(dev, old(done));
    }

    method EtmEnableTraceProgramFlow(dev: nat)
      requires Valid() && dev < |w.devs|
      modifies this`w, this`log, this`done
      ensures Performed(dev, EtmProgram()) && w.drained == old(w.drained)
      ensures var d := old(w.devs)[dev];
              d.kind.Etm? ==>
                w.devs[dev] == d.(open := false, osLocked := true, regs := EtmSetting(d.regs[0x004 := 0])[0x004 := 1])
    {
      hide Performs, On, EtmProgram, EtmSetting, Steady, Undirected;
      ghost var a := w.devs;
      CsUnlock(dev);
      ghost var b := w.devs;
      UnlockOs(dev);
      SteadyTrans(a, b, w.devs, dev);
      b := w.devs;
      DisableUnit(dev);
      SteadyTrans(a, b, w.devs, dev);
      b := w.devs;
      EtmConfigure(dev);
      SteadyTrans(a, b, w.devs, dev);
      b := w.devs;
      EnableUnit(dev);
      SteadyTrans(a, b, w.devs, dev);
      b := w.devs;
      LockOs(dev);
      SteadyTrans(a, b, w.devs, dev);
      b := w.devs;
      CsLock(dev);
      SteadyTrans(a, b, w.devs, dev);
      OnEtmProgram(dev, old(done));
    }

    method EtmDisable(dev: nat)
      requires Valid() && dev < |w.devs|
      modifies this`w, this`log, this`done
      ensures Performed(dev, EtmSwitch(0)) && w.drained == old(w.drained)
      ensures var d := old(w.devs)[dev];
              d.kind.Etm? ==> w.devs[dev] == d.(open := false, osLocked := true, regs := d.regs[0x004 := 0])
    {
      hide Performs, On, Undirected;
      CsUnlock(dev);
      UnlockOs(dev);
      DisableUnit(dev);
      LockOs(dev);
      CsLock(dev);
      On5(dev, EtmSwitch(0), old(done));
    }

    method EtmContinue(dev: nat)
      requires Valid() && dev < |w.devs|
      modifies this`w, this`log, this`done
      ensures Performed(dev, EtmSwitch(1)) && w.drained == old(w.drained)
      ensures var d := old(w.devs)[dev];
              d.kind.Etm? ==> w.devs[dev] == d.(open := false, osLocked := true, regs := d.regs[0x004 := 1])
    {
      hide Performs, On, Undirected;
      CsUnlock(dev);
      UnlockOs(dev);
      EnableUnit(dev);
      LockOs(dev);
      CsLock(dev);
      On5(dev, EtmSwitch(1), old(done));
    }

    // ---- pmu.c ----

    /** Unlocks the PMU, sets the export bit and keeps all others, and locks it again. */
    method SetPmuExport()
      modifies this`pmcr, this`pmuOpen, this`exported
      ensures pmcr == old(pmcr) | 0x10 && !pmuOpen && exported == done
    {
      pmuOpen := true;
      var value := pmcr;
      if pmuOpen { pmcr := Or(value, PMCR_X); }
      value := pmcr;
      pmuOpen := false;
      exported := done;
    }

    // ---- connect.c, Juno r2 ----

    method EnableJunor2Trace()
      requires Valid() && IsJuno(w.devs) && !w.devs[3].phase.Running?
      modifies this`w, this`log, this`done, this`due, this`pmcr, this`pmuOpen, this`exported
      ensures Valid() && IsJuno(w.devs) && w.drained == old(w.drained)
      ensures done == old(done) + UpFrom(JunoKinds(), 4, true)
      ensures done == old(done) + On(3, EtfSinkUp(0x100)) + On(2, FunnelUp(0, 0xFAC688)) + On(1, FunnelUp(1, 0xFAC688))
                      + On(0, EtmProgram())
      ensures done == exported + On(0, EtmProgram()) && pmcr == old(pmcr) | 0x10 && !pmuOpen
    {
      hide Performs, On, EtfSinkUp, FunnelUp, EtmProgram, Started, Enables, EtmSetting, Funnels.AfterEnable, SizeWords;
      TmcEnableEtfSink(3, 0x100);
      FunnelEnable(2, 0, 0xFAC688);
      FunnelEnable(1, 1, 0xFAC688);
      SetPmuExport();
      EtmEnableTraceProgramFlow(0);
      JunoUp(old(done), true);
    }

    method PauseJunor2Trace()
      requires Valid() && IsJuno(w.devs) && buffer.Valid() && !buffer.locked
      modifies this`w, this`log, this`done, this`due, buffer
      ensures Valid() && IsJuno(w.devs) && w.devs[3].phase.Disabled? && buffer.Valid() && !buffer.locked
      ensures done == old(done) + DownFrom(JunoKinds(), 0)
      ensures done == old(done) + On(0, EtmSwitch(0)) + On(1, FunnelDown()) + On(2, FunnelDown()) + On(3, SinkDown())
      ensures |old(w.drained)| < |w.drained| && w.drained[..|old(w.drained)|] == old(w.drained)
      ensures buffer.Contents() == old(buffer.Contents()) + w.drained[|old(w.drained)|..]
    {
      hide Performs, On, EtmSwitch, FunnelDown, SinkDown, Content, Halted;
      EtmDisable(0);
      FunnelDisable(1);
      FunnelDisable(2);
      TmcDisableEtfSink(3);
      JunoDown(old(done));
    }

    method ContinueJunor2Trace()
      requires Valid() && IsJuno(w.devs) && !w.devs[3].phase.Running?
      modifies this`w, this`log, this`done, this`due
      ensures Valid() && IsJuno(w.devs) && w.drained == old(w.drained)
      ensures done == old(done) + UpFrom(JunoKinds(), 4, false)
      ensures done == old(done) + On(3, EtfSinkUp(0x100)) + On(2, FunnelUp(0, 0xFAC688)) + On(1, FunnelUp(1, 0xFAC688))
                      + On(0, EtmSwitch(1))
    {
      hide Performs, On, EtfSinkUp, FunnelUp, EtmSwitch, Started, Enables, EtmSetting, Funnels.AfterEnable, SizeWords;
      TmcEnableEtfSink(3, 0x100);
      FunnelEnable(2, 0, 0xFAC688);
      FunnelEnable(1, 1, 0xFAC688);
      EtmContinue(0);
      JunoUp(old(done), false);
    }

    method DisableJunor2Trace()
      requires Valid() && IsJuno(w.devs) && buffer.Valid() && !buffer.locked
      modifies this`w, this`log, this`done, this`due, buffer
      ensures Valid() && IsJuno(w.devs) && w.devs[3].phase.Disabled? && buffer.Valid() && !buffer.locked
      ensures done == old(done) + DownFrom(JunoKinds(), 0)
      ensures |old(w.drained)| < |w.drained| && w.drained[..|old(w.drained)|] == old(w.drained)
      ensures buffer.Contents() == old(buffer.Contents()) + w.drained[|old(w.drained)|..]
    {
      PauseJunor2Trace();
    }

    // ---- pmi_handler.c ----

    /** One pause and one continue, then the counter is re-armed; the block drained is in the trace buffer. */
    method PmuIrqHandler()
      requires Valid() && IsJuno(w.devs) && buffer.Valid() && !buffer.locked
      modifies this`w, this`log, this`done, this`due, this`pmccntr, buffer
      ensures Valid() && IsJuno(w.devs) && buffer.Valid() && !buffer.locked && pmccntr == 0xFFFF_FFFF_F000_0000
      ensures done == old(done) + DownFrom(JunoKinds(), 0) + UpFrom(JunoKinds(), 4, false)
      ensures |old(w.drained)| < |w.drained| && w.drained[..|old(w.drained)|] == old(w.drained)
      ensures buffer.Contents() == old(buffer.Contents()) + w.drained[|old(w.drained)|..]
    {
      hide Performs, Content;
      PauseJunor2Trace();
      ContinueJunor2Trace();
      pmccntr := CycleCounters.REARM;
    }

    // ---- connect.c, HiKey 970 ----

    method EnableHikey970Trace()
      requires Valid() && IsHikey(w.devs) && !w.devs[5].phase.Running? && !w.devs[4].phase.Running? && !w.devs[2].phase.Running?
      modifies this`w, this`log, this`done, this`due
      ensures Valid() && IsHikey(w.devs) && w.drained == old(w.drained)
      ensures done == old(done) + UpFrom(HikeyKinds(), 6, true)
      ensures done == old(done) + On(5, EtrSinkUp(0x400, 0x100)) + On(4, LinkUp()) + On(3, FunnelUp(1, 0xFAC688)) + On(2, LinkUp())
                      + On(1, FunnelUp(3, 0xFAC688)) + On(0, EtmProgram())
    {
      hide Performs, On, EtrSinkUp, LinkUp, FunnelUp, EtmProgram, Started, Enables, EtmSetting, Funnels.AfterEnable, SizeWords;
      TmcEnableEtrSink(5, 0x1000, 0x100);
      TmcEnableEtfLink(4);
      FunnelEnable(3, 1, 0xFAC688);
      TmcEnableEtfLink(2);
      FunnelEnable(1, 3, 0xFAC688);
      EtmEnableTraceProgramFlow(0);
      FourKilobytes();
      HikeyUp(old(done));
    }

    method DisableHikey970Trace()
      requires Valid() && IsHikey(w.devs)
      modifies this`w, this`log, this`done, this`due
      ensures Valid() && IsHikey(w.devs) && done == old(done) + DownFrom(HikeyKinds(), 0)
      ensures done == old(done) + On(0, EtmSwitch(0)) + On(1, FunnelDown()) + On(2, LinkDown()) + On(3, FunnelDown())
                      + On(4, LinkDown()) + On(5, SinkDown())
    {
      hide Performs, On, EtmSwitch, FunnelDown, LinkDown, SinkDown, Halted;
      EtmDisable(0);
      FunnelDisable(1);
      TmcDisableEtfLink(2);
      FunnelDisable(3);
      TmcDisableEtfLink(4);
      TmcDisableEtrSink(5);
      HikeyDown(old(done));
    }
  }

  lemma ActSteady(a: seq<Device>, b: seq<Device>, dev: nat, l: Local, instr: Instr)
    requires AllLater(a, b) && dev < |b| && l.d == b[dev]
    ensures Act(l, instr).d.kind == l.d.kind && Steady(a, b[dev := Act(l, instr).d], dev)
  {
    ActKind(l, instr);
    LaterSteady(a, b, dev);
    hide Act, Later, AllLater;
  }

  lemma LaterSteady(a: seq<Device>, b: seq<Device>, dev: nat)
    requires AllLater(a, b)
    ensures Steady(a, b, dev)
  {
  }

  const PMCR_X: Word := 0x10

  function Or(v: Word, bits: Word): Word { v | bits }

  lemma MaskOr(v: Word, bits: Word)
    ensures Masked(v, ONES, bits) == Or(v, bits)
  {
  }

  lemma FlushBits(f: Word)
    ensures Or(Or(f, FFCR_STOP_ON_FLUSH), FFCR_FLUSHMAN) & FFCR_FLUSHMAN != 0
    ensures Or(Or(f, FFCR_STOP_ON_FLUSH), FFCR_FLUSHMAN) & FFCR_STOP_ON_FLUSH != 0
  {
  }

  lemma WriteKeeps(d: Device, v: Word)
    requires d.IsTmc() && d.open
    ensures var e := d.Write(TMC_FFCR, v); e.kind == d.kind && e.IsTmc() && e.open && e.phase == d.phase
    ensures d.phase.Running? ==> d.Write(TMC_FFCR, v) == d.(regs := d.regs[TMC_FFCR := v])
  {
  }

  predicate FlushBit(ffcr: Word) { ffcr & FFCR_FLUSHMAN != 0 }

  function StopBit(ffcr: Word): Word { ffcr | 0x1000 }

  function ClearFlush(ffcr: Word): Word { ffcr & !FFCR_FLUSHMAN }

  lemma FlushFree(f: Word)
    requires !FlushBit(f)
    ensures Or(f, FFCR_STOP_ON_FLUSH) == StopBit(f) && !FlushBit(StopBit(f))
    ensures FlushBit(Or(StopBit(f), FFCR_FLUSHMAN)) && ClearFlush(Or(StopBit(f), FFCR_FLUSHMAN)) == StopBit(f)
  {
  }

  lemma FlushingIs(d: Device)
    ensures d.Flushing() <==> FlushBit(d.Reg(TMC_FFCR))
  {
  }

  lemma CalmStays(d: Device, e: Device)
    requires Later(d, e) && d.IsTmc() && d.phase.Running? && !d.Flushing()
    ensures e.phase.Running? && e.regs == d.regs && e.open == d.open && e.kind == d.kind && e.IsTmc() && !e.Flushing()
  {
    FlushingIs(d);
    FlushingIs(e);
    hide Device.Flushing, Stoppable;
  }

  /** Opening the lock of a running TMC that is not flushing. */
  lemma UnlockCalm(d: Device, e: Device)
    requires Undirected(d, e)
    ensures d.phase.Running? && !d.Flushing() ==>
              e.phase.Running? && e.regs == d.regs && !e.Flushing() && e.Reg(0x304) == d.Reg(0x304)
  {
    SameRegsFlush(d, e.(regs := d.regs));
    if e.regs == d.regs { SameRegsFlush(d, e); }
    hide Device.Flushing;
  }

  lemma FlushEnds(d: Device, e: Device, last: Device)
    requires d.IsTmc() && d.phase.Running? && d.Flushing() && Later(d, e) && !e.Flushing() && Later(e, last) && last.Ready()
    ensures last.phase.Stopped? && last.regs == d.regs[TMC_FFCR := ClearFlush(d.Reg(TMC_FFCR))]
  {
    FlushingIs(d);
    FlushingIs(e);
    hide Device.Flushing, Stoppable;
  }

  lemma SetFfcr(d: Device, f: Word)
    requires d.IsTmc() && d.open && d.phase.Running?
    ensures var e := d.Write(TMC_FFCR, f);
            && e.IsTmc() && e.open && e.phase.Running? && e.regs == d.regs[TMC_FFCR := f]
            && e.Reg(TMC_FFCR) == f && (e.Flushing() <==> FlushBit(f))
  {
    hide Device.Write, Device.Flushing, FlushBit;
    WriteKeeps(d, f);
    FlushingIs(d.Write(TMC_FFCR, f));
  }

  /** The course of a flush, with whatever the hardware did between the accesses. */
  lemma FlushOutcome(d: Device, mid: Device, mid1: Device, mid2: Device, e: Device, last: Device)
    requires d.IsTmc() && d.open && d.phase.Running? && !d.Flushing() && Later(d, mid) && Later(mid, mid1)
    requires var f1 := Or(mid.Reg(TMC_FFCR), FFCR_STOP_ON_FLUSH); var f2 := Or(f1, FFCR_FLUSHMAN);
             Later(mid1.Write(TMC_FFCR, f1), mid2) && Later(mid2.Write(TMC_FFCR, f2), e)
    requires !e.Flushing() && Later(e, last) && last.Ready()
    ensures last.phase.Stopped? && last.regs == d.regs[0x304 := StopBit(d.Reg(0x304))]
  {
    FlushingIs(d);
    hide Or, FlushBit, StopBit, ClearFlush, Later, Device.Flushing, Device.Write, Device.Ready, Device.Reg;
    CalmStays(d, mid);
    SameRegsFlush(d, mid);
    CalmStays(mid, mid1);
    var f := d.Reg(TMC_FFCR);
    FlushFree(f);
    var f1 := Or(f, FFCR_STOP_ON_FLUSH);
    SetFfcr(mid1, f1);
    CalmStays(mid1.Write(TMC_FFCR, f1), mid2);
    var f2 := Or(f1, FFCR_FLUSHMAN);
    SetFfcr(mid2, f2);
    FlushEnds(mid2.Write(TMC_FFCR, f2), e, last);
  }

  lemma FlushRequested(d: Device, v: Word)
    requires d.IsTmc() && d.open && v & FFCR_FLUSHMAN != 0 && v & FFCR_STOP_ON_FLUSH != 0
    ensures Stoppable(d.Write(TMC_FFCR, v))
  {
  }

  lemma OnEtfSinkUp(dev: nat, trigger: Word, before: seq<Cmd>)
    ensures before + On(dev, EtfSinkUp(trigger)) ==
            before + On(dev, [OPEN, AwaitReady]) + [Cmd(dev, Put(TMC_MODE, MODE_CIRCULAR_BUFFER))]
            + On(dev, [Put(TMC_FFCR, SINK_FFCR), Put(TMC_TRG, trigger), Put(TMC_CTL, 1), CLOSE])
  {
  }

  lemma OnLinkUp(dev: nat, before: seq<Cmd>)
    ensures before + On(dev, LinkUp()) ==
            before + On(dev, [OPEN, AwaitReady])
            + [Cmd(dev, Put(TMC_MODE, MODE_HARDWARE_FIFO))] + [Cmd(dev, Put(TMC_FFCR, LINK_FFCR))] + [Cmd(dev, Put(TMC_BUFWM, 0))]
            + On(dev, [Put(TMC_CTL, 1), CLOSE])
  {
  }

  lemma OnEtrSinkUp(dev: nat, size: Word, trigger: Word, before: seq<Cmd>)
    ensures before + On(dev, EtrSinkUp(size, trigger)) ==
            before + On(dev, [OPEN, AwaitReady]) + [Cmd(dev, Put(TMC_RSZ, size))] + [Cmd(dev, Put(TMC_MODE, MODE_CIRCULAR_BUFFER))]
            + On(dev, [Load(TMC_AXICTL), Mask(TMC_AXICTL, 0xFFFF_FF7C, 0xF02)]) + [Cmd(dev, Put(TMC_DBAHI, 0))]
            + On(dev, [Put(TMC_FFCR, SINK_FFCR), Put(TMC_TRG, trigger), Put(TMC_CTL, 1), CLOSE])
  {
  }

  lemma On5(dev: nat, p: seq<Instr>, before: seq<Cmd>)
    requires |p| == 5
    ensures before + On(dev, p) ==
            before + [Cmd(dev, p[0])] + [Cmd(dev, p[1])] + [Cmd(dev, p[2])] + [Cmd(dev, p[3])] + [Cmd(dev, p[4])]
  {
  }

  lemma OnSinkDown(dev: nat, before: seq<Cmd>)
    ensures before + On(dev, SinkDown()) ==
            before + [Cmd(dev, OPEN)] + On(dev, FlushAndStop()) + [Cmd(dev, Dump)] + [Cmd(dev, Put(TMC_CTL, 0))] + [Cmd(dev, CLOSE)]
  {
  }

  lemma OnLinkDown(dev: nat, before: seq<Cmd>)
    ensures before + On(dev, LinkDown()) ==
            before + [Cmd(dev, OPEN)] + On(dev, FlushAndStop()) + [Cmd(dev, Put(TMC_CTL, 0))] + [Cmd(dev, CLOSE)]
  {
  }

  /** RSZ counts words: a byte size, a non-negative C int, divided by four. */
  function SizeWords(size: Word): Word { size / 4 }

  /** The value tmc_enable_etr_sink computes step by step from AXICTL. */
  function AxictlValue(axictl: Word): Word
  {
    var a := axictl | 0xF00;
    var b := a & !0x80;
    (b & !(0x1 | 0x2)) | 0x2
  }

  /** What tmc_enable_etr_sink reads back of what it has written so far. */
  lemma EtrRead(d: Device, d0: Device, size: Word)
    ensures d.regs == d0.regs ==> d.(regs := d.regs[0x004 := size][0x028 := 0]).Reg(0x110) == d0.Reg(0x110)
  {
  }

  lemma FormatterFlags()
    ensures SINK_FFCR & FFCR_FLUSHMAN == 0 && LINK_FFCR & FFCR_FLUSHMAN == 0
  {
  }

  lemma AxictlIs(axictl: Word)
    ensures AxictlValue(axictl) == Masked(axictl, 0xFFFF_FF7C, 0xF02)
  {
  }

  lemma DumpStep(w: World, c: Cmd)
    requires w.todo == [] && c.dev < |w.devs| && c.instr.Dump?
    ensures var d := w.devs[c.dev];
            SwStep(w.(todo := [c])) ==
              w.(devs := w.devs[c.dev := d.Popped()], drained := w.drained + [d.Rrd()],
                 todo := if d.Rrd() == ONES then [] else [c])
  {
    assert [c][1..] == [];
  }

  lemma PopSteady(a: seq<Device>, b: seq<Device>, dev: nat)
    requires AllLater(a, b) && dev < |b| && !a[dev].phase.Running?
    ensures Steady(a, b[dev := b[dev].Popped()], dev) && !b[dev].Popped().phase.Running? && b[dev].Popped().open == a[dev].open
    ensures a[dev].phase.Stopped? ==> b[dev] == a[dev]
    ensures b[dev].Rrd() != ONES ==> |b[dev].Popped().fifo| < |a[dev].fifo|
  {
  }

  /** Partway through a dump of `fifo`: `read` has been stored, `result` was read next, `left` is still in the memory. */
  ghost predicate Reading(fifo: seq<Word>, read: seq<Word>, result: Word, left: seq<Word>)
  {
    if result != ONES then fifo == read + [result] + left && ONES !in read
    else ONES !in read && UpToOnes(fifo) == read && (fifo == read + [ONES] + left || (fifo == read && left == []))
  }

  lemma {:induction false} UpToOnesAt(read: seq<Word>, rest: seq<Word>)
    requires ONES !in read && (rest == [] || rest[0] == ONES)
    ensures UpToOnes(read + rest) == read
  {
    if read == [] {
      assert read + rest == rest;
    } else {
      var s := read + rest;
      assert s[0] == read[0] && read[0] in read;
      assert s[1..] == read[1..] + rest;
      UpToOnesAt(read[1..], rest);
      assert read == [read[0]] + read[1..];
    }
  }

  lemma ReadMore(drained: seq<Word>, start: seq<Word>, read: seq<Word>, x: Word, y: Word)
    ensures drained + read + [x] + [y] == drained + (read + [x]) + [y] && start + read + [x] == start + (read + [x])
  {
  }

  lemma BlockAdded(drained: seq<Word>, start: seq<Word>, read: seq<Word>)
    ensures var all := drained + read + [ONES];
            && |all| == |drained| + |read| + 1 && all[..|drained|] == drained && all[|drained|..] == read + [ONES]
            && start + read + [ONES] == start + all[|drained|..]
  {
    assert (drained + read + [ONES])[|drained|..] == read + [ONES];
  }

  lemma ReadingFirst(fifo: seq<Word>)
    ensures if fifo == [] then Reading(fifo, [], ONES, []) else Reading(fifo, [], fifo[0], fifo[1..])
  {
    if fifo != [] {
      assert fifo == [] + [fifo[0]] + fifo[1..];
      if fifo[0] == ONES { UpToOnesAt([], fifo); }
    }
  }

  lemma ReadingOn(fifo: seq<Word>, read: seq<Word>, last: Word, left: seq<Word>)
    requires last != ONES && Reading(fifo, read, last, left)
    ensures if left == [] then Reading(fifo, read + [last], ONES, []) else Reading(fifo, read + [last], left[0], left[1..])
  {
    assert fifo == (read + [last]) + left;
    if left == [] {
      assert (read + [last]) + left == read + [last];
      UpToOnesAt(read + [last], []);
    } else {
      assert left == [left[0]] + left[1..];
      assert fifo == (read + [last]) + [left[0]] + left[1..];
      if left[0] == ONES { UpToOnesAt(read + [last], left); }
    }
  }

  lemma ReadingEnds(fifo: seq<Word>, read: seq<Word>, left: seq<Word>)
    requires Reading(fifo, read, ONES, left)
    ensures UpToOnes(fifo) == read && (ONES !in fifo ==> left == [])
  {
    if fifo == read + [ONES] + left { assert fifo[|read|] == ONES; }
  }

  /** The value funnel_enable computes step by step from FUNCTL; `bit` is 1 << port. */
  function FunctlValue(functl: Word, bit: Word): Word
  {
    var a := functl & !0xF00;
    var b := a | 0x700;
    var c := b | bit;
    c & (0xFFFF_FF00 + (0xFF & bit))
  }

  /**
   * From `f` to `v` the upper twenty bits are kept, the hold time becomes 7, and of the eight ports exactly the one whose bit is
   * given is open.
   */
  predicate OpensBit(f: Word, v: Word, bit: Word, low: bool)
  {
    && v == (f & 0xFFFF_F000) | 0x700 | bit
    && (low ==> v & 0xFFFF_F000 == f & 0xFFFF_F000 && v & 0xF00 == 0x700 && v & 0xFF == bit)
  }

  predicate OpensPort(f: Word, v: Word, port: nat)
    requires port < 32
  {
    OpensBit(f, v, (1 as Word) << port, port < 8)
  }

  /** What funnel_enable makes of a funnel: FUNCTL (at 0x000) and PRICTL (at 0x004) as given, nothing else changed, locked. */
  predicate Enables(d: Device, e: Device, port: nat, priority: Word)
    requires port < 32
  {
    && OpensPort(d.Reg(0x000), e.Reg(0x000), port) && e.Reg(0x004) == priority
    && e == d.(open := false, regs := d.regs[0x000 := e.Reg(0x000)][0x004 := priority])
  }

  lemma FunctlIs(functl: Word, port: nat)
    requires port < 32
    ensures OpensPort(functl, FunctlValue(functl, (1 as Word) << port), port)
  {
    hide FunctlValue, OpensBit;
    BitInByte(port);
    FunctlOpensBit(functl, (1 as Word) << port, port < 8);
  }

  lemma FunctlOpensBit(f: Word, bit: Word, low: bool)
    requires if low then bit & 0xFFFF_FF00 == 0 else bit & 0xFF == 0
    ensures OpensBit(f, FunctlValue(f, bit), bit, low)
  {
    hide FunctlValue;
    FunctlBit(f, bit);
    if low { FunctlFields(f, bit); }
  }

  lemma FunctlMasked(functl: Word, port: nat)
    requires port < 32
    ensures FunctlValue(functl, (1 as Word) << port) == Masked(functl, FUNCTL_KEEP, FunctlBits(port))
  {
    BitInByte(port);
    FunctlBit(functl, (1 as Word) << port);
    hide FunctlValue;
  }

  lemma FunctlFields(f: Word, bit: Word)
    requires bit & 0xFFFF_FF00 == 0
    ensures var v := (f & 0xFFFF_F000) | 0x700 | bit; v & 0xFFFF_F000 == f & 0xFFFF_F000 && v & 0xF00 == 0x700 && v & 0xFF == bit
  {
  }

  lemma OnFunnelUp(dev: nat, port: nat, priority: Word, before: seq<Cmd>)
    requires port < 32
    ensures before + On(dev, FunnelUp(port, priority)) ==
            before + [Cmd(dev, Put(0xFB0, 0xC5AC_CE55))] + [Cmd(dev, Load(FUNCTL))]
            + [Cmd(dev, Mask(FUNCTL, FUNCTL_KEEP, FunctlBits(port)))] + [Cmd(dev, Put(PRICTL, priority))]
            + [Cmd(dev, Put(0xFB0, 0))]
  {
    hide FunctlBits;
    On5(dev, FunnelUp(port, priority), before);
  }

  lemma EnableEffect(d: Device, port: nat, priority: Word)
    requires d.kind.Funnel? && port < 32
    ensures var u := Funnels.AfterEnable(d, port, priority);
            && u.Reg(0x000) == Masked(d.Reg(0x000), FUNCTL_KEEP, FunctlBits(port)) && u.Reg(0x004) == priority && !u.open
            && u == d.(open := false, regs := d.regs[0x000 := u.Reg(0x000)][0x004 := priority])
  {
    hide Masked, FunctlBits;
  }

  lemma BitInByte(port: nat)
    requires port < 32
    ensures var bit := (1 as Word) << port; if port < 8 then bit & 0xFFFF_FF00 == 0 else bit & 0xFF == 0
  {
  }

  lemma FunctlBit(f: Word, bit: Word)
    requires bit & 0xFFFF_FF00 == 0 || bit & 0xFF == 0
    ensures FunctlValue(f, bit) == (f & 0xFFFF_F000) | 0x700 | bit == Masked(f, FUNCTL_KEEP, 0x700 | bit)
  {
    assert 0xFFFF_FF00 + (0xFF & bit) == 0xFFFF_FF00 | (0xFF & bit);
  }

  /** A component that the hardware leaves alone and that is open to programming. */
  predicate Programmable(d: Device) { Still(d) && d.open && (d.kind.Etm? ==> !d.osLocked) }

  lemma SetEffect(d: Device, r: int, v: Word)
    requires Programmable(d) && r != CORESIGHT_LAR && r != TRCOSLAR && r != TMC_CTL && (r == TMC_FFCR ==> v & FFCR_FLUSHMAN == 0)
    ensures d.Write(r, v) == d.(regs := d.regs[r := v])
  {
    if r == TMC_FFCR { NoFlush(v); }
  }

  lemma NoFlush(v: Word)
    requires v & FFCR_FLUSHMAN == 0
    ensures v & !FFCR_FLUSHMAN == v
  {
  }

  lemma SteadyTrans(a: seq<Device>, b: seq<Device>, c: seq<Device>, dev: nat)
    requires Steady(a, b, dev) && Steady(b, c, dev)
    ensures Steady(a, c, dev)
  {
  }

  /** The registers that the nine configuration writes set, by offset. */
  function EtmSetting(r: map<int, Word>): map<int, Word>
  {
    r[0x010 := 0x49][0x02C := 0][0x034 := 0xC][0x040 := 0x6][0x030 := 0][0x080 := 0x6F0201][0x084 := 0][0x088 := 0][0x03C := 0]
  }

  lemma OnEtmConfigure(dev: nat, before: seq<Cmd>)
    ensures before + On(dev, EtmProgram()[3..12]) ==
            before + [Cmd(dev, Put(TRCCONFIGR, 0x49))] + [Cmd(dev, Put(TRCSTALLCTLR, 0))] + [Cmd(dev, Put(TRCSYNCPR, 0xC))]
            + [Cmd(dev, Put(TRCTRACEIDR, 0x6))] + [Cmd(dev, Put(TRCTSCTLR, 0))] + [Cmd(dev, Put(TRCVICTLR, 0x6F0201))]
            + [Cmd(dev, Put(TRCVIIECTLR, 0))] + [Cmd(dev, Put(TRCVISSCTLR, 0))] + [Cmd(dev, Put(TRCBBCTLR, 0))]
  {
  }

  lemma OnEtmProgram(dev: nat, before: seq<Cmd>)
    ensures before + On(dev, EtmProgram()) ==
            before + [Cmd(dev, OPEN)] + [Cmd(dev, Put(TRCOSLAR, 0))] + [Cmd(dev, Put(TRCPRGCTLR, 0))]
            + On(dev, EtmProgram()[3..12])
            + [Cmd(dev, Put(TRCPRGCTLR, 1))] + [Cmd(dev, Put(TRCOSLAR, 1))] + [Cmd(dev, CLOSE)]
  {
  }

  /** Source first: trace unit, cluster funnel (port 1), main funnel (port 0), ETF of 64 KB as the sink. */
  function JunoKinds(): (ks: seq<Kind>)
    ensures |ks| == 4 && forall k :: k in ks ==> KindOk(k)
  {
    [Etm, Funnel(1, true), Funnel(0, true), Sink(false, 0x4000)]
  }

  /** Trace unit, funnel 1 (port 3), ETF link, funnel 2 (port 1), ETF link, ETR of 4 KB as the sink. */
  function HikeyKinds(): (ks: seq<Kind>)
    ensures |ks| == 6 && forall k :: k in ks ==> KindOk(k)
  {
    [Etm, Funnel(3, true), Link, Funnel(1, true), Link, Sink(true, 0x400)]
  }

  predicate SamePart(k: Kind, l: Kind) { k == l || (k.Funnel? && l.Funnel? && k.port == l.port) }

  /** A Juno board, with funnels of either kind. */
  predicate IsJuno(devs: seq<Device>)
  {
    |devs| == 4 && SamePart(devs[0].kind, Etm) && SamePart(devs[1].kind, Funnel(1, true))
    && SamePart(devs[2].kind, Funnel(0, true)) && devs[3].kind == Sink(false, 0x4000)
  }

  predicate IsHikey(devs: seq<Device>)
  {
    |devs| == 6 && SamePart(devs[0].kind, Etm) && SamePart(devs[1].kind, Funnel(3, true)) && devs[2].kind == Link
    && SamePart(devs[3].kind, Funnel(1, true)) && devs[4].kind == Link && devs[5].kind == Sink(true, 0x400)
  }

  lemma JunoUp(before: seq<Cmd>, first: bool)
    ensures before + UpFrom(JunoKinds(), 4, first) ==
            before + On(3, EtfSinkUp(0x100)) + On(2, FunnelUp(0, PRIORITY)) + On(1, FunnelUp(1, PRIORITY))
            + On(0, if first then EtmProgram() else EtmSwitch(1))
  {
    hide On, EtfSinkUp, FunnelUp, EtmProgram, EtmSwitch;
    var ks := JunoKinds();
    assert UpFrom(ks, 1, first) == On(0, Up(ks[0], first)) + [];
    assert UpFrom(ks, 2, first) == On(1, Up(ks[1], first)) + UpFrom(ks, 1, first);
    assert UpFrom(ks, 3, first) == On(2, Up(ks[2], first)) + UpFrom(ks, 2, first);
    assert UpFrom(ks, 4, first) == On(3, Up(ks[3], first)) + UpFrom(ks, 3, first);
  }

  lemma JunoDown(before: seq<Cmd>)
    ensures before + DownFrom(JunoKinds(), 0) ==
            before + On(0, EtmSwitch(0)) + On(1, FunnelDown()) + On(2, FunnelDown()) + On(3, SinkDown())
  {
    hide On, SinkDown, FunnelDown, EtmSwitch;
    var ks := JunoKinds();
    assert DownFrom(ks, 4) == [];
    assert DownFrom(ks, 3) == On(3, Down(ks[3])) + [];
    assert DownFrom(ks, 2) == On(2, Down(ks[2])) + DownFrom(ks, 3);
    assert DownFrom(ks, 1) == On(1, Down(ks[1])) + DownFrom(ks, 2);
    assert DownFrom(ks, 0) == On(0, Down(ks[0])) + DownFrom(ks, 1);
  }

  lemma SizeIs(size: Word)
    ensures SizeWords(size) == size / 4
  {
  }

  lemma FourKilobytes()
    ensures SizeWords(0x1000) == 0x400
  {
  }

  lemma HikeyUp(before: seq<Cmd>)
    ensures before + UpFrom(HikeyKinds(), 6, true) ==
            before + On(5, EtrSinkUp(SizeWords(0x1000), 0x100)) + On(4, LinkUp()) + On(3, FunnelUp(1, PRIORITY)) + On(2, LinkUp())
            + On(1, FunnelUp(3, PRIORITY)) + On(0, EtmProgram())
  {
    hide On, EtrSinkUp, LinkUp, FunnelUp, EtmProgram, SizeWords;
    FourKilobytes();
    var ks := HikeyKinds();
    assert UpFrom(ks, 1, true) == On(0, Up(ks[0], true)) + [];
    assert UpFrom(ks, 2, true) == On(1, Up(ks[1], true)) + UpFrom(ks, 1, true);
    assert UpFrom(ks, 3, true) == On(2, Up(ks[2], true)) + UpFrom(ks, 2, true);
    assert UpFrom(ks, 4, true) == On(3, Up(ks[3], true)) + UpFrom(ks, 3, true);
    assert UpFrom(ks, 5, true) == On(4, Up(ks[4], true)) + UpFrom(ks, 4, true);
    assert UpFrom(ks, 6, true) == On(5, Up(ks[5], true)) + UpFrom(ks, 5, true);
  }

  lemma HikeyDown(before: seq<Cmd>)
    ensures before + DownFrom(HikeyKinds(), 0) ==
            before + On(0, EtmSwitch(0)) + On(1, FunnelDown()) + On(2, LinkDown())
            + On(3, FunnelDown()) + On(4, LinkDown()) + On(5, SinkDown())
  {
    hide On, SinkDown, LinkDown, FunnelDown, EtmSwitch;
    var ks := HikeyKinds();
    assert DownFrom(ks, 6) == [];
    assert DownFrom(ks, 5) == On(5, Down(ks[5])) + [];
    assert DownFrom(ks, 4) == On(4, Down(ks[4])) + DownFrom(ks, 5);
    assert DownFrom(ks, 3) == On(3, Down(ks[3])) + DownFrom(ks, 4);
    assert DownFrom(ks, 2) == On(2, Down(ks[2])) + DownFrom(ks, 3);
    assert DownFrom(ks, 1) == On(1, Down(ks[1])) + DownFrom(ks, 2);
    assert DownFrom(ks, 0) == On(0, Down(ks[0])) + DownFrom(ks, 1);
  }

  lemma OnFlushAndStop(dev: nat, before: seq<Cmd>)
    ensures before + On(dev, FlushAndStop()) ==
            before + [Cmd(dev, Load(TMC_FFCR))] + [Cmd(dev, Mask(TMC_FFCR, ONES, FFCR_STOP_ON_FLUSH))]
            + [Cmd(dev, Mask(TMC_FFCR, ONES, FFCR_FLUSHMAN))]
            + [Cmd(dev, AwaitFlush)] + [Cmd(dev, AwaitReady)]
  {
  }

  /** What a call on component dev can change in the others: their kinds stay, and none starts running. */
  ghost predicate Steady(a: seq<Device>, b: seq<Device>, dev: nat)
  {
    |a| == |b| && forall j {:trigger b[j]} :: 0 <= j < |a| ==>
      && b[j].kind == a[j].kind
      && (j != dev && !a[j].phase.Running? ==> !b[j].phase.Running?)
  }

  predicate SameShape(a: seq<Device>, b: seq<Device>, dev: nat)
  {
    |a| == |b| && (dev < |a| ==> b[dev].kind == a[dev].kind)
  }

  lemma FlushClears(d: Device)
    requires d.IsTmc() && (d.kind.Link? && d.phase.Running? ==> d.fifo == [])
    ensures Calm(d.FlushDone().StopDone())
  {
  }

  lemma PollStep(w: World, c: Cmd)
    requires w.todo == [] && c.dev < |w.devs| && (c.instr.AwaitFlush? || c.instr.AwaitReady?)
    ensures SwStep(w.(todo := [c])) == if Blocked(w.devs[c.dev], c.instr) then w.(todo := [c]) else w
  {
    assert w.devs[c.dev := w.devs[c.dev]] == w.devs;
    assert [c][1..] == [];
  }
}
