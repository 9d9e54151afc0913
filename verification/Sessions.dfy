/**
 * The whole-chain calls. One inductive invariant relates the program still to run to the state of every
 * component and to every word; the theorems about runs of any length on chains of any length follow from it.
 */
module Sessions {
  import opened Words
  import opened Devices
  import opened Programs
  import opened Chain
  import opened LocalRuns

  /** A chain as it comes out of reset: a trace unit, then funnels and link TMCs in any order, then a sink. */
  ghost predicate ResetChain(base: seq<Device>)
  {
    && 2 <= |base|
    && base[0].kind.Etm? && base[|base| - 1].kind.Sink?
    && (forall j :: 0 < j < |base| - 1 ==> base[j].kind.Funnel? || base[j].kind.Link?)
    && (forall j :: 0 <= j < |base| ==> Off(base[j]))
  }

  function Kinds(ds: seq<Device>): (ks: seq<Kind>)
    ensures |ks| == |ds| && forall j :: 0 <= j < |ds| ==> ks[j] == ds[j].kind
  {
    seq(|ds|, j requires 0 <= j < |ds| => ds[j].kind)
  }

  /** Enable, then `turns` whole-chain calls: pause, continue, pause, ... */
  function Start(base: seq<Device>, scratch: Word, turns: nat): World
    requires ResetChain(base)
  {
    World(base, scratch, Turns(Kinds(base), true, true, turns), [], [], [])
  }

  /** One block per capture session: what the sink still held of it, then the terminator. */
  function Render(blocks: seq<seq<Word>>, depth: nat): seq<Word>
  {
    if blocks == [] then [] else Render(blocks[..|blocks| - 1], depth) + Last(blocks[|blocks| - 1], depth) + [ONES]
  }

  function Tail(sessions: seq<seq<Word>>): seq<Word>
  {
    if sessions == [] then [] else sessions[|sessions| - 1]
  }

  // ---- Where the software is ----

  /**
   * In the call on component i, pc instructions in, of a whole-chain call going up or down; `past` whole-chain
   * calls have returned and `turns` more are to come.
   */
  datatype Mark = Mark(up: bool, first: bool, i: nat, pc: nat, past: nat, turns: nat)

  function Body(ks: seq<Kind>, m: Mark): seq<Instr>
    requires m.i < |ks| && KindOk(ks[m.i])
  {
    if m.up then Up(ks[m.i], m.first) else Down(ks[m.i])
  }

  ghost predicate MarkOk(ks: seq<Kind>, m: Mark)
  {
    m.i < |ks| && (forall k :: k in ks ==> KindOk(k)) && m.pc <= |Body(ks, m)| && (m.first ==> m.up)
        && (m.up <==> m.past % 2 == 0)
  }

  function Rest(ks: seq<Kind>, m: Mark): seq<Cmd>
    requires m.i < |ks| && (forall k :: k in ks ==> KindOk(k))
  {
    (if m.up then UpFrom(ks, m.i, m.first) else DownFrom(ks, m.i + 1)) + More(ks, m.up, m.turns)
  }

  function Todo(ks: seq<Kind>, m: Mark): seq<Cmd>
    requires m.i < |ks| && (forall k :: k in ks ==> KindOk(k)) && m.pc <= |Body(ks, m)|
  {
    From(m.i, Body(ks, m), m.pc) + Rest(ks, m)
  }

  function From(dev: nat, p: seq<Instr>, pc: nat): seq<Cmd>
    requires pc <= |p|
  {
    On(dev, p)[pc..]
  }

  lemma FromHead(dev: nat, p: seq<Instr>, pc: nat, rest: seq<Cmd>)
    requires pc < |p|
    ensures From(dev, p, pc) + rest == [Cmd(dev, p[pc])] + (From(dev, p, pc + 1) + rest)
  {
    var b := On(dev, p);
    assert b[pc..] == [b[pc]] + b[pc + 1..];
  }

  lemma FromEnds(dev: nat, p: seq<Instr>)
    ensures From(dev, p, |p|) == [] && From(dev, p, 0) == On(dev, p)
  {
  }

  ghost predicate AtEnd(ks: seq<Kind>, m: Mark)
    requires MarkOk(ks, m)
  {
    m.pc == |Body(ks, m)| && m.turns == 0 && (if m.up then m.i == 0 else m.i == |ks| - 1)
  }

  function NextCall(ks: seq<Kind>, m: Mark): Mark
    requires |ks| > 0
  {
    if m.up then
      if m.i > 0 then m.(i := m.i - 1, pc := 0)
      else Mark(false, false, 0, 0, m.past + 1, if m.turns > 0 then m.turns - 1 else 0)
    else
      if m.i + 1 < |ks| then m.(i := m.i + 1, pc := 0)
      else Mark(true, false, |ks| - 1, 0, m.past + 1, if m.turns > 0 then m.turns - 1 else 0)
  }

  lemma TodoHead(ks: seq<Kind>, m: Mark)
    requires MarkOk(ks, m) && m.pc < |Body(ks, m)|
    ensures Todo(ks, m) == [Cmd(m.i, Body(ks, m)[m.pc])] + Todo(ks, m.(pc := m.pc + 1))
  {
    hide Up, Down, From;
    FromHead(m.i, Body(ks, m), m.pc, Rest(ks, m));
  }

  lemma TodoNext(ks: seq<Kind>, m: Mark)
    requires MarkOk(ks, m) && m.pc == |Body(ks, m)|
    ensures AtEnd(ks, m) ==> Todo(ks, m) == []
    ensures !AtEnd(ks, m) ==> MarkOk(ks, NextCall(ks, m)) && Todo(ks, m) == Todo(ks, NextCall(ks, m))
  {
    hide Up, Down, From;
    FromEnds(m.i, Body(ks, m));
    if !AtEnd(ks, m) {
      var m' := NextCall(ks, m);
      assert ks[m'.i] in ks;
      FromEnds(m'.i, Body(ks, m'));
      RestNext(ks, m);
    }
  }

  lemma RestNext(ks: seq<Kind>, m: Mark)
    requires m.i < |ks| && (forall k :: k in ks ==> KindOk(k))
    requires m.turns > 0 || (if m.up then m.i > 0 else m.i + 1 < |ks|)
    ensures var m' := NextCall(ks, m); ks[m'.i] in ks && Rest(ks, m) == On(m'.i, Body(ks, m')) + Rest(ks, m')
  {
    hide Up, Down, On, UpFrom, DownFrom, More;
    if m.up {
      UpFromStep(ks, m.i, m.first);
      if m.i == 0 { MoreStep(ks, m.up, m.turns); DownFromStep(ks, 0); }
    } else {
      DownFromStep(ks, m.i + 1);
      if m.i + 1 == |ks| { MoreStep(ks, m.up, m.turns); UpFromStep(ks, |ks|, false); }
    }
  }

  lemma UpFromStep(ks: seq<Kind>, i: nat, first: bool)
    requires i <= |ks| && forall k :: k in ks ==> KindOk(k)
    ensures UpFrom(ks, i, first) == if i == 0 then [] else On(i - 1, Up(ks[i - 1], first)) + UpFrom(ks, i - 1, first)
  {
    hide Up, On;
  }

  lemma DownFromStep(ks: seq<Kind>, i: nat)
    requires i <= |ks|
    ensures DownFrom(ks, i) == if i == |ks| then [] else On(i, Down(ks[i])) + DownFrom(ks, i + 1)
  {
    hide Down, On;
  }

  lemma MoreStep(ks: seq<Kind>, up: bool, turns: nat)
    requires forall k :: k in ks ==> KindOk(k)
    ensures turns > 0 ==>
              More(ks, up, turns) == (if !up then UpFrom(ks, |ks|, false) else DownFrom(ks, 0)) + More(ks, !up, turns - 1)
  {
    hide UpFrom, DownFrom;
  }

  // ---- The invariant ----

  /** A running component: everything but the words it holds is as its enable call leaves it, started from d0. */
  ghost predicate IsUp(d: Device, d0: Device)
    requires KindOk(d0.kind)
  {
    d.(fifo := []) == UpDev(d0) && (!d.IsTmc() ==> d.fifo == [])
  }

  ghost predicate Moving(d: Device, d0: Device, s: Word, m: Mark)
    requires KindOk(d0.kind)
  {
    if m.up then d == RiseDev(d0, m.first, m.pc) && RiseScratch(d0, m.pc, s)
    else if d0.kind.Etm? then d == SwitchDev(UpDev(d0), 0, m.pc)
    else if d0.kind.Funnel? then d == FallFunnelDev(UpDev(d0), m.pc)
    else FallTmc(d0, d, s, m.pc)
  }

  /** A component whose turn in the current whole-chain call is yet to come (going up) or is over (going down). */
  function OffDev(d0: Device, up: bool): Device
    requires KindOk(d0.kind)
  {
    if up then d0 else DownDev(d0)
  }

  /**
   * Components before the one being programmed are off, those after it are running. `base` is the chain as the last
   * enable or continue call found it.
   */
  ghost predicate Placed(w: World, base: seq<Device>, m: Mark)
  {
    && ResetChain(base) && |w.devs| == |base|
    && MarkOk(Kinds(base), m)
    && (m.up && !m.first ==> forall j :: 0 <= j < |base| ==> Settled(base[j]))
    && (forall j :: 0 <= j < m.i ==> w.devs[j] == OffDev(base[j], m.up))
    && (forall j :: m.i < j < |base| ==> IsUp(w.devs[j], base[j]))
    && Moving(w.devs[m.i], base[m.i], w.scratch, m)
  }

  lemma PlacedShape(w: World, base: seq<Device>, m: Mark)
    requires Placed(w, base, m)
    ensures ResetChain(base) && |w.devs| == |base| && m.i < |base| && MarkOk(Kinds(base), m)
    ensures Moving(w.devs[m.i], base[m.i], w.scratch, m)
  {
    hide Up, Down, Moving, IsUp;
  }

  ghost predicate Clean(devs: seq<Device>)
  {
    forall j :: 0 <= j < |devs| ==> ONES !in devs[j].fifo
  }

  ghost predicate Flow(w: World)
  {
    w.seen + InFlight(w.devs, 1) == Tail(w.sessions)
  }

  ghost predicate Dumped(w: World, m: Mark)
    requires w.devs != []
  {
    w.devs[|w.devs| - 1].phase.Disabled? || (!m.up && m.i == |w.devs| - 1 && m.pc >= 7)
  }

  /**
   * What the RRD loops have read: whole blocks for the sessions dumped so far, and during a dump the part of the
   * current block that has left the sink's memory.
   */
  ghost predicate Account(depth: nat, sessions: seq<seq<Word>>, seen: seq<Word>, drained: seq<Word>, fifo: seq<Word>,
      dumped: bool, undumped: bool)
  {
    if dumped then drained == Render(sessions, depth) && fifo == []
    else
      && sessions != []
      && var r := Render(Front(sessions), depth);
      && r <= drained
      && drained[|r|..] + fifo == Last(seen, depth)
      && (undumped ==> drained == r)
  }

  function Front(sessions: seq<seq<Word>>): seq<seq<Word>>
    requires sessions != []
  {
    sessions[..|sessions| - 1]
  }

  ghost predicate Ledger(w: World, m: Mark)
    requires w.devs != [] && w.devs[|w.devs| - 1].kind.Sink?
  {
    var sink := w.devs[|w.devs| - 1];
    && |w.sessions| == (m.past + 1) / 2 + (if m.up && !sink.phase.Disabled? then 1 else 0)
    && Account(sink.kind.depth, w.sessions, w.seen, w.drained, sink.fifo, Dumped(w, m), m.up || m.i < |w.devs| - 1 || m.pc < 6)
  }

  ghost predicate Idle(w: World, m: Mark)
    requires w.devs != []
  {
    m.up && !w.devs[0].Enabled() ==>
      && (forall j :: 0 <= j < |w.devs| ==> w.devs[j].fifo == [])
      && (!w.devs[|w.devs| - 1].phase.Disabled? ==> w.seen == [] && Tail(w.sessions) == [])
  }

  ghost predicate Inv(w: World, base: seq<Device>, m: Mark)
  {
    && Placed(w, base, m)
    && w.devs[|w.devs| - 1].kind.Sink?
    && w.todo == Todo(Kinds(base), m)
    && Clean(w.devs) && Flow(w) && Ledger(w, m) && Idle(w, m)
  }

  // ---- One component's step within its own call ----

  /** Instruction pc of a call, on its component: proper, and leads to the state after pc + 1 instructions. */
  ghost predicate MoveOk(d: Device, d0: Device, s: Word, m: Mark, i: Instr)
    requires KindOk(d0.kind)
  {
    var l := Act(Local(d, s), i);
    && Proper(d, i)
    && d.kind == d0.kind
    && (!i.Dump? && !Blocked(d, i) ==> Moving(l.d, d0, l.scratch, m.(pc := m.pc + 1)) && l.d.fifo == d.fifo && l.d.kind == d.kind)
    && (i.Dump? ==> Moving(d.Popped(), d0, s, if d.Rrd() == ONES then m.(pc := m.pc + 1) else m))
  }

  lemma RiseMove(d: Device, d0: Device, s: Word, m: Mark)
    requires Off(d0) && m.up && Moving(d, d0, s, m) && m.pc < |Up(d0.kind, m.first)|
    ensures MoveOk(d, d0, s, m, Up(d0.kind, m.first)[m.pc])
  {
    hide Up, RiseDev, RiseScratch, Act, Proper, DownDev, Blocked;
    RiseStep(d0, m.first, m.pc, s);
    RiseFacts(d0, m.first, m.pc);
    RiseFacts(d0, m.first, m.pc + 1);
  }

  /** Instruction k of an enable or continue call: proper, never blocked, and leads to the next state. */
  lemma RiseStep(d: Device, first: bool, k: nat, s: Word)
    requires Off(d) && k < |Up(d.kind, first)| && RiseScratch(d, k, s)
    ensures var x := RiseDev(d, first, k); var i := Up(d.kind, first)[k]; var l := Act(Local(x, s), i);
            l.d == RiseDev(d, first, k + 1) && RiseScratch(d, k + 1, l.scratch) && Proper(x, i) && !Blocked(x, i) && !i.Dump?
  {
    hide Act, Proper, EtmRegs, EtrRegs, EtfRegs, LinkRegs, FunnelRegs, TmcDev, Blocked;
    match d.kind
    case Etm =>
      if first { EtmStep(d, k, s); EtmProper(d, k, s); } else { SwitchStep(d, 1, k, s); }
    case Funnel(_, _) => FunnelStep(d, k, s);
    case Link => LinkStep(d, k, s); LinkProper(d, k, s);
    case Sink(ram, _) =>
      if ram { EtrStep(d, k, s); EtrProper(d, k, s); } else { EtfStep(d, k, s); EtfProper(d, k, s); }
  }

  lemma FallMove(d: Device, d0: Device, s: Word, m: Mark)
    requires Off(d0) && !m.up && Moving(d, d0, s, m) && m.pc < |Down(d0.kind)| && ONES !in d.fifo
    ensures MoveOk(d, d0, s, m, Down(d0.kind)[m.pc])
  {
    hide Act, Proper, DownDev, UpRegs, Blocked;
    if d0.kind.Etm? { SwitchStep(UpDev(d0), 0, m.pc, s); }
    else if d0.kind.Funnel? { FallFunnelStep(d0, m.pc, s); }
    else {
      FallTmcStep(d0, d, s, m.pc);
      FallTmcProper(d0, d, s, m.pc);
    }
  }

  lemma KindsIn(base: seq<Device>, j: nat)
    requires ResetChain(base) && j < |base|
    ensures Kinds(base)[j] == base[j].kind && Off(base[j]) && KindOk(base[j].kind)
  {
  }

  /** Replacing one component's state, FIFO unchanged, changes no stream. */
  lemma FlowSame(devs: seq<Device>, i: nat, d: Device)
    requires i < |devs| && d.fifo == devs[i].fifo
    ensures InFlight(devs[i := d], 1) == InFlight(devs, 1)
  {
    InFlightSame(devs, devs[i := d], 1);
  }

  lemma InFlightNone(devs: seq<Device>, j: nat)
    requires forall k :: j <= k < |devs| ==> devs[k].fifo == []
    ensures InFlight(devs, j) == []
    decreases |devs| - j
  {
    if j + 1 < |devs| { InFlightNone(devs, j + 1); }
  }

  // ---- Software steps keep the invariant ----

  lemma SwMoves(w: World, base: seq<Device>, m: Mark)
    requires Inv(w, base, m) && m.pc < |Body(Kinds(base), m)|
    ensures MoveOk(w.devs[m.i], base[m.i], w.scratch, m, Body(Kinds(base), m)[m.pc])
    ensures w.todo != [] && w.todo[0] == Cmd(m.i, Body(Kinds(base), m)[m.pc])
        && w.todo[1..] == Todo(Kinds(base), m.(pc := m.pc + 1))
  {
    hide Up, Down, MoveOk, From, RiseDev, FallTmc, Ledger, Flow, Idle;
    KindsIn(base, m.i);
    TodoHead(Kinds(base), m);
    if m.up { RiseMove(w.devs[m.i], base[m.i], w.scratch, m); } else { FallMove(w.devs[m.i], base[m.i], w.scratch, m); }
  }

  /** Only a sink's disable call reads RRD, after six other instructions; and only there is ONES the end. */
  lemma DumpAt(k: Kind, pc: nat)
    requires pc < |Down(k)|
    ensures Down(k)[pc].Dump? <==> k.Sink? && pc == 6
    ensures Down(k)[pc].AwaitFlush? <==> !k.Etm? && !k.Funnel? && pc == 4
    ensures Down(k)[pc].AwaitReady? <==> !k.Etm? && !k.Funnel? && pc == 5
  {
  }

  lemma NoDumpUp(k: Kind, first: bool, pc: nat)
    requires KindOk(k) && pc < |Up(k, first)|
    ensures !Up(k, first)[pc].Dump? && !Up(k, first)[pc].AwaitFlush?
  {
  }

  /** Where the software is after one of its steps: a failed poll and a word read from RRD leave it in place. */
  ghost function SwMark(w: World, m: Mark): Mark
  {
    if SwStep(w).todo == w.todo then m else m.(pc := m.pc + 1)
  }

  /** A step that is neither blocked nor a read of RRD. */
  lemma SwEffect(w: World, base: seq<Device>, m: Mark)
    requires Inv(w, base, m) && m.pc < |Body(Kinds(base), m)|
    requires var i := Body(Kinds(base), m)[m.pc]; !i.Dump? && !Blocked(w.devs[m.i], i)
    ensures var i := Body(Kinds(base), m)[m.pc]; var l := Act(Local(w.devs[m.i], w.scratch), i);
            var w' := SwStep(w); var m' := m.(pc := m.pc + 1);
            && SwMark(w, m) == m'
            && Moving(l.d, base[m.i], l.scratch, m') && l.d.fifo == w.devs[m.i].fifo && l.d.kind == w.devs[m.i].kind
            && w'.devs == w.devs[m.i := l.d] && w'.scratch == l.scratch && w'.todo == Todo(Kinds(base), m')
                && w'.drained == w.drained
            && (if m.i == |base| - 1 && w.devs[m.i].phase.Disabled?
                && l.d.phase.Running? then w'.sessions == w.sessions + [[]] && w'.seen == []
                else w'.sessions == w.sessions && w'.seen == w.seen)
  {
    hide Up, Down, From, RiseDev, SwitchDev, FallTmc, FallFunnelDev, Act, Proper, Ledger, Flow, Idle, Moving, IsUp;
    SwMoves(w, base, m);
    KindsIn(base, m.i);
  }

  lemma SwPlaced(w: World, w': World, base: seq<Device>, m: Mark, m': Mark, d: Device)
    requires Placed(w, base, m) && Clean(w.devs)
    requires m' == m || (m' == m.(pc := m.pc + 1) && m.pc < |Body(Kinds(base), m)|)
    requires w'.devs == w.devs[m.i := d] && Moving(d, base[m.i], w'.scratch, m') && ONES !in d.fifo
    ensures Placed(w', base, m') && Clean(w'.devs)
  {
    hide Up, Down, From, Moving, IsUp, Settled, OffDev, Off;
    KindsIn(base, m.i);
  }

  lemma LedgerSame(w: World, w': World, m: Mark, m': Mark)
    requires w.devs != [] && |w'.devs| == |w.devs| && w'.devs[|w.devs| - 1] == w.devs[|w.devs| - 1]
        && w.devs[|w.devs| - 1].kind.Sink?
    requires w'.drained == w.drained && w'.sessions == w.sessions && w'.seen == w.seen
    requires m.up == m'.up && m.i == m'.i && m.past == m'.past && m.i < |w.devs| - 1
    requires Ledger(w, m)
    ensures Ledger(w', m')
  {
    hide Render, Last;
    assert Dumped(w, m) == Dumped(w', m');
  }

  lemma SwOther(w: World, base: seq<Device>, m: Mark)
    requires Inv(w, base, m) && m.pc < |Body(Kinds(base), m)| && m.i < |base| - 1
    ensures Inv(SwStep(w), base, SwMark(w, m))
  {
    hide Up, Down, From, RiseDev, SwitchDev, FallTmc, FallFunnelDev, Act, Proper, Moving, IsUp, Ledger, Idle, InFlight,
        SwMark, Todo;
    SwMoves(w, base, m);
    KindsIn(base, m.i);
    var i := Body(Kinds(base), m)[m.pc];
    assert !i.Dump? by {
      if m.up { NoDumpUp(base[m.i].kind, m.first, m.pc); } else { DumpAt(base[m.i].kind, m.pc); }
    }
    if Blocked(w.devs[m.i], i) {
      SwBlocked(w, m);
    } else {
      SwOtherDone(w, base, m);
    }
  }

  lemma SwBlocked(w: World, m: Mark)
    requires w.todo != [] && w.todo[0].dev < |w.devs| && Blocked(w.devs[w.todo[0].dev], w.todo[0].instr)
    ensures SwStep(w) == w && SwMark(w, m) == m
  {
  }

  lemma SwOtherDone(w: World, base: seq<Device>, m: Mark)
    requires Inv(w, base, m) && m.pc < |Body(Kinds(base), m)| && m.i < |base| - 1
    requires var i := Body(Kinds(base), m)[m.pc]; !i.Dump? && !Blocked(w.devs[m.i], i)
    ensures Inv(SwStep(w), base, SwMark(w, m))
  {
    hide Up, Down, From, RiseDev, SwitchDev, FallTmc, FallFunnelDev, Act, Proper, Moving, IsUp, Ledger, Idle, InFlight,
        SwMark, Todo, Body, SwStep, Blocked, Placed, MarkOk, ResetChain, Kinds;
    PlacedShape(w, base, m);
    KindsIn(base, m.i);
    var l := Act(Local(w.devs[m.i], w.scratch), Body(Kinds(base), m)[m.pc]);
    SwEffect(w, base, m);
    var w', m' := SwStep(w), SwMark(w, m);
    SwPlaced(w, w', base, m, m', l.d);
    FlowSame(w.devs, m.i, l.d);
    SwOtherIdle(w, w', base, m, l.d);
    LedgerSame(w, w', m, m');
  }

  /** A trace unit that has been switched on within a call stays on until the call returns. */
  lemma EnabledStays(d: Device, d': Device, d0: Device, s: Word, s': Word, m: Mark)
    requires Off(d0) && d0.kind.Etm? && m.up && m.pc < |Up(d0.kind, m.first)|
    requires Moving(d, d0, s, m) && Moving(d', d0, s', m.(pc := m.pc + 1))
    ensures d.Enabled() ==> d'.Enabled()
  {
    hide Up, RiseDev;
    RiseFacts(d0, m.first, m.pc);
    RiseFacts(d0, m.first, m.pc + 1);
  }

  lemma SwOtherIdle(w: World, w': World, base: seq<Device>, m: Mark, d: Device)
    requires Placed(w, base, m) && Idle(w, m) && m.pc < |Body(Kinds(base), m)| && m.i < |base| - 1
    requires w'.devs == w.devs[m.i := d] && w'.seen == w.seen && w'.sessions == w.sessions
    requires d.fifo == w.devs[m.i].fifo && Moving(d, base[m.i], w'.scratch, m.(pc := m.pc + 1))
    ensures Idle(w', m.(pc := m.pc + 1))
  {
    hide Up, Down, Moving, IsUp, Settled, DownDev, UpDev;
    PlacedShape(w, base, m);
    KindsIn(base, 0);
    if m.up && m.i == 0 {
      EnabledStays(w.devs[0], d, base[0], w.scratch, w'.scratch, m);
    }
  }

  /** While the sink is being brought up everything before it is off, so nothing is in any FIFO. */
  lemma SinkFirst(w: World, base: seq<Device>, m: Mark)
    requires Placed(w, base, m) && m.i == |base| - 1
    ensures !w.devs[0].Enabled() && (forall j :: 0 <= j < |base| - 1 ==> w.devs[j].fifo == [])
    ensures InFlight(w.devs, 1) == []
  {
    hide Up, Down, Moving, IsUp, DownDev;
    forall j | 0 <= j < |base| - 1 ensures w.devs[j].fifo == [] && (j == 0 ==> !w.devs[0].Enabled()) {
      KindsIn(base, j);
      OffAgain(base[j]);
    }
    InFlightSame(w.devs, w.devs[|base| - 1 := w.devs[0]], 1);
    InFlightNone(w.devs[|base| - 1 := w.devs[0]], 1);
  }

  lemma SinkUpLedger(w: World, w': World, m: Mark, m': Mark, d: Device)
    requires w.devs != [] && m.up && m.i == |w.devs| - 1 && m'.up && m'.past == m.past && w.devs[m.i].kind.Sink?
    requires w'.devs == w.devs[m.i := d] && d.kind == w.devs[m.i].kind && d.fifo == w.devs[m.i].fifo && w'.drained == w.drained
    requires if w.devs[m.i].phase.Disabled? && d.phase.Running? then w'.sessions == w.sessions + [[]] && w'.seen == []
             else w'.sessions == w.sessions && w'.seen == w.seen && d.phase == w.devs[m.i].phase
    requires Ledger(w, m)
    ensures Ledger(w', m')
  {
    hide Account;
    if w.devs[m.i].phase.Disabled? && d.phase.Running? {
      AccountOpens(d.kind.depth, w.sessions, w.seen, w.drained, d.fifo, true);
    }
  }

  /** A session begins: nothing of it has been seen, nothing read. */
  lemma AccountOpens(depth: nat, sessions: seq<seq<Word>>, seen: seq<Word>, drained: seq<Word>, fifo: seq<Word>, undumped: bool)
    requires Account(depth, sessions, seen, drained, fifo, true, undumped)
    ensures Account(depth, sessions + [[]], [], drained, fifo, false, true)
  {
    hide Render;
    assert Front(sessions + [[]]) == sessions;
  }

  lemma SwSinkUp(w: World, base: seq<Device>, m: Mark)
    requires Inv(w, base, m) && m.pc < |Body(Kinds(base), m)| && m.i == |base| - 1 && m.up
    ensures Inv(SwStep(w), base, SwMark(w, m))
  {
    hide Up, Down, From, RiseDev, SwitchDev, FallTmc, FallFunnelDev, Act, Proper, IsUp, Ledger, InFlight, SwMark, Todo,
        SwStep, Placed, MarkOk, ResetChain, Kinds;
    PlacedShape(w, base, m);
    SwMoves(w, base, m);
    KindsIn(base, m.i);
    NoDumpUp(base[m.i].kind, m.first, m.pc);
    var i := Body(Kinds(base), m)[m.pc];
    if Blocked(w.devs[m.i], i) {
      SwBlocked(w, m);
    } else {
      var l := Act(Local(w.devs[m.i], w.scratch), i);
      SwEffect(w, base, m);
      var w', m' := SwStep(w), SwMark(w, m);
      SwPlaced(w, w', base, m, m', l.d);
      FlowSame(w.devs, m.i, l.d);
      SinkFirst(w, base, m);
      SinkPhases(w.devs[m.i], l.d, base[m.i], w.scratch, l.scratch, m);
      SinkUpLedger(w, w', m, m', l.d);
    }
  }

  lemma SinkPhases(d: Device, d': Device, d0: Device, s: Word, s': Word, m: Mark)
    requires Off(d0) && d0.kind.Sink? && m.up && m.pc < |Up(d0.kind, m.first)|
    requires Moving(d, d0, s, m) && Moving(d', d0, s', m.(pc := m.pc + 1))
    ensures d'.phase == d.phase || (d.phase.Disabled? && d'.phase.Running?)
  {
    hide Up, RiseDev;
    RiseFacts(d0, m.first, m.pc);
    RiseFacts(d0, m.first, m.pc + 1);
  }

  lemma SinkDownLedger(w: World, w': World, m: Mark, m': Mark, d: Device)
    requires w.devs != [] && !m.up && m.i == |w.devs| - 1 && w.devs[m.i].kind.Sink?
    requires m' == m.(pc := m.pc + 1) && m.pc != 6
    requires w'.devs == w.devs[m.i := d] && d.kind == w.devs[m.i].kind && d.fifo == w.devs[m.i].fifo
    requires w'.drained == w.drained && w'.sessions == w.sessions && w'.seen == w.seen
    requires d.phase.Disabled? ==> Dumped(w, m)
    requires w.devs[m.i].phase.Disabled? ==> m.pc >= 7
    requires Ledger(w, m)
    ensures Ledger(w', m')
  {
    hide Render, Last;
  }

  lemma SwSinkDown(w: World, base: seq<Device>, m: Mark)
    requires Inv(w, base, m) && m.pc < |Body(Kinds(base), m)| && m.i == |base| - 1 && !m.up && m.pc != 6
    ensures Inv(SwStep(w), base, SwMark(w, m))
  {
    hide Up, Down, From, RiseDev, SwitchDev, FallTmc, FallFunnelDev, Act, Proper, IsUp, Ledger, InFlight, SwMark, Todo,
        SwStep, Placed, MarkOk, ResetChain, Kinds;
    PlacedShape(w, base, m);
    SwMoves(w, base, m);
    KindsIn(base, m.i);
    DumpAt(base[m.i].kind, m.pc);
    var i := Body(Kinds(base), m)[m.pc];
    if Blocked(w.devs[m.i], i) {
      SwBlocked(w, m);
    } else {
      var l := Act(Local(w.devs[m.i], w.scratch), i);
      SwEffect(w, base, m);
      var w', m' := SwStep(w), SwMark(w, m);
      SwPlaced(w, w', base, m, m', l.d);
      FlowSame(w.devs, m.i, l.d);
      SinkDownPhases(w.devs[m.i], l.d, base[m.i], w.scratch, l.scratch, m);
      SinkDownLedger(w, w', m, m', l.d);
    }
  }

  lemma SinkDownPhases(d: Device, d': Device, d0: Device, s: Word, s': Word, m: Mark)
    requires Off(d0) && d0.kind.Sink? && !m.up && m.pc < |Down(d0.kind)|
    requires Moving(d, d0, s, m) && Moving(d', d0, s', m.(pc := m.pc + 1))
    ensures (d.phase.Disabled? <==> m.pc >= 8) && (d'.phase.Disabled? <==> m.pc >= 7)
  {
    hide FallTmc;
    FallFacts(d0, d, s, m.pc);
    FallFacts(d0, d', s', m.pc + 1);
  }

  lemma DumpLedger(w: World, w': World, m: Mark, m': Mark, d: Device)
    requires w.devs != [] && !m.up && m.i == |w.devs| - 1 && m.pc == 6
    requires d == w.devs[m.i] && d.kind.Sink? && d.phase.Stopped? && ONES !in d.fifo
    requires w'.devs == w.devs[m.i := d.Popped()] && w'.drained == w.drained + [d.Rrd()]
    requires w'.sessions == w.sessions && w'.seen == w.seen && w.seen == Tail(w.sessions)
    requires m' == if d.Rrd() == ONES then m.(pc := 7) else m
    requires Ledger(w, m)
    ensures Ledger(w', m')
  {
    hide Account;
    assert !Dumped(w, m);
    if d.fifo != [] {
      assert d.fifo[0] in d.fifo;
      AccountPops(d.kind.depth, w.sessions, w.seen, w.drained, d.fifo);
    } else {
      AccountCloses(d.kind.depth, w.sessions, w.seen, w.drained);
    }
  }

  /** A word goes from the sink's memory to the words read. */
  lemma AccountPops(depth: nat, sessions: seq<seq<Word>>, seen: seq<Word>, drained: seq<Word>, fifo: seq<Word>)
    requires Account(depth, sessions, seen, drained, fifo, false, false) && fifo != []
    ensures Account(depth, sessions, seen, drained + [fifo[0]], fifo[1..], false, false)
  {
    hide Render, Last, Front;
    var r := Render(Front(sessions), depth);
    assert (drained + [fifo[0]])[|r|..] == drained[|r|..] + [fifo[0]];
    assert drained[|r|..] + [fifo[0]] + fifo[1..] == drained[|r|..] + fifo;
  }

  /** The sink is empty: the terminator completes the block. */
  lemma AccountCloses(depth: nat, sessions: seq<seq<Word>>, seen: seq<Word>, drained: seq<Word>)
    requires Account(depth, sessions, seen, drained, [], false, false) && seen == Tail(sessions)
    ensures Account(depth, sessions, seen, drained + [ONES], [], true, false)
  {
    hide Last;
    var r := Render(Front(sessions), depth);
    assert drained[|r|..] + [] == drained[|r|..];
    assert drained == r + drained[|r|..];
  }

  lemma SwDump(w: World, base: seq<Device>, m: Mark)
    requires Inv(w, base, m) && m.pc < |Body(Kinds(base), m)| && m.i == |base| - 1 && !m.up && m.pc == 6
    ensures Inv(SwStep(w), base, SwMark(w, m))
  {
    hide Up, Down, From, RiseDev, SwitchDev, FallTmc, FallFunnelDev, Act, IsUp, Ledger, Todo, Moving, Placed, MarkOk,
        ResetChain, Kinds;
    PlacedShape(w, base, m);
    SwMoves(w, base, m);
    KindsIn(base, m.i);
    DumpAt(base[m.i].kind, m.pc);
    var d := w.devs[m.i];
    var w', m' := SwStep(w), SwMark(w, m);
    assert m' == if d.Rrd() == ONES then m.(pc := 7) else m;
    SwPlaced(w, w', base, m, m', d.Popped());
    InFlightSame(w.devs, w'.devs, 1);
    SinkFirst(w, base, m);
    DumpLedger(w, w', m, m', d);
  }

  // ---- Hardware steps keep the invariant ----

  lemma LedgerStays(w: World, w': World, m: Mark)
    requires w.devs != [] && |w'.devs| == |w.devs| && w'.drained == w.drained && w'.sessions == w.sessions && w'.seen == w.seen
    requires var a, b := w.devs[|w.devs| - 1], w'.devs[|w.devs| - 1];
             a.kind.Sink? && b.kind == a.kind && b.fifo == a.fifo && (a.phase.Disabled? <==> b.phase.Disabled?)
    requires Ledger(w, m)
    ensures Ledger(w', m)
  {
    hide Render, Last;
    assert Dumped(w, m) == Dumped(w', m);
  }

  /** A flush or a stop completes only in the component whose disable call is under way. */
  lemma HwLocal(w: World, base: seq<Device>, m: Mark, j: nat, flush: bool)
    requires Placed(w, base, m) && j < |base|
    ensures var d := w.devs[j]; var d' := if flush then d.FlushDone() else d.StopDone();
            d' == d || (j == m.i && Moving(d', base[j], w.scratch, m) && d'.kind == d.kind && d'.fifo == d.fifo
                && (d.phase.Disabled? <==> d'.phase.Disabled?) && j > 0)
  {
    hide Up, Down, RiseDev, FallTmc, UpDev;
    KindsIn(base, j);
    var d := w.devs[j];
    if j < m.i {
      OffAgain(base[j]);
    } else if j > m.i {
      UpAccepts(base[j], d);
      UpPhase(base[j], d);
    } else if m.up {
      RiseFacts(base[j], m.first, m.pc);
    } else if d.IsTmc() && base[j].IsTmc() {
      FallTmcHw(base[j], d, w.scratch, m.pc);
    } else {
      FallPlain(base[j], d, w.scratch, m);
    }
  }

  lemma UpPhase(d0: Device, d: Device)
    requires Off(d0) && IsUp(d, d0)
    ensures d.kind == d0.kind && (if d.IsTmc() then d.phase.Running? else d.phase.Disabled?)
  {
  }

  lemma FallPlain(d0: Device, d: Device, s: Word, m: Mark)
    requires Off(d0) && !m.up && m.pc <= |Down(d0.kind)| && Moving(d, d0, s, m) && !(d.IsTmc() && d0.IsTmc())
    ensures !d.IsTmc() && d.phase.Disabled?
  {
  }

  lemma HwCompletes(w: World, base: seq<Device>, m: Mark, j: nat, flush: bool)
    requires Inv(w, base, m)
    ensures Inv(HwStep(w, if flush then FlushDone(j) else StopDone(j)), base, m)
  {
    hide Up, Down, From, RiseDev, SwitchDev, FallTmc, FallFunnelDev, Moving, IsUp, Ledger, InFlight, Todo, Placed,
        MarkOk, ResetChain, Kinds;
    PlacedShape(w, base, m);
    if j < |base| {
      var w' := HwStep(w, if flush then FlushDone(j) else StopDone(j));
      HwLocal(w, base, m, j, flush);
      if w'.devs[j] != w.devs[j] {
        SwPlaced(w, w', base, m, m, w'.devs[j]);
        FlowSame(w.devs, j, w'.devs[j]);
        LedgerStays(w, w', m);
      } else {
        assert w'.devs == w.devs;
        assert w' == w;
      }
    }
  }

  lemma AccountPush(depth: nat, sessions: seq<seq<Word>>, sessions': seq<seq<Word>>, seen: seq<Word>,
      drained: seq<Word>, fifo: seq<Word>, x: Word)
    requires Account(depth, sessions, seen, drained, fifo, false, true)
    requires sessions' != [] && Front(sessions') == Front(sessions)
    ensures Account(depth, sessions', seen + [x], drained, Last(fifo + [x], depth), false, true)
    ensures Account(depth, sessions', seen, drained, fifo, false, true)
  {
    hide Render, Last, Front;
    var r := Render(Front(sessions), depth);
    assert drained[|r|..] == [];
    assert drained[|r|..] + fifo == fifo;
    LastAppend(seen, x, depth);
    assert drained[|r|..] + Last(fifo + [x], depth) == Last(fifo + [x], depth);
  }

  /** A word reaches TMC k, which is running; the account of what the sink holds stays right. */
  lemma LedgerPush(w: World, w': World, m: Mark, k: nat, x: Word)
    requires w.devs != [] && |w'.devs| == |w.devs| && k < |w.devs| && m.i < |w.devs| - 1
    requires w.devs[|w.devs| - 1].kind.Sink? && !w.devs[|w.devs| - 1].phase.Disabled?
    requires w'.devs[|w'.devs| - 1].kind == w.devs[|w.devs| - 1].kind && w'.devs[|w'.devs| - 1].kind.Sink?
    requires w'.devs[|w.devs| - 1] == if k == |w.devs| - 1 then w.devs[k].Push(x) else w.devs[|w.devs| - 1]
    requires w'.seen == (if k == |w.devs| - 1 then w.seen + [x] else w.seen) && w'.drained == w.drained
    requires |w'.sessions| == |w.sessions| && (w.sessions != [] && w'.sessions != [] ==> Front(w'.sessions) == Front(w.sessions))
    requires Ledger(w, m)
    ensures Ledger(w', m)
  {
    hide Account, Front, Last;
    var sink := w.devs[|w.devs| - 1];
    assert !Dumped(w, m) && !Dumped(w', m);
    AccountNonempty(sink.kind.depth, w.sessions, w.seen, w.drained, sink.fifo, true);
    AccountPush(sink.kind.depth, w.sessions, w'.sessions, w.seen, w.drained, sink.fifo, x);
  }

  lemma AccountNonempty(depth: nat, sessions: seq<seq<Word>>, seen: seq<Word>, drained: seq<Word>, fifo: seq<Word>,
      undumped: bool)
    requires Account(depth, sessions, seen, drained, fifo, false, undumped)
    ensures sessions != []
  {
  }

  lemma FlowFrom(a: World, b: World, j: nat)
    requires |a.devs| == |b.devs| && 1 <= j < |a.devs|
    requires forall k :: 1 <= k < j ==> a.devs[k].fifo == b.devs[k].fifo
    requires b.seen + InFlight(b.devs, j) == a.seen + InFlight(a.devs, j)
    ensures b.seen + InFlight(b.devs, 1) == a.seen + InFlight(a.devs, 1)
    decreases j
  {
    if j > 1 {
      assert InFlight(b.devs, j - 1) == InFlight(b.devs, j) + b.devs[j - 1].fifo;
      assert b.seen + (InFlight(b.devs, j) + b.devs[j - 1].fifo) == b.seen + InFlight(b.devs, j) + b.devs[j - 1].fifo;
      assert a.seen + (InFlight(a.devs, j) + a.devs[j - 1].fifo) == a.seen + InFlight(a.devs, j) + a.devs[j - 1].fifo;
      FlowFrom(a, b, j - 1);
    }
  }

  /** Everything after a component that is at or past the software's position takes words and loses none. */
  lemma AheadAccepts(w: World, base: seq<Device>, m: Mark, j: nat)
    requires Placed(w, base, m) && m.i < j < |base|
    ensures w.devs[j].Accepts() && w.devs[j].kind == base[j].kind && (w.devs[j].kind.Funnel? ==> w.devs[j].fifo == [])
    ensures w.devs[j].IsTmc() ==> w.devs[j].phase.Running?
  {
    hide Up, Down, Moving, UpDev;
    KindsIn(base, j);
    UpAccepts(base[j], w.devs[j]);
    UpPhase(base[j], w.devs[j]);
  }

  /** Only the first component in a whole-chain call can still be tracing. */
  lemma TracingAtFirst(w: World, base: seq<Device>, m: Mark)
    requires Placed(w, base, m) && w.devs[0].Enabled()
    ensures m.i == 0 && w.devs[0].kind.Etm?
  {
    hide Up, Down, RiseDev, FallTmc, UpDev, DownDev;
    KindsIn(base, 0);
    OffAgain(base[0]);
    if m.i == 0 {
      if m.up {
        RiseFacts(base[0], m.first, m.pc);
      }
    }
  }

  /** A link that holds words is at or past the software's position, and taking its oldest word keeps it in place. */
  lemma HolderPlaced(w: World, base: seq<Device>, m: Mark, j: nat)
    requires Placed(w, base, m) && j < |base| && w.devs[j].kind.Link? && w.devs[j].phase.Running? && w.devs[j].fifo != []
    ensures m.i <= j < |base| - 1 && j > 0
    ensures var d := w.devs[j].(fifo := w.devs[j].fifo[1..]); if j == m.i then Moving(d, base[j], w.scratch, m)
        && !m.up else IsUp(d, base[j])
  {
    hide Up, Down, RiseDev, FallTmc, UpDev, DownDev;
    KindsIn(base, j);
    OffAgain(base[j]);
    if j == m.i {
      if m.up {
        RiseFacts(base[j], m.first, m.pc);
      } else if base[j].IsTmc() {
        FallTmcHw(base[j], w.devs[j], w.scratch, m.pc);
      } else {
        FallPlain(base[j], w.devs[j], w.scratch, m);
      }
    }
    if j > m.i { UpPhase(base[j], w.devs[j]); }
  }

  lemma PushPlaced(w: World, w': World, base: seq<Device>, m: Mark, k: nat, x: Word)
    requires Placed(w, base, m) && Clean(w.devs) && m.i < k < |base| && w.devs[k].IsTmc() && x != ONES
    requires w'.devs == w.devs[k := w.devs[k].Push(x)] && w'.scratch == w.scratch
    ensures Placed(w', base, m) && Clean(w'.devs)
  {
    hide Up, Down, Moving, IsUp, Settled, OffDev, Off, Device.Push;
    KindsIn(base, k);
    PushUp(w.devs[k], base[k], x);
  }

  lemma PushUp(d: Device, d0: Device, x: Word)
    requires KindOk(d0.kind) && IsUp(d, d0) && d.IsTmc() && ONES !in d.fifo && x != ONES
    ensures IsUp(d.Push(x), d0) && ONES !in d.Push(x).fifo
  {
    hide UpDev;
  }

  /** A word sent on from component j, at or past the software's position, is taken by a TMC further down. */
  lemma AheadLands(w: World, base: seq<Device>, m: Mark, j: nat, x: Word) returns (k: nat)
    requires Placed(w, base, m) && m.i <= j < |base| - 1
    ensures j < k < |base| && w.devs[k].IsTmc() && w.devs[|base| - 1].kind.Sink? && w.devs[|base| - 1].phase.Running?
    ensures var r := Deliver(w.devs, w.seen, j + 1, x);
            && r.0 == w.devs[k := w.devs[k].Push(x)]
            && r.1 == (if k == |base| - 1 then w.seen + [x] else w.seen)
            && r.1 + InFlight(r.0, j + 1) == w.seen + InFlight(w.devs, j + 1) + [x]
  {
    hide Up, Down, Moving, IsUp, InFlight, Deliver, Device.Accepts;
    forall i | j < i < |base| ensures w.devs[i].Accepts() && w.devs[i].kind == base[i].kind
        && (w.devs[i].kind.Funnel? ==> w.devs[i].fifo == [])
    { AheadAccepts(w, base, m, i); }
    AheadAccepts(w, base, m, |base| - 1);
    k := DeliverLands(w.devs, w.seen, j + 1, x);
  }

  lemma HwEmits(w: World, base: seq<Device>, m: Mark, x: Word)
    requires Inv(w, base, m)
    ensures Inv(HwStep(w, Emit(x)), base, m)
  {
    hide Up, Down, From, RiseDev, SwitchDev, FallTmc, FallFunnelDev, Moving, IsUp, Ledger, InFlight, Todo, Deliver,
        Record, Placed, MarkOk, ResetChain, Kinds, Device.Push, Device.Enabled, Flow, Clean, Body, AtEnd;
    PlacedShape(w, base, m);
    if w.devs[0].Enabled() && x != ONES {
      TracingAtFirst(w, base, m);
      var k := AheadLands(w, base, m, 0, x);
      var w' := HwStep(w, Emit(x));
      PushPlaced(w, w', base, m, k, x);
      EmitLedger(w, w', m, k, x);
      assert w'.devs[0] == w.devs[0];
    }
  }

  lemma EmitLedger(w: World, w': World, m: Mark, k: nat, x: Word)
    requires w.devs != [] && m.i == 0 && 0 < k < |w.devs|
    requires w.devs[|w.devs| - 1].kind.Sink? && w.devs[|w.devs| - 1].phase.Running?
    requires w'.devs == w.devs[k := w.devs[k].Push(x)] && w'.devs[|w'.devs| - 1].kind.Sink?
    requires w'.seen == (if k == |w.devs| - 1 then w.seen + [x] else w.seen) && w'.drained == w.drained
    requires w'.sessions == Record(w.sessions, x)
    requires w'.seen + InFlight(w'.devs, 1) == w.seen + InFlight(w.devs, 1) + [x]
    requires Ledger(w, m) && Flow(w)
    ensures Ledger(w', m) && Flow(w')
  {
    hide Render, Last, InFlight;
    LedgerPush(w, w', m, k, x);
  }

  lemma HwDrains(w: World, base: seq<Device>, m: Mark, j: nat)
    requires Inv(w, base, m)
    ensures Inv(HwStep(w, Drain(j)), base, m)
  {
    hide Up, Down, From, RiseDev, SwitchDev, FallTmc, FallFunnelDev, Moving, IsUp, Ledger, InFlight, Todo, Deliver,
        Flow, Clean, Placed, MarkOk, ResetChain, Kinds;
    PlacedShape(w, base, m);
    if j < |base| && w.devs[j].kind.Link? && w.devs[j].phase.Running? && w.devs[j].fifo != [] {
      HolderPlaced(w, base, m, j);
      var x := w.devs[j].fifo[0];
      var v := w.(devs := w.devs[j := w.devs[j].(fifo := w.devs[j].fifo[1..])]);
      PopPlaced(w, v, base, m, j);
      CleanHead(w.devs, j);
      var k := AheadLands(v, base, m, j, x);
      var w' := HwStep(w, Drain(j));
      PushPlaced(v, w', base, m, k, x);
      LedgerPush(w, w', m, k, x);
      DrainFlow(w, v, w', j, k, x);
      assert w'.devs[0] == w.devs[0];
    }
  }

  lemma CleanHead(devs: seq<Device>, j: nat)
    requires Clean(devs) && j < |devs| && devs[j].fifo != []
    ensures devs[j].fifo[0] != ONES
  {
    assert devs[j].fifo[0] in devs[j].fifo;
  }

  lemma PopPlaced(w: World, v: World, base: seq<Device>, m: Mark, j: nat)
    requires Placed(w, base, m) && Clean(w.devs) && m.i <= j < |base| && w.devs[j].fifo != []
    requires var d := w.devs[j].(fifo := w.devs[j].fifo[1..]);
             v.devs == w.devs[j := d] && v.scratch == w.scratch
                 && if j == m.i then Moving(d, base[j], w.scratch, m) else IsUp(d, base[j])
    ensures Placed(v, base, m) && Clean(v.devs)
  {
    hide Up, Down, Moving, IsUp, Settled, OffDev, Off;
    KindsIn(base, j);
  }

  /** One step of InFlight, with the sink's history in front. */
  lemma InFlightSplit(w: World, j: nat)
    requires j + 1 < |w.devs|
    ensures w.seen + InFlight(w.devs, j) == (w.seen + InFlight(w.devs, j + 1)) + w.devs[j].fifo
  {
  }

  lemma Regroup(a: seq<Word>, x: Word, f: seq<Word>)
    requires f != [] && f[0] == x
    ensures (a + [x]) + f[1..] == a + f
  {
  }

  /** Moving the oldest word of link j on to TMC k leaves the stream as a whole unchanged. */
  lemma DrainFlow(w: World, v: World, w': World, j: nat, k: nat, x: Word)
    requires 0 < j < k < |w.devs| && w.devs[j].fifo != [] && x == w.devs[j].fifo[0]
    requires v.devs == w.devs[j := w.devs[j].(fifo := w.devs[j].fifo[1..])] && v.seen == w.seen
    requires w'.devs == v.devs[k := v.devs[k].Push(x)] && w'.sessions == w.sessions
    requires w'.seen + InFlight(w'.devs, j + 1) == v.seen + InFlight(v.devs, j + 1) + [x]
    requires Flow(w)
    ensures Flow(w')
  {
    hide InFlight, Tail, Device.Push;
    InFlightSame(w.devs, v.devs, j + 1);
    InFlightSplit(w, j);
    InFlightSplit(w', j);
    Regroup(w.seen + InFlight(w.devs, j + 1), x, w.devs[j].fifo);
    FlowFrom(w, w', j);
  }

  // ---- Whole runs ----

  lemma FallEnds(d: Device, d0: Device, s: Word, m: Mark)
    requires Off(d0) && !m.up && m.pc == |Down(d0.kind)| && Moving(d, d0, s, m)
    ensures d == DownDev(d0)
  {
    if d0.IsTmc() { FallFacts(d0, d, s, m.pc); }
  }

  lemma RiseEnds(d: Device, d0: Device, s: Word, m: Mark)
    requires Off(d0) && (m.first || Settled(d0)) && m.up && m.pc == |Up(d0.kind, m.first)| && Moving(d, d0, s, m)
    ensures d == UpDev(d0) && IsUp(d, d0)
  {
    hide Up, RiseDev;
    if m.first { UpFirst(d0); } else { ContinueEnds(d0); }
  }

  lemma FallStarts(d: Device, d0: Device, s: Word, m: Mark)
    requires Off(d0) && !m.up && m.pc == 0 && (if d0.kind.Etm? then d == UpDev(d0) else IsUp(d, d0))
    ensures Moving(d, d0, s, m)
  {
  }

  lemma RiseStarts(d0: Device, s: Word, m: Mark)
    requires Off(d0) && m.up && m.pc == 0
    ensures Moving(d0, d0, s, m)
  {
    hide Up, RiseDev;
    RiseFacts(d0, m.first, 0);
  }

  /** The chain as a whole-chain disable or pause leaves it. */
  function Downs(base: seq<Device>): (r: seq<Device>)
    requires forall j :: 0 <= j < |base| ==> KindOk(base[j].kind)
    ensures |r| == |base| && Kinds(r) == Kinds(base)
    ensures forall j :: 0 <= j < |base| ==> r[j] == DownDev(base[j])
  {
    seq(|base|, j requires 0 <= j < |base| => DownDev(base[j]))
  }

  /** The chain as the last of `past` + 1 whole-chain calls that went up found it. */
  function Current(base: seq<Device>, past: nat): (r: seq<Device>)
    requires ResetChain(base)
    ensures |r| == |base|
  {
    if past <= 1 then base else Downs(base)
  }

  lemma DownsReset(base: seq<Device>)
    requires ResetChain(base)
    ensures ResetChain(Downs(base)) && Downs(Downs(base)) == Downs(base)
    ensures forall j :: 0 <= j < |base| ==> Settled(Downs(base)[j])
  {
    hide DownDev;
    forall j | 0 <= j < |base| ensures Off(Downs(base)[j]) && DownDev(DownDev(base[j])) == DownDev(base[j]) {
      OffAgain(base[j]);
      DownTwice(base[j]);
    }
  }

  /** When one component's call returns, the invariant holds at the start of the next call. */
  lemma HandOver(w: World, base: seq<Device>, m: Mark) returns (next: seq<Device>)
    requires Inv(w, base, m) && m.pc == |Body(Kinds(base), m)| && !AtEnd(Kinds(base), m)
    ensures next == (if !m.up && m.i == |base| - 1 then Downs(base) else base) && Kinds(next) == Kinds(base)
    ensures Inv(w, next, NextCall(Kinds(base), m))
  {
    hide Up, Down, RiseDev, Moving, IsUp, UpDev, DownDev, Todo, Ledger, Idle, Flow, Clean, Settled, Off;
    var m' := NextCall(Kinds(base), m);
    TodoNext(Kinds(base), m);
    HandOverRest(w, base, m);
    if !m.up && m.i == |base| - 1 {
      next := Downs(base);
      HandOverTurn(w, base, m);
    } else {
      next := base;
      HandOverSame(w, base, m);
    }
  }

  /** The next call belongs to the same whole-chain call, or to a pause. */
  lemma HandOverSame(w: World, base: seq<Device>, m: Mark)
    requires Placed(w, base, m) && m.pc == |Body(Kinds(base), m)| && !(!m.up && m.i == |base| - 1)
    requires MarkOk(Kinds(base), NextCall(Kinds(base), m))
    ensures Placed(w, base, NextCall(Kinds(base), m))
  {
    hide Up, Down, RiseDev, Moving, IsUp, UpDev, DownDev, Settled, Off;
    var m' := NextCall(Kinds(base), m);
    KindsIn(base, m.i);
    KindsIn(base, m'.i);
    if m.up { RiseEnds(w.devs[m.i], base[m.i], w.scratch, m); } else { FallEnds(w.devs[m.i], base[m.i], w.scratch, m); }
    if m'.up { RiseStarts(base[m'.i], w.scratch, m'); } else { FallStarts(w.devs[m'.i], base[m'.i], w.scratch, m'); }
  }

  /** The last call of a pause has returned and a continue begins. */
  lemma HandOverTurn(w: World, base: seq<Device>, m: Mark)
    requires Placed(w, base, m) && m.pc == |Body(Kinds(base), m)| && !m.up && m.i == |base| - 1
    requires MarkOk(Kinds(base), NextCall(Kinds(base), m))
    ensures Placed(w, Downs(base), NextCall(Kinds(base), m))
  {
    hide Up, Down, RiseDev, Moving, IsUp, UpDev, DownDev, Settled, Off;
    var m' := NextCall(Kinds(base), m);
    KindsIn(base, m.i);
    DownsReset(base);
    KindsIn(Downs(base), m.i);
    FallEnds(w.devs[m.i], base[m.i], w.scratch, m);
    RiseStarts(Downs(base)[m'.i], w.scratch, m');
  }

  lemma HandOverRest(w: World, base: seq<Device>, m: Mark)
    requires Inv(w, base, m) && m.pc == |Body(Kinds(base), m)| && !AtEnd(Kinds(base), m)
    ensures Ledger(w, NextCall(Kinds(base), m)) && Idle(w, NextCall(Kinds(base), m))
  {
    hide Up, Down, RiseDev, Moving, IsUp, UpDev, DownDev, Todo, Flow, Clean, Render, Last, Placed;
    PlacedShape(w, base, m);
    KindsIn(base, m.i);
    SinkAtReturn(w, base, m);
    var m' := NextCall(Kinds(base), m);
    assert Dumped(w, m) == Dumped(w, m');
    if m'.up && !m.up { SinkFirst(w, base, m); }
  }

  /** When a component's call returns the sink is running, unless its own disable call returned or it is yet to start. */
  lemma SinkAtReturn(w: World, base: seq<Device>, m: Mark)
    requires Placed(w, base, m) && m.pc == |Body(Kinds(base), m)|
    ensures w.devs[|base| - 1].phase.Disabled? <==> !m.up && m.i == |base| - 1
    ensures w.devs[|base| - 1].phase.Disabled? ==> m.pc >= 7
  {
    hide Up, RiseDev, UpDev, Moving, IsUp;
    var n := |base| - 1;
    KindsIn(base, m.i);
    KindsIn(base, n);
    if m.i < n { UpPhase(base[n], w.devs[n]); }
    else if m.up { RiseEnds(w.devs[n], base[n], w.scratch, m); UpPhase(base[n], w.devs[n]); }
    else { FallEnds(w.devs[n], base[n], w.scratch, m); }
  }

  lemma Begins(base: seq<Device>, scratch: Word, turns: nat)
    requires ResetChain(base)
    ensures Inv(Start(base, scratch, turns), base, Mark(true, true, |base| - 1, 0, 0, turns))
  {
    hide Up, Down, RiseDev, UpDev, DownDev, Moving;
    var n := |base| - 1;
    var m := Mark(true, true, n, 0, 0, turns);
    KindsIn(base, n);
    RiseStarts(base[n], scratch, m);
    InFlightNone(base, 1);
    FromEnds(n, Body(Kinds(base), m));
  }

  lemma SwKeeps(w: World, base: seq<Device>, m: Mark)
    requires Inv(w, base, m) && m.pc < |Body(Kinds(base), m)|
    ensures Inv(SwStep(w), base, SwMark(w, m))
  {
    hide Placed, Ledger, Idle, Flow, Clean, Body, SwStep, SwMark;
    PlacedShape(w, base, m);
    if m.i < |base| - 1 { SwOther(w, base, m); }
    else if m.up { SwSinkUp(w, base, m); }
    else if m.pc == 6 { SwDump(w, base, m); }
    else { SwSinkDown(w, base, m); }
  }

  lemma HwKeeps(w: World, base: seq<Device>, m: Mark, h: Hw)
    requires Inv(w, base, m)
    ensures Inv(HwStep(w, h), base, m)
  {
    hide Inv, HwStep;
    match h
    case Emit(x) => HwEmits(w, base, m, x);
    case Drain(j) => HwDrains(w, base, m, j);
    case FlushDone(j) => HwCompletes(w, base, m, j, true);
    case StopDone(j) => HwCompletes(w, base, m, j, false);
  }

  /** Every state of every run, under every interleaving with the hardware, satisfies the invariant. */
  lemma {:induction false} Runs(base: seq<Device>, scratch: Word, turns: nat, es: seq<Event>) returns (cur: seq<Device>, m: Mark)
    requires ResetChain(base)
    ensures Inv(Exec(Start(base, scratch, turns), es), cur, m) && m.past + m.turns == turns
    ensures cur == Current(base, m.past)
  {
    hide Inv, Start, Step, Body, AtEnd, MarkOk, NextCall;
    if es == [] {
      Begins(base, scratch, turns);
      cur, m := base, Mark(true, true, |base| - 1, 0, 0, turns);
    } else {
      cur, m := Runs(base, scratch, turns, es[..|es| - 1]);
      cur, m := StepKeeps(Exec(Start(base, scratch, turns), es[..|es| - 1]), base, m, es[|es| - 1]);
    }
  }

  lemma StepKeeps(w: World, base: seq<Device>, m: Mark, e: Event) returns (cur: seq<Device>, m': Mark)
    requires ResetChain(base) && Inv(w, Current(base, m.past), m)
    ensures Inv(Step(w, e), cur, m') && m'.past + m'.turns == m.past + m.turns
    ensures cur == Current(base, m'.past)
  {
    hide Placed, Ledger, Idle, Flow, Clean, Up, Down, SwStep, HwStep, Todo, ResetChain;
    m' := m;
    cur := Current(base, m.past);
    PlacedShape(w, cur, m);
    match e
    case Hardware(h) => HwKeeps(w, cur, m, h);
    case Sw =>
      if m.pc == |Body(Kinds(cur), m)| {
        TodoNext(Kinds(cur), m);
        if AtEnd(Kinds(cur), m) {
          Stutters(w);
          return;
        }
        m' := NextCall(Kinds(cur), m);
        BodyLong(Kinds(cur)[m'.i], m'.first);
        NextCurrent(base, m);
        cur := HandOver(w, cur, m);
      }
      SwKeeps(w, cur, m');
      m' := SwMark(w, m');
  }

  lemma NextCurrent(base: seq<Device>, m: Mark)
    requires ResetChain(base) && ResetChain(Current(base, m.past)) && MarkOk(Kinds(Current(base, m.past)), m)
    ensures var c := Current(base, m.past);
            Current(base, NextCall(Kinds(c), m).past) == if !m.up && m.i == |base| - 1 then Downs(c) else c
  {
    hide DownDev, Up, Down, Settled;
    DownsReset(base);
  }

  lemma Stutters(w: World)
    requires w.todo == []
    ensures SwStep(w) == w
  {
  }

  lemma BodyLong(k: Kind, first: bool)
    requires KindOk(k)
    ensures |Up(k, first)| > 0 && |Down(k)| > 0
  {
  }
}
