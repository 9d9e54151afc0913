/**
 * funnel_disable writes without opening the software lock that funnel_enable closed. A funnel may ignore such a write or
 * take it. The two boards are bisimilar: same program position, same words everywhere. They show the same FUNCTL while
 * tracing exactly if the upper FUNCTL bits are clear at reset.
 */
module Twins {
  import opened Words
  import opened Devices
  import opened Programs
  import opened Chain
  import opened LocalRuns
  import opened Sessions
  import opened Guarantees
  import opened Progress

  /** Equal except for how a funnel reacts to a write while locked. */
  predicate Alike(d: Device, e: Device)
  {
    d == e || (d.kind.Funnel? && e.kind.Funnel? && e == d.(kind := Funnel(d.kind.port, e.kind.gated)))
  }

  ghost predicate AlikeChains(a: seq<Device>, b: seq<Device>)
  {
    |a| == |b| && forall j :: 0 <= j < |a| ==> Alike(a[j], b[j])
  }

  /** Chains that differ only in their funnels, and in those only in registers and in the reaction to a write while locked. */
  ghost predicate Matching(a: seq<Device>, b: seq<Device>)
  {
    && |a| == |b|
    && (forall j :: 0 <= j < |a| ==> AlikeKinds(a[j].kind, b[j].kind) && (!a[j].kind.Funnel? ==> a[j] == b[j]))
  }

  lemma AlikeMatch(a: seq<Device>, b: seq<Device>, past: nat)
    requires ResetChain(a) && ResetChain(b) && AlikeChains(a, b)
    ensures Matching(Current(a, past), Current(b, past))
  {
    hide DownDev, Off;
    forall j | 0 <= j < |a| ensures AlikeKinds(a[j].kind, b[j].kind) && (!a[j].kind.Funnel? ==> a[j] == b[j]) {
      KindsIn(a, j);
      KindsIn(b, j);
    }
  }

  /** Both runs, at the same software position; a and b are the chains as the last enable or continue call found them. */
  ghost predicate Related(w: World, v: World, a: seq<Device>, b: seq<Device>, m: Mark)
  {
    && Inv(w, a, m) && Inv(v, b, m)
    && w.todo == v.todo && w.sessions == v.sessions && w.seen == v.seen && w.drained == v.drained
    && |w.devs| == |v.devs| == |a| == |b| && m.i < |a|
    && (forall j :: 0 <= j < |w.devs| && !w.devs[j].kind.Funnel? ==> w.devs[j] == v.devs[j])
  }

  predicate AlikeKinds(k: Kind, l: Kind) { k == l || (k.Funnel? && l.Funnel? && k.port == l.port) }

  lemma SamePrograms(ks: seq<Kind>, ls: seq<Kind>, i: nat, first: bool)
    requires |ks| == |ls| && i <= |ks|
    requires forall j :: 0 <= j < |ks| ==> KindOk(ks[j]) && KindOk(ls[j]) && AlikeKinds(ks[j], ls[j])
    ensures UpFrom(ks, i, first) == UpFrom(ls, i, first)
    decreases i
  {
    hide Up;
    if i > 0 {
      SameCall(ks[i - 1], ls[i - 1], first);
      SamePrograms(ks, ls, i - 1, first);
    }
  }

  lemma SameDownPrograms(ks: seq<Kind>, ls: seq<Kind>, i: nat)
    requires |ks| == |ls| && i <= |ks|
    requires forall j :: 0 <= j < |ks| ==> KindOk(ks[j]) && KindOk(ls[j]) && AlikeKinds(ks[j], ls[j])
    ensures DownFrom(ks, i) == DownFrom(ls, i)
    decreases |ks| - i
  {
    hide Down;
    if i < |ks| {
      SameCall(ks[i], ls[i], true);
      SameDownPrograms(ks, ls, i + 1);
    }
  }

  lemma SameCall(k: Kind, l: Kind, first: bool)
    requires KindOk(k) && KindOk(l) && AlikeKinds(k, l)
    ensures Up(k, first) == Up(l, first) && Down(k) == Down(l)
  {
  }

  lemma SameMore(ks: seq<Kind>, ls: seq<Kind>, up: bool, turns: nat)
    requires |ks| == |ls|
    requires forall j :: 0 <= j < |ks| ==> KindOk(ks[j]) && KindOk(ls[j]) && AlikeKinds(ks[j], ls[j])
    ensures More(ks, up, turns) == More(ls, up, turns)
    decreases turns
  {
    hide UpFrom, DownFrom;
    if turns > 0 {
      SamePrograms(ks, ls, |ks|, false);
      SameDownPrograms(ks, ls, 0);
      SameMore(ks, ls, !up, turns - 1);
    }
  }

  // ---- One software step ----

  /** Within the calls made, the C local never makes the same component end up different. */
  lemma ActSame(d: Device, d0: Device, s: Word, t: Word, m: Mark, p: seq<Instr>)
    requires Off(d0) && !d0.kind.Funnel? && Moving(d, d0, s, m) && Moving(d, d0, t, m)
    requires p == (if m.up then Up(d0.kind, m.first) else Down(d0.kind)) && m.pc < |p|
    ensures Act(Local(d, s), p[m.pc]).d == Act(Local(d, t), p[m.pc]).d
  {
    hide RiseDev, UpDev, DownDev, SwitchDev;
    if p[m.pc].Mask? {
      MaskAt(d0.kind, m);
      if m.up {
      } else if m.pc == 3 {
      } else {
      }
    }
  }

  lemma MaskAt(k: Kind, m: Mark)
    requires KindOk(k) && !k.Funnel?
    requires var p := if m.up then Up(k, m.first) else Down(k); m.pc < |p| && p[m.pc].Mask?
    ensures if m.up then k.Sink? && k.ram && m.pc == 5 else !k.Etm? && (m.pc == 2 || m.pc == 3)
  {
  }

  lemma RelatedShape(w: World, v: World, a: seq<Device>, b: seq<Device>, m: Mark)
    requires Related(w, v, a, b, m) && Matching(a, b)
    ensures Placed(w, a, m) && Placed(v, b, m) && Kinds(a)[m.i] == a[m.i].kind && Kinds(b)[m.i] == b[m.i].kind
    ensures Off(a[m.i]) && Off(b[m.i]) && AlikeKinds(a[m.i].kind, b[m.i].kind) && (!a[m.i].kind.Funnel? ==> a[m.i] == b[m.i])
    ensures Body(Kinds(a), m) == Body(Kinds(b), m) && m.pc <= |Body(Kinds(a), m)|
    ensures Moving(w.devs[m.i], a[m.i], w.scratch, m) && Moving(v.devs[m.i], b[m.i], v.scratch, m)
    ensures (w.devs[m.i].kind.Funnel? <==> a[m.i].kind.Funnel?)
    ensures ResetChain(a) && ResetChain(b)
  {
    hide Up, Down, Ledger, Idle, Flow, Clean, Moving, IsUp, Todo;
    PlacedShape(w, a, m);
    PlacedShape(v, b, m);
    KindsIn(a, m.i);
    KindsIn(b, m.i);
    SameCall(a[m.i].kind, b[m.i].kind, m.first);
    MovingKind(w.devs[m.i], a[m.i], w.scratch, m);
  }

  lemma MovingKind(d: Device, d0: Device, s: Word, m: Mark)
    requires Off(d0) && Moving(d, d0, s, m)
    ensures d.kind == d0.kind
  {
  }

  /** The effect of one software step on everything but the component it addresses. */
  lemma TwinStep(w: World, v: World, i: nat, instr: Instr, rest: seq<Cmd>)
    requires w.todo == v.todo == [Cmd(i, instr)] + rest && w.sessions == v.sessions && w.seen == v.seen && w.drained == v.drained
    requires |w.devs| == |v.devs| && i < |w.devs|
    requires w.devs[i] == v.devs[i] && Act(Local(w.devs[i], w.scratch), instr).d == Act(Local(v.devs[i], v.scratch), instr).d
    ensures var x, y := SwStep(w), SwStep(v);
            && x.todo == y.todo && x.sessions == y.sessions && x.seen == y.seen && x.drained == y.drained
            && |x.devs| == |y.devs| == |w.devs| && x.devs[i] == y.devs[i]
            && (forall j :: 0 <= j < |w.devs| && j != i ==> x.devs[j] == w.devs[j] && y.devs[j] == v.devs[j])
  {
    hide Act, Blocked;
    assert w.todo[0] == Cmd(i, instr);
    assert w.todo[1..] == rest;
  }

  lemma TwinFunnelStep(w: World, v: World, i: nat, instr: Instr, rest: seq<Cmd>)
    requires w.todo == v.todo == [Cmd(i, instr)] + rest && w.sessions == v.sessions && w.seen == v.seen && w.drained == v.drained
    requires |w.devs| == |v.devs| && i < |w.devs| - 1
    requires w.devs[i].kind.Funnel? && v.devs[i].kind.Funnel? && !instr.Dump? && !instr.AwaitFlush? && !instr.AwaitReady?
    ensures var x, y := SwStep(w), SwStep(v);
            && x.todo == y.todo && x.sessions == y.sessions && x.seen == y.seen && x.drained == y.drained
            && |x.devs| == |y.devs| == |w.devs| && x.devs[i].kind.Funnel?
            && (forall j :: 0 <= j < |w.devs| && j != i ==> x.devs[j] == w.devs[j] && y.devs[j] == v.devs[j])
  {
    hide Act;
    ActKind(Local(w.devs[i], w.scratch), instr);
    assert w.todo[0] == Cmd(i, instr);
    assert w.todo[1..] == rest;
  }

  lemma NoAwaitFunnel(k: Kind, first: bool, up: bool, pc: nat)
    requires KindOk(k) && k.Funnel? && pc < |if up then Up(k, first) else Down(k)|
    ensures var i := (if up then Up(k, first) else Down(k))[pc]; !i.Dump? && !i.AwaitFlush? && !i.AwaitReady?
  {
  }

  lemma TwinExec(w: World, v: World, a: seq<Device>, b: seq<Device>, m: Mark)
    requires Matching(a, b) && Related(w, v, a, b, m) && m.pc < |Body(Kinds(a), m)|
    ensures Related(SwStep(w), SwStep(v), a, b, SwMark(w, m))
  {
    hide Inv, Up, Down, Matching, Moving, Placed, SwStep, Act, Todo, Kinds, ResetChain;
    RelatedShape(w, v, a, b, m);
    SwKeeps(w, a, m);
    SwKeeps(v, b, m);
    SwMoves(w, a, m);
    SwMoves(v, b, m);
    var p := Body(Kinds(a), m);
    assert w.todo == [Cmd(m.i, p[m.pc])] + w.todo[1..];
    if w.devs[m.i].kind.Funnel? {
      NoAwaitFunnel(a[m.i].kind, m.first, m.up, m.pc);
      FunnelInside(w, v, a, b, m);
      TwinFunnelStep(w, v, m.i, p[m.pc], w.todo[1..]);
    } else {
      ActSame(w.devs[m.i], a[m.i], w.scratch, v.scratch, m, p);
      TwinStep(w, v, m.i, p[m.pc], w.todo[1..]);
    }
    assert SwMark(w, m) == SwMark(v, m) by { TwinMark(w, v, m); }
  }

  lemma TwinMark(w: World, v: World, m: Mark)
    requires w.todo == v.todo && SwStep(w).todo == SwStep(v).todo
    ensures SwMark(w, m) == SwMark(v, m)
  {
  }

  lemma FunnelInside(w: World, v: World, a: seq<Device>, b: seq<Device>, m: Mark)
    requires Matching(a, b) && Related(w, v, a, b, m) && w.devs[m.i].kind.Funnel?
    ensures m.i < |a| - 1 && v.devs[m.i].kind.Funnel?
  {
    hide Inv, Up, Down, Moving, Todo, Placed, Kinds, Off, Body, KindOk;
    RelatedShape(w, v, a, b, m);
    MovingKind(w.devs[m.i], a[m.i], w.scratch, m);
    MovingKind(v.devs[m.i], b[m.i], v.scratch, m);
  }

  lemma TwinNext(w: World, v: World, a: seq<Device>, b: seq<Device>, m: Mark) returns (a': seq<Device>, b': seq<Device>)
    requires Matching(a, b) && Related(w, v, a, b, m) && m.pc == |Body(Kinds(a), m)| && !AtEnd(Kinds(a), m)
    ensures NextCall(Kinds(a), m) == NextCall(Kinds(b), m)
    ensures a' == (if !m.up && m.i == |a| - 1 then Downs(a) else a) && b' == (if !m.up && m.i == |a| - 1 then Downs(b) else b)
    ensures Related(w, v, a', b', NextCall(Kinds(a), m))
  {
    hide Up, Down, Moving, Inv, UpDev, Todo, Body, Placed, IsUp, MarkOk, ResetChain, KindOk, Off, Kinds;
    RelatedShape(w, v, a, b, m);
    InvShape(w, a, m);
    InvShape(v, b, m);
    assert AtEnd(Kinds(b), m) == AtEnd(Kinds(a), m);
    a' := HandOver(w, a, m);
    b' := HandOver(v, b, m);
    NextInside(Kinds(a), m) by { TodoNext(Kinds(a), m); }
  }

  lemma NextInside(ks: seq<Kind>, m: Mark)
    requires m.i < |ks|
    ensures NextCall(ks, m).i < |ks|
  {
  }

  // ---- One hardware step ----

  /** Equal components, or two funnels that both pass words on or both do not. */
  predicate PassAlike(d: Device, e: Device)
  {
    d == e || (d.kind.Funnel? && e.kind.Funnel? && d.PortOpen() == e.PortOpen())
  }

  /** Past the software's position both boards pass words on alike. */
  lemma AheadAlike(w: World, v: World, a: seq<Device>, b: seq<Device>, m: Mark)
    requires Matching(a, b) && Related(w, v, a, b, m)
    ensures forall j :: m.i < j < |w.devs| ==> PassAlike(w.devs[j], v.devs[j])
  {
    hide Inv, Placed, Matching, Device.PortOpen;
    RelatedShape(w, v, a, b, m);
    forall j | m.i < j < |w.devs| ensures PassAlike(w.devs[j], v.devs[j]) {
      if w.devs[j].kind.Funnel? {
        TwinFunnel(w, v, a, b, m, j);
        AheadAccepts(w, a, m, j);
        AheadAccepts(v, b, m, j);
      }
    }
  }

  /** Words take the same way through components that pass them on alike. */
  lemma TwinDeliver(c: seq<Device>, e: seq<Device>, seen: seq<Word>, j: nat, x: Word)
    requires |c| == |e| && forall k :: j <= k < |c| ==> PassAlike(c[k], e[k])
    ensures var r, q := Deliver(c, seen, j, x), Deliver(e, seen, j, x);
            && r.1 == q.1 && (forall k :: 0 <= k < j && k < |c| ==> r.0[k] == c[k] && q.0[k] == e[k])
            && (forall k :: j <= k < |c| ==> PassAlike(r.0[k], q.0[k]))
    decreases |c| - j
  {
    hide Device.Push, Device.PortOpen;
    if j < |c| {
      if c[j].kind.Funnel? && c[j].PortOpen() {
        TwinDeliver(c, e, seen, j + 1, x);
        var r, q := Deliver(c, seen, j, x), Deliver(e, seen, j, x);
        assert r.0[j] == c[j] && q.0[j] == e[j];
      }
    }
  }

  lemma TwinEmit(w: World, v: World, a: seq<Device>, b: seq<Device>, m: Mark, x: Word)
    requires Matching(a, b) && Related(w, v, a, b, m)
    ensures Related(HwStep(w, Emit(x)), HwStep(v, Emit(x)), a, b, m)
  {
    hide Inv, Up, Down, Moving, Placed, Deliver, Device.Enabled;
    HwKeeps(w, a, m, Emit(x));
    HwKeeps(v, b, m, Emit(x));
    RelatedShape(w, v, a, b, m);
    EtmFirst(w, a, m);
    if w.devs[0].Enabled() && x != ONES {
      TracingAtFirst(w, a, m);
      AheadAlike(w, v, a, b, m);
      TwinDeliver(w.devs, v.devs, w.seen, 1, x);
    }
  }

  lemma EtmFirst(w: World, base: seq<Device>, m: Mark)
    requires Placed(w, base, m)
    ensures w.devs[0].kind.Etm?
  {
    hide Up, Down, Moving;
    KindsIn(base, 0);
    if m.i == 0 { MovingKind(w.devs[0], base[0], w.scratch, m); }
  }

  lemma TwinDrain(w: World, v: World, a: seq<Device>, b: seq<Device>, m: Mark, j: nat)
    requires Matching(a, b) && Related(w, v, a, b, m)
    ensures Related(HwStep(w, Drain(j)), HwStep(v, Drain(j)), a, b, m)
  {
    hide Inv, Up, Down, Moving, Placed, Deliver, ResetChain, Matching, MarkOk, Kinds, Off, IsUp;
    HwKeeps(w, a, m, Drain(j));
    HwKeeps(v, b, m, Drain(j));
    RelatedShape(w, v, a, b, m);
    if j < |w.devs| && w.devs[j].kind.Link? && w.devs[j].phase.Running? && w.devs[j].fifo != [] {
      HolderPlaced(w, a, m, j);
      AheadAlike(w, v, a, b, m);
      var d := w.devs[j].(fifo := w.devs[j].fifo[1..]);
      TwinDeliver(w.devs[j := d], v.devs[j := d], w.seen, j + 1, w.devs[j].fifo[0]);
    } else if j < |w.devs| && w.devs[j].kind.Funnel? {
      TwinFunnel(w, v, a, b, m, j);
    }
  }

  /** Where one run has a funnel so has the other, and the hardware does nothing in it by itself. */
  lemma TwinFunnel(w: World, v: World, a: seq<Device>, b: seq<Device>, m: Mark, j: nat)
    requires Matching(a, b) && Related(w, v, a, b, m) && j < |w.devs| && w.devs[j].kind.Funnel?
    ensures v.devs[j].kind.Funnel? && w.devs[j].FlushDone() == w.devs[j] && v.devs[j].FlushDone() == v.devs[j]
    ensures w.devs[j].StopDone() == w.devs[j] && v.devs[j].StopDone() == v.devs[j]
  {
    hide Inv, Up, Down, Moving, UpDev, DownDev;
    RelatedShape(w, v, a, b, m);
    KindsIn(a, j);
    KindsIn(b, j);
    OffAgain(a[j]);
    OffAgain(b[j]);
    if j > m.i { UpPhase(a[j], w.devs[j]); UpPhase(b[j], v.devs[j]); }
    else if j == m.i { FunnelPhase(w.devs[j], a[j], w.scratch, m); FunnelPhase(v.devs[j], b[j], v.scratch, m); }
  }

  lemma FunnelPhase(d: Device, d0: Device, s: Word, m: Mark)
    requires Off(d0) && (d.kind.Funnel? || d0.kind.Funnel?) && Moving(d, d0, s, m)
    ensures d.phase.Disabled? && d.kind.Funnel? && d0.kind.Funnel?
  {
    MovingKind(d, d0, s, m);
    OffAgain(d0);
  }

  lemma TwinComplete(w: World, v: World, a: seq<Device>, b: seq<Device>, m: Mark, h: Hw)
    requires Matching(a, b) && Related(w, v, a, b, m) && (h.FlushDone? || h.StopDone?)
    ensures Related(HwStep(w, h), HwStep(v, h), a, b, m)
  {
    hide Inv, Up, Down, Moving, Placed, Device.FlushDone, Device.StopDone;
    HwKeeps(w, a, m, h);
    HwKeeps(v, b, m, h);
    if h.j < |w.devs| && w.devs[h.j].kind.Funnel? {
      TwinFunnel(w, v, a, b, m, h.j);
      assert w.devs[h.j := w.devs[h.j]] == w.devs && v.devs[h.j := v.devs[h.j]] == v.devs;
    } else if h.j < |w.devs| {
      KindStays(w.devs[h.j]);
    }
  }

  lemma KindStays(d: Device)
    ensures d.FlushDone().kind == d.kind && d.StopDone().kind == d.kind
  {
  }

  lemma {:induction false} TwinRuns(a: seq<Device>, b: seq<Device>, s: Word, t: Word, turns: nat, es: seq<Event>)
    returns (c: seq<Device>, e: seq<Device>, m: Mark)
    requires ResetChain(a) && ResetChain(b) && AlikeChains(a, b)
    ensures c == Current(a, m.past) && e == Current(b, m.past)
    ensures Matching(c, e) && Related(Exec(Start(a, s, turns), es), Exec(Start(b, t, turns), es), c, e, m)
  {
    hide Inv, Step, Body, AtEnd, MarkOk, NextCall, ResetChain, Turns, Up, Down, Matching, AlikeChains;
    if es == [] {
      BaseShape(a);
      BaseShape(b);
      AlikeMatch(a, b, 0);
      Begins(a, s, turns);
      Begins(b, t, turns);
      c, e, m := a, b, Mark(true, true, |a| - 1, 0, 0, turns);
      TwinStart(a, b, turns);
    } else {
      c, e, m := TwinRuns(a, b, s, t, turns, es[..|es| - 1]);
      var w, v := Exec(Start(a, s, turns), es[..|es| - 1]), Exec(Start(b, t, turns), es[..|es| - 1]);
      c, e, m := TwinEvent(w, v, a, b, m, es[|es| - 1]);
      AlikeMatch(a, b, m.past);
    }
  }

  lemma TwinStart(a: seq<Device>, b: seq<Device>, turns: nat)
    requires ResetChain(a) && ResetChain(b) && AlikeChains(a, b)
    ensures |a| == |b| && Turns(Kinds(a), true, true, turns) == Turns(Kinds(b), true, true, turns)
    ensures forall j :: 0 <= j < |a| && !a[j].kind.Funnel? ==> a[j] == b[j]
  {
    hide Turns;
    SameTurns(Kinds(a), Kinds(b), turns);
  }

  lemma SameTurns(ks: seq<Kind>, ls: seq<Kind>, turns: nat)
    requires |ks| == |ls|
    requires forall j :: 0 <= j < |ks| ==> KindOk(ks[j]) && KindOk(ls[j]) && AlikeKinds(ks[j], ls[j])
    ensures Turns(ks, true, true, turns) == Turns(ls, true, true, turns)
  {
    hide Up, Down, UpFrom, More;
    SamePrograms(ks, ls, |ks|, true);
    SameMore(ks, ls, true, turns);
  }

  lemma TwinEvent(w: World, v: World, a: seq<Device>, b: seq<Device>, m: Mark, e: Event)
    returns (c: seq<Device>, d: seq<Device>, m': Mark)
    requires ResetChain(a) && ResetChain(b) && AlikeChains(a, b)
    requires Related(w, v, Current(a, m.past), Current(b, m.past), m)
    ensures c == Current(a, m'.past) && d == Current(b, m'.past) && Related(Step(w, e), Step(v, e), c, d, m')
  {
    hide Related, Inv, HwStep, SwStep, Matching, ResetChain, Current, AlikeChains;
    AlikeMatch(a, b, m.past);
    c, d, m' := Current(a, m.past), Current(b, m.past), m;
    match e
    case Hardware(h) =>
      if h.Emit? { TwinEmit(w, v, c, d, m, h.x); }
      else if h.Drain? { TwinDrain(w, v, c, d, m, h.j); }
      else { TwinComplete(w, v, c, d, m, h); }
    case Sw =>
      c, d, m' := TwinSoftware(w, v, a, b, m);
  }

  lemma TwinSoftware(w: World, v: World, a: seq<Device>, b: seq<Device>, m: Mark)
    returns (c: seq<Device>, d: seq<Device>, m': Mark)
    requires ResetChain(a) && ResetChain(b) && AlikeChains(a, b)
    requires Related(w, v, Current(a, m.past), Current(b, m.past), m)
    ensures c == Current(a, m'.past) && d == Current(b, m'.past) && Related(SwStep(w), SwStep(v), c, d, m')
  {
    hide Inv, Up, Down, SwStep, Matching, ResetChain, Kinds, Current, AlikeChains, AtEnd, Body, Placed, Moving, Off, KindOk;
    AlikeMatch(a, b, m.past);
    c, d, m' := Current(a, m.past), Current(b, m.past), m;
    RelatedShape(w, v, c, d, m);
    InvShape(w, c, m);
    MarkBody(Kinds(c), m);
    if m.pc == |Body(Kinds(c), m)| {
      if AtEnd(Kinds(c), m) {
        TwinStutter(w, v, c, d, m);
        return;
      }
      c, d, m' := TwinAdvance(w, v, a, b, m);
      AlikeMatch(a, b, m'.past);
    }
    TwinExec(w, v, c, d, m');
    m' := SwMark(w, m');
  }

  /** A component's call has returned, and another one follows. */
  ghost predicate Returned(ks: seq<Kind>, m: Mark) { MarkOk(ks, m) && m.pc == |Body(ks, m)| && !AtEnd(ks, m) }

  /** Both boards begin their next call together. */
  lemma TwinAdvance(w: World, v: World, a: seq<Device>, b: seq<Device>, m: Mark)
    returns (c: seq<Device>, d: seq<Device>, m': Mark)
    requires ResetChain(a) && ResetChain(b) && AlikeChains(a, b)
    requires Related(w, v, Current(a, m.past), Current(b, m.past), m)
    requires Returned(Kinds(Current(a, m.past)), m)
    ensures c == Current(a, m'.past) && d == Current(b, m'.past) && Related(w, v, c, d, m')
    ensures MarkOk(Kinds(c), m') && m'.i < |Kinds(c)| && m'.pc < |Body(Kinds(c), m')|
  {
    hide Inv, Up, Down, Matching, ResetChain, Kinds, Current, AlikeChains, AtEnd, Body, Placed, Moving, Off, KindOk;
    AlikeMatch(a, b, m.past);
    c, d := Current(a, m.past), Current(b, m.past);
    RelatedShape(w, v, c, d, m);
    InvShape(w, c, m);
    InvShape(v, d, m);
    m' := NextCall(Kinds(c), m);
    NextCurrent(a, m);
    NextCurrent(b, m);
    c, d := TwinNext(w, v, c, d, m);
    InvShape(w, c, m');
    CallBegins(Kinds(c), m');
  }

  lemma MarkBody(ks: seq<Kind>, m: Mark)
    requires MarkOk(ks, m)
    ensures m.i < |ks| && KindOk(ks[m.i])
  {
    hide Up, Down;
  }

  lemma CallBegins(ks: seq<Kind>, m: Mark)
    requires MarkOk(ks, m) && m.pc == 0
    ensures m.i < |ks| && |Body(ks, m)| > 0
  {
    hide Up, Down;
    BodyLong(ks[m.i], m.first);
  }

  lemma TwinStutter(w: World, v: World, a: seq<Device>, b: seq<Device>, m: Mark)
    requires Related(w, v, a, b, m) && MarkOk(Kinds(a), m) && AtEnd(Kinds(a), m)
    ensures SwStep(w) == w && SwStep(v) == v
  {
    hide Placed, Ledger, Idle, Flow, Clean, Up, Down, Body, Todo;
    TodoNext(Kinds(a), m);
    Stutters(w);
    Stutters(v);
  }

  ghost predicate SameStream(w: World, v: World)
  {
    w.sessions == v.sessions && w.seen == v.seen && w.drained == v.drained && w.todo == v.todo
  }

  /** All trace units and TMCs agree. */
  ghost predicate SameComponents(c: seq<Device>, e: seq<Device>)
  {
    |c| == |e| && forall j :: 0 <= j < |c| && !c[j].kind.Funnel? ==> c[j] == e[j]
  }

  /** While the trace unit runs so do all registers, those of the funnels included. */
  ghost predicate SameTracing(c: seq<Device>, e: seq<Device>)
  {
    |c| == |e| && (c != [] && c[0].Enabled() ==> forall j :: 0 <= j < |c| ==> c[j].regs == e[j].regs)
  }

  /**
   * Whether locked funnels ignore funnel_disable or obey it makes no difference to the trace: on equal events both boards are at
   * the same program position and have emitted, delivered and drained the same words.
   */
  lemma {:induction false} LockReactionInvisible(a: seq<Device>, b: seq<Device>, s: Word, t: Word, turns: nat, es: seq<Event>)
    requires ResetChain(a) && ResetChain(b) && AlikeChains(a, b)
    ensures SameStream(Exec(Start(a, s, turns), es), Exec(Start(b, t, turns), es))
  {
    hide Inv, Start, Exec, AlikeChains, ResetChain;
    var c, e, m := TwinRuns(a, b, s, t, turns, es);
  }

  /** Nor to the components: at every step all trace units and TMCs agree in all registers, locks and words they hold. */
  lemma {:induction false} ComponentsAgree(a: seq<Device>, b: seq<Device>, s: Word, t: Word, turns: nat, es: seq<Event>)
    requires ResetChain(a) && ResetChain(b) && AlikeChains(a, b)
    ensures SameComponents(Exec(Start(a, s, turns), es).devs, Exec(Start(b, t, turns), es).devs)
  {
    hide Inv, Start, Exec, AlikeChains, ResetChain;
    var c, e, m := TwinRuns(a, b, s, t, turns, es);
  }

  // ---- FUNCTL while tracing ----

  /** Every funnel reacts alike on both boards or comes out of reset with no FUNCTL bit set that funnel_enable keeps. */
  ghost predicate SameFunctl(a: seq<Device>, b: seq<Device>)
  {
    |a| == |b| && forall j :: 0 <= j < |a| ==> a[j] == b[j] || HighClear(a[j].Reg(FUNCTL))
  }

  /** Enabled again after a pause, the two funnels have equal registers exactly then. */
  lemma AgainAlike(d: Device, e: Device)
    requires Alike(d, e) && Off(d) && Off(e)
    ensures UpDev(d).regs == UpDev(e).regs
    ensures KindOk(DownDev(d).kind) && KindOk(DownDev(e).kind)
    ensures UpDev(DownDev(d)).regs == UpDev(DownDev(e)).regs <==> d == e || HighClear(d.Reg(FUNCTL))
  {
    hide UpDev, DownDev, HighClear, Masked, FunctlBits;
    UpAlike(d, e);
    UpAgain(d);
    UpAgain(e);
    if d != e {
      ObeyedBits(d.Reg(FUNCTL), d.kind.port);
      if d.kind.gated { ObeyedValues(e); } else { ObeyedValues(d); }
    }
  }

  lemma UpAlike(d: Device, e: Device)
    requires Alike(d, e) && Off(d) && Off(e)
    ensures UpDev(d).regs == UpDev(e).regs
  {
    hide Masked, FunctlBits;
  }

  ghost predicate SameUp(a: seq<Device>, b: seq<Device>)
  {
    |a| == |b| && forall j :: 0 <= j < |a| ==> KindOk(a[j].kind) && KindOk(b[j].kind) && UpDev(a[j]).regs == UpDev(b[j]).regs
  }

  lemma CurrentAlike(a: seq<Device>, b: seq<Device>, past: nat)
    requires ResetChain(a) && ResetChain(b) && AlikeChains(a, b) && SameFunctl(a, b)
    ensures SameUp(Current(a, past), Current(b, past))
  {
    hide UpDev, DownDev, HighClear;
    var c, e := Current(a, past), Current(b, past);
    forall j | 0 <= j < |a| ensures KindOk(c[j].kind) && KindOk(e[j].kind) && UpDev(c[j]).regs == UpDev(e[j]).regs {
      KindsIn(a, j);
      KindsIn(b, j);
      AgainAlike(a[j], b[j]);
    }
  }

  lemma TracingAlike(a: seq<Device>, b: seq<Device>, s: Word, t: Word, turns: nat, es: seq<Event>)
    requires ResetChain(a) && ResetChain(b) && AlikeChains(a, b) && SameFunctl(a, b)
    ensures SameTracing(Exec(Start(a, s, turns), es).devs, Exec(Start(b, t, turns), es).devs)
  {
    hide Inv, Start, Exec, AlikeChains, ResetChain, SameFunctl, Current, Moving, UpDev, SameUp;
    var c, e, m := TwinRuns(a, b, s, t, turns, es);
    CurrentAlike(a, b, m.past);
    RelatedTracing(Exec(Start(a, s, turns), es), Exec(Start(b, t, turns), es), c, e, m);
  }

  lemma RelatedTracing(w: World, v: World, a: seq<Device>, b: seq<Device>, m: Mark)
    requires Matching(a, b) && Related(w, v, a, b, m)
    requires SameUp(a, b)
    ensures SameTracing(w.devs, v.devs)
  {
    hide Inv, Matching, ResetChain, Kinds, MarkOk, Moving, UpDev, Device.Enabled, Settled;
    RelatedShape(w, v, a, b, m);
    EtmFirst(w, a, m);
    if w.devs[0].Enabled() { TracingAtFirst(w, a, m); }
  }

  /** A run in which both boards complete enable, pause and continue. */
  lemma OneRound(a: seq<Device>, b: seq<Device>, s: Word, t: Word) returns (es: seq<Event>)
    requires ResetChain(a) && ResetChain(b) && AlikeChains(a, b)
    ensures Finished(Exec(Start(a, s, 2), es)) && Finished(Exec(Start(b, t, 2), es))
  {
    hide Start, Exec, ResetChain, AlikeChains;
    AlwaysCompletable(a, s, 2, []);
    var more :| Finished(Exec(Start(a, s, 2), [] + more));
    es := [] + more;
    LockReactionInvisible(a, b, s, t, 2, es);
  }

  lemma AfterRound(base: seq<Device>, w: World, j: nat)
    requires ResetChain(base) && Restored(base, 1, w) && Finished(w) && j < |base|
    ensures |w.devs| == |base| && KindOk(DownDev(base[j]).kind) && w.devs[j].regs == UpDev(DownDev(base[j])).regs
    ensures j == 0 ==> w.devs[0].Enabled()
  {
    hide DownDev, Restorable, Off;
    KindsIn(base, j);
  }

  /** Where the condition fails, one pause and one continue suffice to tell the boards apart. */
  lemma {:induction false} TracingDiffers(a: seq<Device>, b: seq<Device>, s: Word, t: Word) returns (es: seq<Event>)
    requires ResetChain(a) && ResetChain(b) && AlikeChains(a, b) && !SameFunctl(a, b)
    ensures !SameTracing(Exec(Start(a, s, 2), es).devs, Exec(Start(b, t, 2), es).devs)
  {
    hide Start, Exec, UpDev, DownDev, HighClear, Off, Restored, Device.Enabled, Finished;
    es := OneRound(a, b, s, t);
    RoundsRestore(a, s, 1, es);
    RoundsRestore(b, t, 1, es);
    ghost var j :| 0 <= j < |a| && a[j] != b[j] && !HighClear(a[j].Reg(FUNCTL));
    KindsIn(a, j);
    KindsIn(b, j);
    AgainAlike(a[j], b[j]);
    AfterRound(a, Exec(Start(a, s, 2), es), 0);
    AfterRound(a, Exec(Start(a, s, 2), es), j);
    AfterRound(b, Exec(Start(b, t, 2), es), j);
  }

  /**
   * While tracing, all registers of all components agree on the two boards, in every state of every run, if and only if every
   * funnel that reacts differently on them comes out of reset with the upper bits of FUNCTL clear.
   */
  lemma {:induction false} FunctlAgrees(a: seq<Device>, b: seq<Device>, s: Word, t: Word)
    requires ResetChain(a) && ResetChain(b) && AlikeChains(a, b)
    ensures SameFunctl(a, b) <==>
      forall turns: nat, es: seq<Event> :: SameTracing(Exec(Start(a, s, turns), es).devs, Exec(Start(b, t, turns), es).devs)
  {
    hide *;
    if SameFunctl(a, b) {
      forall turns: nat, es: seq<Event>
        ensures SameTracing(Exec(Start(a, s, turns), es).devs, Exec(Start(b, t, turns), es).devs)
      {
        TracingAlike(a, b, s, t, turns, es);
      }
    } else {
      var es := TracingDiffers(a, b, s, t);
    }
  }
}
