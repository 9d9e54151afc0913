/**
 * What holds on every run: enable followed by any number of pause and continue calls (a final disable is one more
 * pause), on a chain of any length, interleaved in any way with the hardware. Every prefix of a run is a run,
 * so a statement about `Exec(Start(..), es)` is one about the state after every single register access.
 */
module Guarantees {
  import opened Words
  import opened Devices
  import opened Programs
  import opened Chain
  import opened LocalRuns
  import opened Sessions

  /** Every component that can still send words is followed only by components that take them. */
  ghost predicate PathOpen(devs: seq<Device>)
  {
    forall i, j :: 0 <= i < j < |devs| && devs[i].Live() ==> devs[j].Accepts()
  }

  /** The component software is about to access is in the state the access requires. */
  ghost predicate HeadProper(w: World)
  {
    w.todo != [] ==> w.todo[0].dev < |w.devs| && Proper(w.devs[w.todo[0].dev], w.todo[0].instr)
  }

  /**
   * If all calls have returned: as many sessions as enables, every component locked and running in the state in which an enable
   * call leaves it, and this is the state of its first enable call exactly if no continue has been made or it is restorable.
   */
  ghost predicate Restored(base: seq<Device>, rounds: nat, w: World)
    requires ResetChain(base)
  {
    w.todo == [] ==>
      && |w.sessions| == rounds + 1 && |w.devs| == |base|
      && (forall j :: 0 <= j < |base| ==> w.devs[j].(fifo := []) == UpDev(if rounds == 0 then base[j] else DownDev(base[j])))
      && (forall j :: 0 <= j < |base| ==> !w.devs[j].open)
      && (forall j :: 0 <= j < |base| ==> (w.devs[j].(fifo := []) == UpDev(base[j]) <==> rounds == 0 || Restorable(base[j])))
  }

  /**
   * If all calls have returned: every component is locked, off and empty, the sink has taken every word of the last session, and
   * the RRD loops have read exactly one block per session, each being what the sink could hold of it.
   */
  ghost predicate Drained(base: seq<Device>, rounds: nat, w: World)
    requires ResetChain(base)
  {
    w.todo == [] ==>
      && |w.devs| == |base|
      && (forall j :: 0 <= j < |base| ==> w.devs[j] == DownDev(base[j]) && w.devs[j].fifo == [] && !w.devs[j].open)
      && |w.sessions| == rounds + 1 && w.seen == w.sessions[rounds]
      && w.drained == Render(w.sessions, base[|base| - 1].kind.depth)
  }

  /** Nothing ever runs into a closed path: ports are open, TMCs capturing in the right mode, StopOnFl clear. */
  lemma {:induction false} NoClosedPath(base: seq<Device>, scratch: Word, turns: nat, es: seq<Event>)
    requires ResetChain(base)
    ensures PathOpen(Exec(Start(base, scratch, turns), es).devs)
  {
    hide Inv, Start, Device.Live, Device.Accepts;
    var cur, m := Runs(base, scratch, turns, es);
    var w := Exec(Start(base, scratch, turns), es);
    InvShape(w, cur, m);
    forall i, j | 0 <= i < j < |base| && w.devs[i].Live() ensures w.devs[j].Accepts() {
      LiveAhead(w, cur, m, i);
      AheadAccepts(w, cur, m, j);
    }
  }

  lemma InvShape(w: World, base: seq<Device>, m: Mark)
    requires Inv(w, base, m)
    ensures Placed(w, base, m) && |w.devs| == |base| && Flow(w) && w.devs != [] && MarkOk(Kinds(base), m)
        && (m.up <==> m.past % 2 == 0)
  {
    hide Ledger, Idle, Flow, Clean, Todo, Moving, IsUp;
  }

  lemma BaseShape(base: seq<Device>)
    requires ResetChain(base)
    ensures 2 <= |base| && base[|base| - 1].kind.Sink? && forall j :: 0 <= j < |base| ==> Off(base[j])
  {
  }

  lemma LiveAhead(w: World, base: seq<Device>, m: Mark, i: nat)
    requires Placed(w, base, m) && i < |base| && w.devs[i].Live()
    ensures m.i <= i
  {
    hide Up, Down, DownDev, IsUp, Moving;
    if i < m.i {
      KindsIn(base, i);
      OffAgain(base[i]);
    }
  }

  /**
   * At the moment software performs any register access, the component is in the state the access requires:
   * locks open, programmed only while off, started only when fully programmed, read only when stopped.
   */
  lemma {:induction false} ProperUse(base: seq<Device>, scratch: Word, turns: nat, es: seq<Event>)
    requires ResetChain(base)
    ensures HeadProper(Exec(Start(base, scratch, turns), es))
  {
    hide Inv, Start, Proper, Up, Down;
    var cur, m := Runs(base, scratch, turns, es);
    var w := Exec(Start(base, scratch, turns), es);
    if w.todo != [] { NextProper(w, cur, m); }
  }

  lemma NextProper(w: World, base: seq<Device>, m: Mark)
    requires Inv(w, base, m) && w.todo != []
    ensures w.todo[0].dev < |w.devs| && Proper(w.devs[w.todo[0].dev], w.todo[0].instr)
  {
    hide Placed, Ledger, Idle, Flow, Clean, Up, Down, Todo, Proper, Act, Moving;
    PlacedShape(w, base, m);
    var cur, m' := base, m;
    if m.pc == |Body(Kinds(base), m)| {
      TodoNext(Kinds(base), m);
      cur := HandOver(w, base, m);
      m' := NextCall(Kinds(base), m);
      BodyLong(Kinds(base)[m'.i], m'.first);
    }
    PlacedShape(w, cur, m');
    SwMoves(w, cur, m');
  }

  /** Words emitted in the current session are with the sink or on their way to it, in order; none is lost or repeated. */
  lemma {:induction false} NothingLost(base: seq<Device>, scratch: Word, turns: nat, es: seq<Event>)
    requires ResetChain(base)
    ensures var w := Exec(Start(base, scratch, turns), es);
            w.seen + InFlight(w.devs, 1) == Tail(w.sessions)
  {
    hide Inv, Start;
    var cur, m := Runs(base, scratch, turns, es);
    InvShape(Exec(Start(base, scratch, turns), es), cur, m);
  }

  /** While the trace unit runs, a word it emits joins the current session and the stream on its way to the sink. */
  lemma {:induction false} EmittedIsTaken(base: seq<Device>, scratch: Word, turns: nat, es: seq<Event>, x: Word)
    requires ResetChain(base) && x != ONES
    ensures var w := Exec(Start(base, scratch, turns), es);
            |w.devs| == |base| > 0 && (w.devs[0].Enabled() ==> Takes(w, HwStep(w, Emit(x)), x))
  {
    hide Inv, Start, HwStep, Takes;
    var cur, m := Runs(base, scratch, turns, es);
    var w := Exec(Start(base, scratch, turns), es);
    InvShape(w, cur, m);
    if w.devs[0].Enabled() { EmitTaken(w, cur, m, x); }
  }

  ghost predicate Takes(w: World, w': World, x: Word)
  {
    && w.sessions != [] && w'.sessions == Front(w.sessions) + [Tail(w.sessions) + [x]]
    && w'.seen + InFlight(w'.devs, 1) == w.seen + InFlight(w.devs, 1) + [x]
    && w'.drained == w.drained && w'.todo == w.todo
  }

  lemma EmitTaken(w: World, base: seq<Device>, m: Mark, x: Word)
    requires Inv(w, base, m) && w.devs != [] && w.devs[0].Enabled() && x != ONES
    ensures Takes(w, HwStep(w, Emit(x)), x)
  {
    hide Up, Down, Moving, IsUp, Flow, Clean, Idle, Account, Todo, InFlight, Deliver, ResetChain, MarkOk, Kinds;
    PlacedShape(w, base, m);
    TracingAtFirst(w, base, m);
    var k := AheadLands(w, base, m, 0, x);
    var sink := w.devs[|w.devs| - 1];
    AccountNonempty(sink.kind.depth, w.sessions, w.seen, w.drained, sink.fifo, m.up || m.i < |w.devs| - 1 || m.pc < 6);
  }

  lemma EndMark(w: World, base: seq<Device>, m: Mark)
    requires Inv(w, base, m) && w.todo == []
    ensures MarkOk(Kinds(base), m) && AtEnd(Kinds(base), m) && m.turns == 0
  {
    hide Placed, Ledger, Idle, Flow, Clean, Up, Down;
    PlacedShape(w, base, m);
    if m.pc < |Body(Kinds(base), m)| { TodoHead(Kinds(base), m); }
    else if !AtEnd(Kinds(base), m) {
      TodoNext(Kinds(base), m);
      var m' := NextCall(Kinds(base), m);
      BodyLong(Kinds(base)[m'.i], m'.first);
      TodoHead(Kinds(base), m');
    }
  }

  /** After enable and any number of pause/continue rounds everything is locked, every register as an enable call leaves it. */
  lemma {:induction false} RoundsRestore(base: seq<Device>, scratch: Word, rounds: nat, es: seq<Event>)
    requires ResetChain(base)
    ensures Restored(base, rounds, Exec(Start(base, scratch, 2 * rounds), es))
  {
    hide Inv, Start, UpDev, Placed, ResetChain, MarkOk, AtEnd, Exec, Flow;
    var cur, m := Runs(base, scratch, 2 * rounds, es);
    var w := Exec(Start(base, scratch, 2 * rounds), es);
    if w.todo == [] {
      EndMark(w, cur, m);
      InvShape(w, cur, m);
      EndUp(w, cur, m);
      assert m.past == 2 * rounds;
      RestoredIff(base, rounds);
    }
  }

  lemma RestoredIff(base: seq<Device>, rounds: nat)
    requires ResetChain(base)
    ensures forall j :: 0 <= j < |base| ==>
      var d := Current(base, 2 * rounds)[j];
      && d == (if rounds == 0 then base[j] else DownDev(base[j])) && KindOk(d.kind)
      && (UpDev(d) == UpDev(base[j]) <==> rounds == 0 || Restorable(base[j]))
  {
    hide UpDev, DownDev, Restorable;
    forall j | 0 <= j < |base|
      ensures KindOk(DownDev(base[j]).kind) && (UpDev(DownDev(base[j])) == UpDev(base[j]) <==> Restorable(base[j]))
    {
      KindsIn(base, j);
      UpAgain(base[j]);
    }
  }

  /** All pauses leave the chain as the first one did. */
  lemma DrainedAs(base: seq<Device>, past: nat)
    requires ResetChain(base)
    ensures ResetChain(Current(base, past))
    ensures forall j :: 0 <= j < |base| ==> DownDev(Current(base, past)[j]) == DownDev(base[j])
    ensures forall j :: 0 <= j < |base| ==> Current(base, past)[j].kind == base[j].kind
  {
    hide DownDev, Off;
    DownsReset(base);
    forall j | 0 <= j < |base| ensures DownDev(Current(base, past)[j]) == DownDev(base[j]) {
      KindsIn(base, j);
      assert past > 1 ==> Downs(Downs(base))[j] == Downs(base)[j];
    }
  }

  lemma EndUp(w: World, base: seq<Device>, m: Mark)
    requires Inv(w, base, m) && AtEnd(Kinds(base), m) && m.up
    ensures |w.sessions| == m.past / 2 + 1
    ensures forall j :: 0 <= j < |base| ==> w.devs[j].(fifo := []) == UpDev(base[j]) && !w.devs[j].open
  {
    hide Up, Down, Moving, Account, Idle, Flow, Clean, Todo;
    SinkAtReturn(w, base, m);
    forall j | 0 <= j < |base| ensures w.devs[j].(fifo := []) == UpDev(base[j]) {
      KindsIn(base, j);
      if j == 0 { RiseEnds(w.devs[0], base[0], w.scratch, m); }
    }
  }

  /** When a pause (or the final disable) has returned everything is drained. */
  lemma {:induction false} DrainComplete(base: seq<Device>, scratch: Word, rounds: nat, es: seq<Event>)
    requires ResetChain(base)
    ensures Drained(base, rounds, Exec(Start(base, scratch, 2 * rounds + 1), es))
  {
    hide Inv, Start, DownDev, Render, Placed, ResetChain, MarkOk, AtEnd, Exec, Flow;
    assert base != [] by { BaseShape(base); }
    var cur, m := Runs(base, scratch, 2 * rounds + 1, es);
    var w := Exec(Start(base, scratch, 2 * rounds + 1), es);
    if w.todo == [] {
      EndMark(w, cur, m);
      InvShape(w, cur, m);
      EndDown(w, cur, m);
      assert m.past == 2 * rounds + 1;
      DrainedAs(base, m.past);
    }
  }

  lemma EndDown(w: World, base: seq<Device>, m: Mark)
    requires Inv(w, base, m) && AtEnd(Kinds(base), m) && !m.up
    ensures forall j :: 0 <= j < |base| ==> w.devs[j] == DownDev(base[j]) && w.devs[j].fifo == [] && !w.devs[j].open
    ensures |w.sessions| == (m.past + 1) / 2 && w.seen == Tail(w.sessions)
    ensures w.drained == Render(w.sessions, base[|base| - 1].kind.depth)
  {
    hide Up, Down, Moving, IsUp, Render, Last, Idle, Clean, DownDev;
    var n := |base| - 1;
    forall j | 0 <= j < |base| ensures w.devs[j] == DownDev(base[j]) && w.devs[j].fifo == [] && !w.devs[j].open
        && w.devs[j].kind == base[j].kind {
      KindsIn(base, j);
      OffAgain(base[j]);
      if j == n { FallEnds(w.devs[n], base[n], w.scratch, m); }
    }
    SinkAtReturn(w, base, m);
    SinkFirst(w, base, m);
    assert w.seen + [] == w.seen;
  }
}
