/**
 * The two boards over whole histories: what the driver's calls, in the order connect.c and the interrupt handler make them,
 * leave in the trace buffer.
 */
module Histories {
  import opened Words
  import opened Devices
  import opened Programs
  import opened Chain
  import opened LocalRuns
  import opened Sessions
  import opened Guarantees
  import opened Configurations
  import opened Framing
  import opened Boards
  import opened TraceBuffers
  import Twins

  ghost predicate WordsClean(sessions: seq<seq<Word>>)
  {
    forall k :: 0 <= k < |sessions| ==> ONES !in sessions[k]
  }

  lemma StepClean(w: World, e: Event)
    requires WordsClean(w.sessions)
    ensures WordsClean(Step(w, e).sessions)
  {
    hide Act, Blocked, Deliver, Device.Rrd, Device.Popped, Device.FlushDone, Device.StopDone;
    if e.Hardware? && e.h.Emit? && w.sessions != [] {
      var n := |w.sessions| - 1;
      assert forall k :: 0 <= k < n ==> Record(w.sessions, e.h.x)[k] == w.sessions[k];
    }
  }

  /** No word the trace unit emits is all ones, so none recorded is. */
  lemma {:induction false} SessionsClean(w: World, es: seq<Event>)
    requires WordsClean(w.sessions)
    ensures WordsClean(Exec(w, es).sessions)
  {
    hide Step, WordsClean;
    if es != [] {
      SessionsClean(w, es[..|es| - 1]);
      StepClean(Exec(w, es[..|es| - 1]), es[|es| - 1]);
    }
  }

  /**
   * If all calls have returned, splitting the drained stream at its terminators gives one block per session, namely the last words
   * of the session that fit the sink; so all words, if no session outgrew the sink.
   */
  ghost predicate Decodes(w: World, depth: nat)
  {
    w.todo == [] ==>
      && Parse(w.drained) == (Blocks(w.sessions, depth), [])
      && ((forall k :: 0 <= k < |w.sessions| ==> |w.sessions[k]| <= depth) ==> Parse(w.drained) == (w.sessions, []))
  }

  /** After enable and any number of pause/continue rounds that end in a pause, on any chain and under any interleaving. */
  lemma {:induction false} DrainedDecodes(base: seq<Device>, scratch: Word, rounds: nat, es: seq<Event>)
    requires ResetChain(base)
    ensures Decodes(Exec(Start(base, scratch, 2 * rounds + 1), es), base[|base| - 1].kind.depth)
  {
    hide Exec, Render, Parse, Turns, DownDev;
    DrainComplete(base, scratch, rounds, es);
    SessionsClean(Start(base, scratch, 2 * rounds + 1), es);
    var w := Exec(Start(base, scratch, 2 * rounds + 1), es);
    var depth := base[|base| - 1].kind.depth;
    ParseRender(w.sessions, depth);
    if forall k :: 0 <= k < |w.sessions| ==> |w.sessions[k]| <= depth {
      assert Blocks(w.sessions, depth) == w.sessions;
    }
  }

  /** The next whole-chain call extends a history by one turn. */
  lemma {:induction false} MoreNext(ks: seq<Kind>, up: bool, turns: nat)
    requires forall k :: k in ks ==> KindOk(k)
    ensures More(ks, up, turns + 1) ==
            More(ks, up, turns) + (if up == (turns % 2 == 0) then DownFrom(ks, 0) else UpFrom(ks, |ks|, false))
    decreases turns
  {
    hide UpFrom, DownFrom;
    var half := if !up then UpFrom(ks, |ks|, false) else DownFrom(ks, 0);
    assert More(ks, up, turns + 1) == half + More(ks, !up, turns);
    if turns == 0 {
      assert More(ks, !up, 0) == [];
      assert half + [] == half && [] + half == half;
    } else {
      MoreNext(ks, !up, turns - 1);
      assert More(ks, up, turns) == half + More(ks, !up, turns - 1);
    }
  }

  lemma TurnsNext(ks: seq<Kind>, turns: nat)
    requires forall k :: k in ks ==> KindOk(k)
    ensures Turns(ks, true, true, turns + 1) ==
            Turns(ks, true, true, turns) + (if turns % 2 == 0 then DownFrom(ks, 0) else UpFrom(ks, |ks|, false))
  {
    hide UpFrom, DownFrom, More;
    MoreNext(ks, true, turns);
  }

  /** Handling one interrupt after 2 * rounds turns completes 2 * rounds + 2 of them. */
  lemma HandlerTurns(rounds: nat)
    ensures Turns(JunoKinds(), true, true, 2 * rounds) + DownFrom(JunoKinds(), 0) + UpFrom(JunoKinds(), 4, false)
         == Turns(JunoKinds(), true, true, 2 * rounds + 2)
  {
    hide Turns, UpFrom, DownFrom;
    TurnsNext(JunoKinds(), 2 * rounds);
    TurnsNext(JunoKinds(), 2 * rounds + 1);
  }

  lemma TurnsJuno(base: seq<Device>, turns: nat)
    requires ResetChain(base) && IsJuno(base)
    ensures Turns(Kinds(base), true, true, turns) == Turns(JunoKinds(), true, true, turns)
  {
    hide Turns;
    forall j | 0 <= j < 4 ensures KindOk(Kinds(base)[j]) && KindOk(JunoKinds()[j])
        && Twins.AlikeKinds(Kinds(base)[j], JunoKinds()[j]) {
      KindsIn(base, j);
    }
    Twins.SameTurns(Kinds(base), JunoKinds(), turns);
  }

  /**
   * At every moment of the board's log the next access is proper, nothing can run into a closed path, and whatever works is
   * programmed with the values it should have.
   */
  ghost predicate SafeThroughout(b: Board)
    reads b
  {
    forall k :: 0 <= k <= |b.log| ==>
      var w := Exec(b.init.(todo := b.done), b.log[..k]); HeadProper(w) && PathOpen(w.devs) && Configured(w.devs)
  }

  lemma LogSafe(b: Board, scratch: Word, turns: nat)
    requires ResetChain(b.init.devs) && b.init.(todo := b.done) == Start(b.init.devs, scratch, turns)
    ensures SafeThroughout(b)
  {
    hide Exec, HeadProper, PathOpen, Configured, ResetChain, Start;
    forall k | 0 <= k <= |b.log|
      ensures var w := Exec(b.init.(todo := b.done), b.log[..k]); HeadProper(w) && PathOpen(w.devs) && Configured(w.devs)
    {
      ProperUse(b.init.devs, scratch, turns, b.log[..k]);
      NoClosedPath(b.init.devs, scratch, turns, b.log[..k]);
      AlwaysConfigured(b.init.devs, scratch, turns, b.log[..k]);
    }
  }

  /**
   * A Juno board that has performed enable, any number of interrupt rounds and a last pause: everything is locked, off and
   * empty, every access was proper, and what was drained decodes to its sessions.
   */
  lemma {:induction false} JunoPaused(b: Board, scratch: Word, rounds: nat)
    requires b.Valid() && ResetChain(b.init.devs) && IsJuno(b.init.devs) && b.init == World(b.init.devs, scratch, [], [], [], [])
    requires b.done == Turns(JunoKinds(), true, true, 2 * rounds + 1)
    ensures |b.w.sessions| == rounds + 1 && Parse(b.w.drained) == (Blocks(b.w.sessions, 0x4000), [])
    ensures |b.w.devs| == 4
    ensures forall j :: 0 <= j < 4 ==> b.w.devs[j] == DownDev(b.init.devs[j]) && b.w.devs[j].fifo == [] && !b.w.devs[j].open
    ensures SafeThroughout(b)
  {
    hide Turns, Exec, Render, Parse, DownDev, ResetChain, Busy, SafeThroughout;
    var base := b.init.devs;
    TurnsJuno(base, 2 * rounds + 1);
    assert b.done + [] == b.done;
    assert b.init.(todo := b.done) == Start(base, scratch, 2 * rounds + 1);
    assert b.w.(todo := []) == b.w;
    DrainComplete(base, scratch, rounds, b.log);
    DrainedDecodes(base, scratch, rounds, b.log);
    LogSafe(b, scratch, 2 * rounds + 1);
  }

  /**
   * A Juno board between interrupts: tracing, everything locked, and every register as the first enable call left it, unless the
   * component is a funnel that obeyed a disable and had upper FUNCTL bits set at reset.
   */
  lemma {:induction false} JunoTracing(b: Board, scratch: Word, rounds: nat)
    requires b.Valid() && ResetChain(b.init.devs) && IsJuno(b.init.devs) && b.init == World(b.init.devs, scratch, [], [], [], [])
    requires b.done == Turns(JunoKinds(), true, true, 2 * rounds)
    ensures |b.w.devs| == 4 && forall j :: 0 <= j < 4 ==> !b.w.devs[j].open
    ensures forall j :: 0 <= j < 4 ==>
      (b.w.devs[j].(fifo := []) == UpDev(b.init.devs[j]) <==> rounds == 0 || Restorable(b.init.devs[j]))
  {
    hide Turns, Exec, UpDev, DownDev, Restorable, ResetChain, Busy;
    var base := b.init.devs;
    TurnsJuno(base, 2 * rounds);
    assert b.done + [] == b.done;
    assert b.init.(todo := b.done) == Start(base, scratch, 2 * rounds);
    assert b.w.(todo := []) == b.w;
    RoundsRestore(base, scratch, rounds, b.log);
  }

  lemma TurnsHikey(base: seq<Device>, turns: nat)
    requires ResetChain(base) && IsHikey(base)
    ensures Turns(Kinds(base), true, true, turns) == Turns(HikeyKinds(), true, true, turns)
  {
    hide Turns;
    forall j | 0 <= j < 6 ensures KindOk(Kinds(base)[j]) && KindOk(HikeyKinds()[j])
        && Twins.AlikeKinds(Kinds(base)[j], HikeyKinds()[j]) {
      KindsIn(base, j);
    }
    Twins.SameTurns(Kinds(base), HikeyKinds(), turns);
  }

  /**
   * A HiKey board after enable and disable: every word the trace unit emitted has been taken by the ETR, in order, and both
   * link FIFOs are empty.
   */
  lemma {:induction false} HikeyDisabled(b: Board, scratch: Word)
    requires b.Valid() && ResetChain(b.init.devs) && IsHikey(b.init.devs) && b.init == World(b.init.devs, scratch, [], [], [], [])
    requires b.done == UpFrom(HikeyKinds(), 6, true) + DownFrom(HikeyKinds(), 0)
    ensures |b.w.sessions| == 1 && b.w.seen == b.w.sessions[0]
    ensures |b.w.devs| == 6 && forall j :: 0 <= j < 6 ==> b.w.devs[j].fifo == [] && !b.w.devs[j].open
    ensures SafeThroughout(b)
  {
    hide Turns, Exec, Render, DownDev, ResetChain, Busy, UpFrom, DownFrom, UpDev, SafeThroughout;
    var base := b.init.devs;
    OnceUpAndDown(HikeyKinds());
    TurnsHikey(base, 1);
    assert b.done + [] == b.done;
    assert b.init.(todo := b.done) == Start(base, scratch, 1);
    assert b.w.(todo := []) == b.w;
    DrainComplete(base, scratch, 0, b.log);
    LogSafe(b, scratch, 1);
  }

  lemma OnceUpAndDown(ks: seq<Kind>)
    requires forall k :: k in ks ==> KindOk(k)
    ensures Turns(ks, true, true, 1) == UpFrom(ks, |ks|, true) + DownFrom(ks, 0)
  {
    hide UpFrom, DownFrom;
    assert More(ks, false, 0) == [];
    assert More(ks, true, 1) == DownFrom(ks, 0) + [];
  }

  // ---- The module's life ----

  /**
   * Module load, any number of interrupts and module unload on a Juno board, with a read of the trace buffer attempted after
   * every interrupt (`faults(i)` tells which of its copies fault). What the successful reads returned, followed by what is
   * left in the buffer, splits at the terminators into one block per session.
   */
  method JunoModule(devs: seq<Device>, scratch: Word, interrupts: nat, faults: nat -> nat -> bool)
    returns (b: Board, got: seq<Word>)
    requires ResetChain(devs) && IsJuno(devs)
    ensures fresh(b) && b.Valid() && b.buffer.Valid() && b.init.devs == devs
    ensures |b.w.sessions| == interrupts + 1
    ensures Parse(got + b.buffer.Contents()) == (Blocks(b.w.sessions, 0x4000), [])
    ensures |b.w.devs| == 4
    ensures forall j :: 0 <= j < 4 ==> b.w.devs[j] == DownDev(devs[j]) && b.w.devs[j].fifo == [] && !b.w.devs[j].open
    ensures SafeThroughout(b)
  {
    hide Turns, Parse, Blocks, DownDev, SafeThroughout, Performs, Content, UpFrom, DownFrom, Or;
    b := new Board(devs, scratch);
    SinkOff(devs);
    b.EnableJunor2Trace();
    StartsWithEnable();
    got := [];
    var i := 0;
    while i < interrupts
      invariant i <= interrupts && fresh(b) && fresh(b.buffer) && b.Valid() && IsJuno(b.w.devs)
      invariant b.buffer.Valid() && !b.buffer.locked
      invariant b.init == World(devs, scratch, [], [], [], [])
      invariant b.done == Turns(JunoKinds(), true, true, 2 * i)
      invariant got + b.buffer.Contents() == b.w.drained
    {
      ghost var drained, contents := b.w.drained, b.buffer.Contents();
      b.PmuIrqHandler();
      HandlerTurns(i);
      Extends(got, contents, drained, b.w.drained, b.buffer.Contents());
      var r, copied := b.buffer.CsRead(faults(i));
      if r.Bytes? { got := got + copied; }
      i := i + 1;
    }
    ghost var drained, contents := b.w.drained, b.buffer.Contents();
    b.DisableJunor2Trace();
    Extends(got, contents, drained, b.w.drained, b.buffer.Contents());
    TurnsNext(JunoKinds(), 2 * interrupts);
    JunoPaused(b, scratch, interrupts);
  }

  lemma Extends(got: seq<Word>, contents: seq<Word>, drained: seq<Word>, drained': seq<Word>, contents': seq<Word>)
    requires got + contents == drained && |drained| <= |drained'| && drained'[..|drained|] == drained
    requires contents' == contents + drained'[|drained|..]
    ensures got + contents' == drained'
  {
    assert got + (contents + drained'[|drained|..]) == drained + drained'[|drained|..];
  }

  lemma SinkOff(devs: seq<Device>)
    requires ResetChain(devs)
    ensures forall j :: 0 <= j < |devs| ==> devs[j].phase.Disabled?
  {
  }

  lemma StartsWithEnable()
    ensures [] + UpFrom(JunoKinds(), 4, true) == Turns(JunoKinds(), true, true, 0)
  {
    hide UpFrom;
    assert More(JunoKinds(), true, 0) == [];
  }

  /** Module load and unload on a HiKey board. */
  method HikeyModule(devs: seq<Device>, scratch: Word) returns (b: Board)
    requires ResetChain(devs) && IsHikey(devs)
    ensures fresh(b) && b.Valid() && b.init.devs == devs
    ensures |b.w.sessions| == 1 && b.w.seen == b.w.sessions[0]
    ensures |b.w.devs| == 6 && forall j :: 0 <= j < 6 ==> b.w.devs[j].fifo == [] && !b.w.devs[j].open
    ensures SafeThroughout(b)
  {
    hide Turns, SafeThroughout, Performs, UpFrom, DownFrom;
    b := new Board(devs, scratch);
    SinkOff(devs);
    b.EnableHikey970Trace();
    b.DisableHikey970Trace();
    assert [] + UpFrom(HikeyKinds(), 6, true) == UpFrom(HikeyKinds(), 6, true);
    HikeyDisabled(b, scratch);
  }
}
