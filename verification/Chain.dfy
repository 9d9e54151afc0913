/**
 * A chain of components, source first and sink last, driven by a register program while the hardware
 * moves words, completes flushes and stops on its own. Every event is one atomic step.
 */
module Chain {
  import opened Words
  import opened Devices
  import opened Programs

  /**
   * `sessions` holds, per capture session of the sink, the words the trace unit emitted in it; `seen` the words the sink
   * took in the current session; `drained` every value the RRD loops have read so far, terminators included.
   */
  datatype World =
    World(devs: seq<Device>, scratch: Word, todo: seq<Cmd>, sessions: seq<seq<Word>>, seen: seq<Word>, drained: seq<Word>)

  datatype Hw =
    | Emit(x: Word)
    | Drain(j: nat)
    | FlushDone(j: nat)
    | StopDone(j: nat)

  datatype Event = Sw | Hardware(h: Hw)

  /** A component and the C local variable used for read-modify-write. */
  datatype Local = Local(d: Device, scratch: Word)

  function Masked(val: Word, keep: Word, bits: Word): Word { (val & keep) | bits }

  predicate Blocked(d: Device, i: Instr)
  {
    (i.AwaitFlush? && d.Flushing()) || (i.AwaitReady? && !d.Ready())
  }

  function Act(l: Local, i: Instr): Local
  {
    match i
    case Put(r, v) => Local(l.d.Write(r, v), l.scratch)
    case Load(r) => Local(l.d, l.d.Reg(r))
    case Mask(r, keep, bits) => var v := Masked(l.scratch, keep, bits); Local(l.d.Write(r, v), v)
    case _ => l
  }

  lemma ActKind(l: Local, i: Instr)
    ensures Act(l, i).d.kind == l.d.kind
  {
  }

  /** A failed poll leaves everything as it is; the RRD loop ends with the first all-ones word. */
  function SwStep(w: World): World
  {
    if w.todo == [] then w
    else
      var Cmd(i, instr) := w.todo[0];
      if i >= |w.devs| then w.(todo := w.todo[1..])
      else
        var d := w.devs[i];
        if instr.Dump? then
          w.(devs := w.devs[i := d.Popped()], drained := w.drained + [d.Rrd()],
             todo := if d.Rrd() == ONES then w.todo[1..] else w.todo)
        else if Blocked(d, instr) then w
        else
          var l := Act(Local(d, w.scratch), instr);
          var w' := w.(devs := w.devs[i := l.d], scratch := l.scratch, todo := w.todo[1..]);
          if i == |w.devs| - 1 && d.phase.Disabled? && l.d.phase.Running?
          then w'.(sessions := w.sessions + [[]], seen := [])
          else w'
  }

  /** A word sent into component j: open funnels pass it on, a running TMC takes it, anything else loses it. */
  function Deliver(devs: seq<Device>, seen: seq<Word>, j: nat, x: Word): (r: (seq<Device>, seq<Word>))
    ensures |r.0| == |devs|
    decreases |devs| - j
  {
    if j >= |devs| then (devs, seen)
    else if devs[j].kind.Funnel? && devs[j].PortOpen() then Deliver(devs, seen, j + 1, x)
    else if devs[j].IsTmc() && devs[j].phase.Running? then
      (devs[j := devs[j].Push(x)], if j == |devs| - 1 then seen + [x] else seen)
    else (devs, seen)
  }

  /** A hardware step that is not possible in `w` does nothing. */
  function HwStep(w: World, h: Hw): World
  {
    match h
    case Emit(x) =>
      if 0 < |w.devs| && w.devs[0].Enabled() && x != ONES then
        var (ds, seen) := Deliver(w.devs, w.seen, 1, x);
        w.(devs := ds, seen := seen, sessions := Record(w.sessions, x))
      else w
    case Drain(j) =>
      if j < |w.devs| && w.devs[j].kind.Link? && w.devs[j].phase.Running? && w.devs[j].fifo != [] then
        var x := w.devs[j].fifo[0];
        var (ds, seen) := Deliver(w.devs[j := w.devs[j].(fifo := w.devs[j].fifo[1..])], w.seen, j + 1, x);
        w.(devs := ds, seen := seen)
      else w
    case FlushDone(j) => if j < |w.devs| then w.(devs := w.devs[j := w.devs[j].FlushDone()]) else w
    case StopDone(j) => if j < |w.devs| then w.(devs := w.devs[j := w.devs[j].StopDone()]) else w
  }

  function Record(sessions: seq<seq<Word>>, x: Word): seq<seq<Word>>
  {
    if sessions == [] then [] else sessions[..|sessions| - 1] + [sessions[|sessions| - 1] + [x]]
  }

  function Step(w: World, e: Event): World
  {
    match e
    case Sw => SwStep(w)
    case Hardware(h) => HwStep(w, h)
  }

  /** The state after the events `es`; every prefix of a run is a run. */
  function Exec(w: World, es: seq<Event>): World
  {
    if es == [] then w else Step(Exec(w, es[..|es| - 1]), es[|es| - 1])
  }

  /** Words on their way between the trace unit and the sink, oldest first, from link FIFOs at or after j. */
  function InFlight(devs: seq<Device>, j: nat): seq<Word>
    decreases |devs| - j
  {
    if j + 1 >= |devs| then [] else InFlight(devs, j + 1) + devs[j].fifo
  }

  lemma InFlightSame(a: seq<Device>, b: seq<Device>, j: nat)
    requires |a| == |b| && forall k :: j <= k < |a| - 1 ==> a[k].fifo == b[k].fifo
    ensures InFlight(a, j) == InFlight(b, j)
    decreases |a| - j
  {
    if j + 1 < |a| { InFlightSame(a, b, j + 1); }
  }

  lemma AcceptsTakes(d: Device)
    requires d.Accepts()
    ensures d.kind.Funnel? || d.IsTmc()
    ensures d.kind.Funnel? ==> d.PortOpen()
    ensures d.IsTmc() ==> d.phase.Running?
  {
  }

  /**
   * When everything from component j on accepts words, a word sent into j is taken by exactly one TMC k >= j,
   * and joins the tail of the stream formed by the sink's history and the FIFOs from j on.
   */
  lemma {:induction false} DeliverLands(devs: seq<Device>, seen: seq<Word>, j: nat, x: Word) returns (k: nat)
    requires 0 < j < |devs|
    requires forall i :: j <= i < |devs| ==> devs[i].Accepts() && (devs[i].kind.Funnel? ==> devs[i].fifo == [])
    requires devs[|devs| - 1].kind.Sink? && forall i :: j <= i < |devs| - 1 ==> !devs[i].kind.Sink?
    ensures j <= k < |devs| && devs[k].IsTmc()
    ensures forall i :: j <= i < k ==> devs[i].kind.Funnel?
    ensures Deliver(devs, seen, j, x).0 == devs[k := devs[k].Push(x)]
    ensures Deliver(devs, seen, j, x).1 == if k == |devs| - 1 then seen + [x] else seen
    ensures Deliver(devs, seen, j, x).1 + InFlight(Deliver(devs, seen, j, x).0, j) == seen + InFlight(devs, j) + [x]
    decreases |devs| - j
  {
    hide Device.Accepts, Device.PortOpen;
    AcceptsTakes(devs[j]);
    if devs[j].kind.Funnel? {
      k := DeliverLands(devs, seen, j + 1, x);
      var r := Deliver(devs, seen, j, x);
      assert r.0[j] == devs[j];
      assert InFlight(r.0, j) == InFlight(r.0, j + 1);
    } else {
      k := j;
      var r := Deliver(devs, seen, j, x);
      if j < |devs| - 1 {
        InFlightSame(devs, r.0, j + 1);
        assert InFlight(r.0, j) == InFlight(r.0, j + 1) + (devs[j].fifo + [x]);
      }
    }
  }
}
