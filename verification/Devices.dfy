/**
 * The CoreSight components as register files.
 *
 * `Device.Write` is the effect of one iowrite32 on one component: the software lock, the OS lock of the
 * trace unit, and the side effects of CTL and FFCR in the trace memory controller (TMC). Register and
 * state meanings follow ARM DDI 0461 (TMC), ARM IHI 0029 (LAR/LSR) and ARM IHI 0064 (ETMv4).
 */
module Devices {
  import opened Words

  // Every component
  const CORESIGHT_LAR := 0xFB0
  const UNLOCK_KEY: Word := 0xC5AC_CE55

  // Trace unit
  const TRCPRGCTLR := 0x004
  const TRCCONFIGR := 0x010
  const TRCSTALLCTLR := 0x02C
  const TRCTSCTLR := 0x030
  const TRCSYNCPR := 0x034
  const TRCBBCTLR := 0x03C
  const TRCTRACEIDR := 0x040
  const TRCVICTLR := 0x080
  const TRCVIIECTLR := 0x084
  const TRCVISSCTLR := 0x088
  const TRCOSLAR := 0x300

  // Funnel
  const FUNCTL := 0x000
  const PRICTL := 0x004

  // TMC
  const TMC_RSZ := 0x004
  const TMC_TRG := 0x01C
  const TMC_CTL := 0x020
  const TMC_MODE := 0x028
  const TMC_BUFWM := 0x034
  const TMC_AXICTL := 0x110
  const TMC_DBAHI := 0x11C
  const TMC_FFCR := 0x304

  const FFCR_FLUSHMAN: Word := 0x40
  const FFCR_STOP_ON_FLUSH: Word := 0x1000
  const MODE_CIRCULAR_BUFFER: Word := 0
  const MODE_HARDWARE_FIFO: Word := 2

  /**
   * `gated` tells how a funnel reacts to a write while its software lock is closed: the write is
   * ignored (true) or taken (false). `depth` is the sink's trace memory in words; `ram` marks an ETR.
   */
  datatype Kind =
    | Etm
    | Funnel(port: nat, gated: bool)
    | Link
    | Sink(ram: bool, depth: nat)

  /** TMC states; TMCReady is set in Disabled and in Stopped. */
  datatype Phase = Disabled | Running | Stopping | Stopped

  datatype Device = Device(kind: Kind, open: bool, osLocked: bool, regs: map<int, Word>, phase: Phase, fifo: seq<Word>)
  {
    function Reg(r: int): Word { if r in regs then regs[r] else 0 }

    predicate IsTmc() { kind.Link? || kind.Sink? }

    /** The trace unit generates trace: TRCPRGCTLR.EN is set. The OS lock only gates register access. */
    predicate Enabled() { Reg(TRCPRGCTLR) & 1 == 1 }

    /** The funnel passes its configured port on. */
    predicate PortOpen() { kind.Funnel? && kind.port < 32 && Reg(FUNCTL) & ((1 as Word) << kind.port) != 0 }

    predicate Flushing() { Reg(TMC_FFCR) & FFCR_FLUSHMAN != 0 }

    predicate Ready() { phase.Disabled? || phase.Stopped? }

    /** The component takes every word sent to it and is not about to stop doing so. */
    predicate Accepts()
    {
      match kind
      case Etm => false
      case Funnel(_, _) => PortOpen()
      case Link =>
        && Reg(TMC_CTL) == 1 && phase.Running? && Reg(TMC_MODE) == MODE_HARDWARE_FIFO
        && Reg(TMC_FFCR) & FFCR_STOP_ON_FLUSH == 0
      case Sink(_, _) =>
        && Reg(TMC_CTL) == 1 && phase.Running? && Reg(TMC_MODE) == MODE_CIRCULAR_BUFFER
        && Reg(TMC_FFCR) & FFCR_STOP_ON_FLUSH == 0
    }

    /** The component may still send words downstream. */
    predicate Live()
    {
      match kind
      case Etm => Enabled()
      case Link => fifo != []
      case _ => false
    }

    /** Whether a write to register `r` (other than LAR) takes effect. */
    predicate Writable(r: int)
    {
      match kind
      case Etm => open && (r == TRCOSLAR || !osLocked)
      case Funnel(_, gated) => open || !gated
      case _ => open
    }

    /** One iowrite32. */
    function Write(r: int, v: Word): Device
    {
      if r == CORESIGHT_LAR then this.(open := v == UNLOCK_KEY)
      else if !Writable(r) then this
      else if kind.Etm? && r == TRCOSLAR then this.(osLocked := v & 1 == 1)
      else if IsTmc() && r == TMC_CTL then
        if v & 1 == 0 then this.(regs := regs[r := v], phase := Disabled, fifo := [])
        else if phase.Disabled? then this.(regs := regs[r := v], phase := Running, fifo := [])
        else this.(regs := regs[r := v])
      else if IsTmc() && r == TMC_FFCR then
        // a manual flush can only be requested from a running TMC
        this.(regs := regs[r := if phase.Running? then v else v & !FFCR_FLUSHMAN])
      else this.(regs := regs[r := v])
    }

    /** A word arriving at a running TMC: a link queues it, a sink overwrites its oldest word when full. */
    function Push(x: Word): (d: Device)
      ensures d.kind == kind && d.phase == phase && d.regs == regs && d.open == open
    {
      if kind.Sink? then this.(fifo := Last(fifo + [x], kind.depth)) else this.(fifo := fifo + [x])
    }

    /** What a read of RRD returns. */
    function Rrd(): Word { if phase.Stopped? && fifo != [] then fifo[0] else ONES }

    /** The component after a read of RRD. */
    function Popped(): Device { if phase.Stopped? && fifo != [] then this.(fifo := fifo[1..]) else this }

    /** The flush completes: a link has by then pushed its whole FIFO downstream. */
    function FlushDone(): Device
    {
      if IsTmc() && phase.Running? && Flushing() && (kind.Link? ==> fifo == []) then
        this.(regs := regs[TMC_FFCR := Reg(TMC_FFCR) & !FFCR_FLUSHMAN],
              phase := if Reg(TMC_FFCR) & FFCR_STOP_ON_FLUSH != 0 then Stopping else Running)
      else this
    }

    /** The pipeline of a stopping TMC has emptied and TMCReady rises. */
    function StopDone(): Device { if IsTmc() && phase.Stopping? then this.(phase := Stopped) else this }
  }
}
