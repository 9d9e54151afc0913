/**
 * The driver functions as register programs: one instruction per register access, in source order.
 * A polling loop is one blocking instruction, the RRD loop one repeated instruction.
 */
module Programs {
  import opened Words
  import opened Devices

  /**
   * `Load` and `Mask` are the two halves of a read-modify-write through a C local variable:
   * Load copies the register into it, Mask sets it to (local & keep) | bits and writes it back.
   */
  datatype Instr =
    | Put(reg: int, val: Word)
    | Load(reg: int)
    | Mask(reg: int, keep: Word, bits: Word)
    | AwaitFlush
    | AwaitReady
    | Dump

  const OPEN: Instr := Put(CORESIGHT_LAR, UNLOCK_KEY)
  const CLOSE: Instr := Put(CORESIGHT_LAR, 0)
  const PRIORITY: Word := 0xFAC688
  const TRIGGER: Word := 0x100
  const SINK_FFCR: Word := 0x133
  const LINK_FFCR: Word := 0x3
  const FUNCTL_KEEP: Word := 0xFFFF_F000

  function FunctlBits(port: nat): Word
    requires port < 32
  {
    0x700 | ((1 as Word) << port)
  }

  function EtfSinkUp(trigger: Word): seq<Instr>
  {
    [OPEN, AwaitReady, Put(TMC_MODE, MODE_CIRCULAR_BUFFER), Put(TMC_FFCR, SINK_FFCR), Put(TMC_TRG, trigger),
     Put(TMC_CTL, 1), CLOSE]
  }

  function EtrSinkUp(size: Word, trigger: Word): seq<Instr>
  {
    [OPEN, AwaitReady, Put(TMC_RSZ, size), Put(TMC_MODE, MODE_CIRCULAR_BUFFER), Load(TMC_AXICTL),
     Mask(TMC_AXICTL, 0xFFFF_FF7C, 0xF02), Put(TMC_DBAHI, 0), Put(TMC_FFCR, SINK_FFCR), Put(TMC_TRG, trigger),
     Put(TMC_CTL, 1), CLOSE]
  }

  function LinkUp(): seq<Instr>
  {
    [OPEN, AwaitReady, Put(TMC_MODE, MODE_HARDWARE_FIFO), Put(TMC_FFCR, LINK_FFCR), Put(TMC_BUFWM, 0), Put(TMC_CTL, 1), CLOSE]
  }

  function FlushAndStop(): seq<Instr>
  {
    [Load(TMC_FFCR), Mask(TMC_FFCR, ONES, FFCR_STOP_ON_FLUSH), Mask(TMC_FFCR, ONES, FFCR_FLUSHMAN), AwaitFlush, AwaitReady]
  }

  function LinkDown(): seq<Instr> { [OPEN] + FlushAndStop() + [Put(TMC_CTL, 0), CLOSE] }

  function SinkDown(): seq<Instr> { [OPEN] + FlushAndStop() + [Dump, Put(TMC_CTL, 0), CLOSE] }

  function FunnelUp(port: nat, priority: Word): seq<Instr>
    requires port < 32
  {
    [OPEN, Load(FUNCTL), Mask(FUNCTL, FUNCTL_KEEP, FunctlBits(port)), Put(PRICTL, priority), CLOSE]
  }

  function FunnelDown(): seq<Instr> { [Put(FUNCTL, 0x300), Put(PRICTL, PRIORITY)] }

  function EtmProgram(): seq<Instr>
  {
    [OPEN, Put(TRCOSLAR, 0), Put(TRCPRGCTLR, 0),
     Put(TRCCONFIGR, 0x49), Put(TRCSTALLCTLR, 0), Put(TRCSYNCPR, 0xC), Put(TRCTRACEIDR, 0x6), Put(TRCTSCTLR, 0),
     Put(TRCVICTLR, 0x6F0201), Put(TRCVIIECTLR, 0), Put(TRCVISSCTLR, 0), Put(TRCBBCTLR, 0),
     Put(TRCPRGCTLR, 1), Put(TRCOSLAR, 1), CLOSE]
  }

  /** etm_disable (en = 0) and etm_continue (en = 1). */
  function EtmSwitch(en: Word): seq<Instr>
  {
    [OPEN, Put(TRCOSLAR, 0), Put(TRCPRGCTLR, en), Put(TRCOSLAR, 1), CLOSE]
  }

  predicate KindOk(k: Kind) { (k.Funnel? ==> k.port < 8) && (k.Sink? ==> 0 < k.depth) }

  /** The call that brings one component up; `first` distinguishes the enable call from a continue call. */
  function Up(k: Kind, first: bool): seq<Instr>
    requires KindOk(k)
  {
    match k
    case Etm => if first then EtmProgram() else EtmSwitch(1)
    case Funnel(port, _) => FunnelUp(port, PRIORITY)
    case Link => LinkUp()
    case Sink(ram, _) => if ram then EtrSinkUp(0x400, TRIGGER) else EtfSinkUp(TRIGGER)
  }

  /** The call that takes one component down (disable and pause are the same). */
  function Down(k: Kind): seq<Instr>
  {
    match k
    case Etm => EtmSwitch(0)
    case Funnel(_, _) => FunnelDown()
    case Link => LinkDown()
    case Sink(_, _) => SinkDown()
  }

  datatype Cmd = Cmd(dev: nat, instr: Instr)

  function On(dev: nat, p: seq<Instr>): (r: seq<Cmd>)
    ensures |r| == |p|
  {
    seq(|p|, k requires 0 <= k < |p| => Cmd(dev, p[k]))
  }

  /** Bring up components i-1 down to 0: the sink side first, the trace unit last. */
  function UpFrom(ks: seq<Kind>, i: nat, first: bool): seq<Cmd>
    requires i <= |ks| && forall k :: k in ks ==> KindOk(k)
  {
    if i == 0 then [] else On(i - 1, Up(ks[i - 1], first)) + UpFrom(ks, i - 1, first)
  }

  /** Take down components i, i+1, ...: the trace unit first, the sink last. */
  function DownFrom(ks: seq<Kind>, i: nat): seq<Cmd>
    requires i <= |ks|
    decreases |ks| - i
  {
    if i == |ks| then [] else On(i, Down(ks[i])) + DownFrom(ks, i + 1)
  }

  /** One whole-chain call followed by `turns` more, alternating pause and continue. */
  function Turns(ks: seq<Kind>, up: bool, first: bool, turns: nat): seq<Cmd>
    requires forall k :: k in ks ==> KindOk(k)
  {
    (if up then UpFrom(ks, |ks|, first) else DownFrom(ks, 0)) + More(ks, up, turns)
  }

  function More(ks: seq<Kind>, up: bool, turns: nat): seq<Cmd>
    requires forall k :: k in ks ==> KindOk(k)
    decreases turns, 0
  {
    if turns == 0 then [] else
      (if !up then UpFrom(ks, |ks|, false) else DownFrom(ks, 0)) + More(ks, !up, turns - 1)
  }
}
