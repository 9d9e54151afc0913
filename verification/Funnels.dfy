/** A funnel under any sequence of funnel_enable and funnel_disable calls. */
module Funnels {
  import opened Words
  import opened Devices
  import opened Programs
  import opened Chain

  /** The funnel after funnel_enable: hold time 7, only the given port open, locked. */
  function AfterEnable(d: Device, port: nat, priority: Word): Device
    requires port < 32
  {
    d.(open := false, regs := d.regs[FUNCTL := Masked(d.Reg(FUNCTL), FUNCTL_KEEP, FunctlBits(port))][PRICTL := priority])
  }

  /** The funnel after funnel_disable, which never opens the software lock. */
  function AfterDisable(d: Device): Device
  {
    if d.kind.Funnel? && d.kind.gated && !d.open then d else d.(regs := d.regs[FUNCTL := 0x300][PRICTL := PRIORITY])
  }

  datatype Call = Enable(port: nat) | Disable

  function After(d: Device, calls: seq<Call>): Device
    requires forall c :: c in calls && c.Enable? ==> c.port < 8
  {
    if calls == [] then d
    else
      var prev := After(d, calls[..|calls| - 1]);
      match calls[|calls| - 1]
      case Enable(port) => assert calls[|calls| - 1] in calls; AfterEnable(prev, port, PRIORITY)
      case Disable => AfterDisable(prev)
  }

  /** The last call that took effect: a locked funnel of the gated kind takes no disable. */
  function LastEffective(calls: seq<Call>, gated: bool): (r: seq<Call>)
    ensures |r| <= 1
  {
    if calls == [] then []
    else if calls[|calls| - 1].Disable? && gated then LastEffective(calls[..|calls| - 1], gated)
    else [calls[|calls| - 1]]
  }

  lemma KeepsHigh(f: Word, port: nat)
    requires port < 8
    ensures Masked(f, FUNCTL_KEEP, FunctlBits(port)) & 0xFFF == FunctlBits(port)
    ensures Masked(f, FUNCTL_KEEP, FunctlBits(port)) & FUNCTL_KEEP == f & FUNCTL_KEEP
  {
    assert ((1 as Word) << port) & FUNCTL_KEEP == 0;
  }

  /**
   * The low twelve bits of FUNCTL depend on nothing but the last call that took effect: after an enable exactly that call's
   * port is open, after a disable none is.
   */
  lemma {:induction false} FunctlByLastCall(d: Device, calls: seq<Call>)
    requires d.kind.Funnel? && !d.open && forall c :: c in calls && c.Enable? ==> c.port < 8
    ensures var a := After(d, calls); var last := LastEffective(calls, d.kind.gated);
            && a.kind == d.kind && !a.open
            && (last == [] ==> a.Reg(FUNCTL) == d.Reg(FUNCTL))
            && (last != [] && last[0].Enable? ==>
                  && last[0].port < 8 && a.Reg(FUNCTL) & 0xFFF == FunctlBits(last[0].port)
                  && a.Reg(FUNCTL) & 0xFF == (1 as Word) << last[0].port)
            && (last != [] && last[0].Disable? ==> a.Reg(FUNCTL) == 0x300)
  {
    if calls != [] {
      hide Masked, FunctlBits;
      var prev := calls[..|calls| - 1];
      FunctlByLastCall(d, prev);
      var c := calls[|calls| - 1];
      assert c in calls;
      if c.Enable? { EnableBits(After(d, prev), c.port); }
    }
  }

  lemma EnableBits(d: Device, port: nat)
    requires port < 8
    ensures var f := AfterEnable(d, port, PRIORITY).Reg(FUNCTL); f & 0xFFF == FunctlBits(port) && f & 0xFF == (1 as Word) << port
  {
    KeepsHigh(d.Reg(FUNCTL), port);
    LowByteOf(Masked(d.Reg(FUNCTL), FUNCTL_KEEP, FunctlBits(port)), (1 as Word) << port) by { OneByte(port); }
  }

  lemma OneByte(port: nat)
    requires port < 8
    ensures ((1 as Word) << port) & 0xFFFF_FF00 == 0
  {
  }

  lemma LowByteOf(f: Word, bit: Word)
    requires f & 0xFFF == 0x700 | bit && bit & 0xFFFF_FF00 == 0
    ensures f & 0xFF == bit
  {
    assert (f & 0xFFF) & 0xFF == f & 0xFF;
  }
}
