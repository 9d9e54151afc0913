/**
 * What the components are programmed with whenever they work: the register values, by register offset and as numbers.
 */
module Configurations {
  import opened Words
  import opened Devices
  import opened Programs
  import opened Chain
  import opened LocalRuns
  import opened Sessions
  import opened Guarantees

  /** The formatter control of a TMC: formatting and trigger insertion, and for a sink the three flush and trigger conditions. */
  function Formatter(k: Kind): Word { if k.Link? then 0x3 else 0x133 }

  /**
   * A TMC that is not off: CTL 1; a link is a hardware FIFO with watermark 0, a sink a circular buffer with trigger counter 0x100,
   * an ETR has 0x400 words, writes bursts of 16 with protection bit 1, no scatter-gather, and address bits above 31 zero. FFCR is
   * exactly `Formatter` until the flush; then StopOnFl is added, then FlushMan, which clears by itself.
   */
  predicate TmcProgrammed(d: Device)
  {
    d.IsTmc() && !d.phase.Disabled? ==>
      && d.Reg(0x020) == 1
      && (d.kind.Link? ==> d.Reg(0x028) == 2 && d.Reg(0x034) == 0)
      && (d.kind.Sink? ==> d.Reg(0x028) == 0 && d.Reg(0x01C) == 0x100)
      && (d.kind.Sink? && d.kind.ram ==> d.Reg(0x004) == 0x400 && d.Reg(0x110) & 0xF83 == 0xF02 && d.Reg(0x11C) == 0)
      && d.Reg(0x304) & 0x3 == 0x3
      && (|| d.Reg(0x304) == Formatter(d.kind)
          || d.Reg(0x304) == Formatter(d.kind) | 0x1000
          || d.Reg(0x304) == Formatter(d.kind) | 0x1040)
      && (!d.phase.Running? ==> d.Reg(0x304) == Formatter(d.kind) | 0x1000)
  }

  /** The trace unit while it generates trace: ETM program flow with the ID 6, everything always on, no filter. */
  predicate EtmProgrammed(d: Device)
  {
    && d.Reg(0x010) == 0x49 && d.Reg(0x02C) == 0 && d.Reg(0x034) == 0xC && d.Reg(0x040) == 0x6 && d.Reg(0x030) == 0
    && d.Reg(0x080) == 0x6F0201 && d.Reg(0x084) == 0 && d.Reg(0x088) == 0 && d.Reg(0x03C) == 0
  }

  /** A component behind a working trace unit: a funnel passes exactly its own port on, a TMC captures and is not about to stop. */
  predicate Carries(d: Device)
  {
    && !d.open
    && (d.kind.Funnel? ==> d.kind.port < 8 && d.Reg(0x000) & 0xFFF == 0x700 | ((1 as Word) << d.kind.port))
    && (d.kind.Funnel? ==> d.Reg(0x004) == 0xFAC688)
    && (d.IsTmc() ==> d.phase.Running? && d.Reg(0x304) == Formatter(d.kind))
  }

  ghost predicate Configured(devs: seq<Device>)
  {
    && (forall j :: 0 <= j < |devs| ==> TmcProgrammed(devs[j]))
    && (devs != [] && devs[0].Enabled() ==> EtmProgrammed(devs[0]) && forall j :: 0 < j < |devs| ==> Carries(devs[j]))
  }

  lemma UpTmc(d: Device, d0: Device)
    requires Off(d0) && d0.IsTmc() && d.kind == d0.kind && d.regs == UpDev(d0).regs && d.phase.Running?
    ensures TmcProgrammed(d) && d.Reg(0x304) == Formatter(d.kind)
  {
    if d.kind.Sink? && d.kind.ram { AxiBits(d0.Reg(TMC_AXICTL)); }
    FormatterBits(d.kind);
    hide Masked, Formatter;
    assert d.Reg(0x304) == UpFfcr(d.kind);
    assert UpFfcr(d.kind) == Formatter(d.kind) by { FormatterBits(d.kind); }
  }

  lemma AxiBits(axictl: Word)
    ensures Masked(axictl, 0xFFFF_FF7C, 0xF02) & 0xF83 == 0xF02
  {
  }

  lemma FormatterBits(k: Kind)
    ensures UpFfcr(k) == Formatter(k) && Formatter(k) & 0x3 == 0x3
    ensures (Formatter(k) | 0x1000) & 0x3 == 0x3 && (Formatter(k) | 0x1040) & 0x3 == 0x3
  {
  }

  lemma RiseTmc(d0: Device, first: bool, k: nat)
    requires Off(d0) && d0.IsTmc() && k <= |Up(d0.kind, first)| && RiseDev(d0, first, k).phase.Running?
    ensures RiseDev(d0, first, k).regs == UpDev(d0).regs && RiseDev(d0, first, k).kind == d0.kind
  {
    hide UpRegs, Masked;
    RiseFacts(d0, first, k);
    match d0.kind
    case Link => LinkRegsEnd(d0);
    case Sink(ram, _) => if ram { EtrRegsEnd(d0); } else { EtfRegsEnd(d0); }
  }

  /** The flush changes FFCR and nothing else. */
  lemma FlushTmc(d0: Device, d: Device, s: Word, k: nat)
    requires Off(d0) && d0.IsTmc() && k <= |Down(d0.kind)| && FallTmc(d0, d, s, k)
    ensures TmcProgrammed(d) && (d.phase.Running? && k <= 2 ==> d.Reg(0x304) == Formatter(d.kind))
  {
    var u := d.(phase := Running, regs := UpDev(d0).regs);
    UpTmc(u, d0);
    FormatterBits(d0.kind);
    hide UpDev, Formatter, UpFfcr, DownDev;
    if !d.phase.Disabled? {
      FlushRegs(d0, d, s, k);
      assert forall r: int :: r != 0x304 ==> d.Reg(r) == u.Reg(r);
    }
  }

  lemma FlushRegs(d0: Device, d: Device, s: Word, k: nat)
    requires Off(d0) && d0.IsTmc() && k <= |Down(d0.kind)| && FallTmc(d0, d, s, k) && !d.phase.Disabled?
    ensures d.kind == d0.kind && k < |Down(d0.kind)| - 1
    ensures var r, f := UpDev(d0).regs, UpFfcr(d0.kind);
            && (d.regs == r || d.regs == r[TMC_FFCR := f | 0x1000] || d.regs == r[TMC_FFCR := f | 0x1040])
            && (k <= 2 ==> d.regs == r)
            && (!d.phase.Running? ==> d.regs == r[TMC_FFCR := f | 0x1000])
  {
    FallFacts(d0, d, s, k);
    hide UpDev;
    BothFlushBits(UpFfcr(d0.kind));
  }

  lemma BothFlushBits(f: Word)
    ensures f | FFCR_STOP_ON_FLUSH == f | 0x1000 && f | FFCR_STOP_ON_FLUSH | FFCR_FLUSHMAN == f | 0x1040
  {
  }

  lemma UpEtm(d0: Device)
    requires d0.kind.Etm?
    ensures EtmProgrammed(UpDev(d0))
  {
  }

  lemma UpFunnelCarries(d: Device, d0: Device)
    requires Off(d0) && d0.kind.Funnel? && IsUp(d, d0)
    ensures Carries(d)
  {
    hide Masked, FunctlBits;
    LowBits(d0.Reg(FUNCTL), d0.kind.port);
  }

  lemma LowBits(f: Word, port: nat)
    requires port < 8
    ensures Masked(f, FUNCTL_KEEP, FunctlBits(port)) & 0xFFF == 0x700 | ((1 as Word) << port)
  {
  }

  lemma UpTmcCarries(d: Device, d0: Device)
    requires Off(d0) && d0.IsTmc() && IsUp(d, d0)
    ensures Carries(d) && TmcProgrammed(d)
  {
    hide UpRegs, Formatter;
    UpTmc(d, d0);
  }

  /** Whenever the trace unit is enabled it is programmed as its enable call programs it. */
  lemma EnabledEtm(d: Device, d0: Device, s: Word, m: Mark)
    requires Off(d0) && d0.kind.Etm? && Moving(d, d0, s, m) && d.Enabled() && (m.up ==> m.first || Settled(d0))
    requires m.pc <= |if m.up then Up(d0.kind, m.first) else Down(d0.kind)|
    ensures EtmProgrammed(d)
  {
    UpEtm(d0);
    hide EtmProgrammed;
    assert d.regs == UpDev(d0).regs by {
      if m.up && m.first { EtmEnabled(d0, m.pc); EtmRegsEnd(d0); }
      else if m.up { ContinueEnds(d0); }
      else { SwitchedOff(d0, m.pc); }
    }
    SameRegs(d, UpDev(d0));
  }

  lemma SwitchedOff(d0: Device, k: nat)
    requires d0.kind.Etm? && SwitchDev(UpDev(d0), 0, k).Enabled()
    ensures k <= 2
  {
  }

  lemma SameRegs(d: Device, u: Device)
    requires d.regs == u.regs && EtmProgrammed(u)
    ensures EtmProgrammed(d)
  {
  }

  lemma MovingTmc(d: Device, d0: Device, s: Word, m: Mark)
    requires Off(d0) && Moving(d, d0, s, m) && d.IsTmc()
    requires m.pc <= |if m.up then Up(d0.kind, m.first) else Down(d0.kind)|
    ensures TmcProgrammed(d)
  {
    MovingKindIs(d, d0, s, m);
    hide TmcProgrammed, Up, Down, UpDev, RiseDev, FallTmc;
    if m.up {
      RiseFacts(d0, m.first, m.pc);
      if d.phase.Running? { RiseTmc(d0, m.first, m.pc); UpTmc(d, d0); } else { OffProgrammed(d); }
    } else {
      FlushTmc(d0, d, s, m.pc);
    }
  }

  lemma MovingKindIs(d: Device, d0: Device, s: Word, m: Mark)
    requires Off(d0) && Moving(d, d0, s, m)
    ensures d.kind == d0.kind
  {
  }

  lemma OffProgrammed(d: Device)
    requires d.phase.Disabled? || !d.IsTmc()
    ensures TmcProgrammed(d)
  {
  }

  lemma PlacedProgrammed(w: World, base: seq<Device>, m: Mark, j: nat)
    requires Placed(w, base, m) && j < |base|
    ensures TmcProgrammed(w.devs[j])
  {
    hide Up, Down, Moving, UpDev, DownDev, TmcProgrammed, Settled;
    KindsIn(base, j);
    OffAgain(base[j]);
    if !w.devs[j].IsTmc() || w.devs[j].phase.Disabled? { OffProgrammed(w.devs[j]); }
    else if j == m.i { MovingTmc(w.devs[j], base[j], w.scratch, m); }
    else if j > m.i { UpPhase(base[j], w.devs[j]); UpTmcCarries(w.devs[j], base[j]); }
  }

  lemma AheadCarries(w: World, base: seq<Device>, m: Mark, j: nat)
    requires Placed(w, base, m) && m.i < j < |base|
    ensures Carries(w.devs[j])
  {
    hide Up, Down, Moving, UpDev, DownDev, Carries, Settled;
    KindsIn(base, j);
    if base[j].kind.Funnel? { UpFunnelCarries(w.devs[j], base[j]); } else { UpTmcCarries(w.devs[j], base[j]); }
  }

  /**
   * After every register access of any run, every TMC that is not off is fully programmed, and while the trace unit generates
   * trace so is it itself and everything behind it.
   */
  lemma {:induction false} AlwaysConfigured(base: seq<Device>, scratch: Word, turns: nat, es: seq<Event>)
    requires ResetChain(base)
    ensures Configured(Exec(Start(base, scratch, turns), es).devs)
  {
    hide Inv, Start, TmcProgrammed, EtmProgrammed, Carries, Device.Enabled;
    var cur, m := Runs(base, scratch, turns, es);
    var w := Exec(Start(base, scratch, turns), es);
    InvShape(w, cur, m);
    forall j | 0 <= j < |w.devs| ensures TmcProgrammed(w.devs[j]) { PlacedProgrammed(w, cur, m, j); }
    if w.devs[0].Enabled() {
      TracingAtFirst(w, cur, m);
      FirstProgrammed(w, cur, m);
      forall j | 0 < j < |w.devs| ensures Carries(w.devs[j]) { AheadCarries(w, cur, m, j); }
    }
  }

  lemma FirstProgrammed(w: World, base: seq<Device>, m: Mark)
    requires Placed(w, base, m) && w.devs[0].Enabled() && m.i == 0
    ensures EtmProgrammed(w.devs[0])
  {
    hide Up, Down, Moving, UpDev, EtmProgrammed, Settled;
    KindsIn(base, 0);
    EnabledEtm(w.devs[0], base[0], w.scratch, m);
  }
}
