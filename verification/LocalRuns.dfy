/**
 * What each driver call does to the one component it programs, step by step: the register state it leaves,
 * and the rules of use it keeps at every access.
 */
module LocalRuns {
  import opened Words
  import opened Devices
  import opened Programs
  import opened Chain

  /** An off component: as it came out of reset, or as its disable call left it. */
  predicate Off(d: Device)
  {
    && KindOk(d.kind) && !d.open && d.phase.Disabled? && d.fifo == []
    && (d.kind.Etm? ==> !d.Enabled())
  }

  /** The component once its enable call has returned, before any trace word reached it. */
  function UpDev(d: Device): (u: Device)
    requires KindOk(d.kind)
    ensures u.kind == d.kind && u.regs.Keys >= d.regs.Keys
  {
    var regs := d.regs + UpRegs(d.kind, d.Reg(TMC_AXICTL), d.Reg(FUNCTL));
    if d.kind.Etm? then d.(open := false, osLocked := true, regs := regs)
    else if d.kind.Funnel? then d.(open := false, regs := regs)
    else d.(open := false, phase := Running, fifo := [], regs := regs)
  }

  /** The registers an enable call determines. */
  function UpRegs(k: Kind, axictl: Word, functl: Word): map<int, Word>
    requires KindOk(k)
  {
    match k
    case Etm =>
      map[TRCPRGCTLR := 1, TRCCONFIGR := 0x49, TRCSTALLCTLR := 0, TRCSYNCPR := 0xC, TRCTRACEIDR := 0x6, TRCTSCTLR := 0,
          TRCVICTLR := 0x6F0201, TRCVIIECTLR := 0, TRCVISSCTLR := 0, TRCBBCTLR := 0]
    case Funnel(port, _) => map[FUNCTL := Masked(functl, FUNCTL_KEEP, FunctlBits(port)), PRICTL := 0xFAC688]
    case Link => map[TMC_MODE := 2, TMC_FFCR := 0x3, TMC_BUFWM := 0, TMC_CTL := 1]
    case Sink(ram, _) =>
      if ram then
        map[TMC_RSZ := 0x400, TMC_MODE := 0, TMC_AXICTL := Masked(axictl, 0xFFFF_FF7C, 0xF02), TMC_DBAHI := 0,
            TMC_FFCR := 0x133, TMC_TRG := 0x100, TMC_CTL := 1]
      else map[TMC_MODE := 0, TMC_FFCR := 0x133, TMC_TRG := 0x100, TMC_CTL := 1]
  }

  /** The FFCR value the enable call of a TMC writes. */
  function UpFfcr(k: Kind): Word { if k.Link? then 0x3 else 0x133 }

  /** The component once its disable call has returned. */
  function DownDev(d: Device): (r: Device)
    requires KindOk(d.kind)
    ensures r.kind == d.kind
  {
    var u := UpDev(d);
    match d.kind
    case Etm => u.(regs := u.regs + map[TRCPRGCTLR := 0])
    case Funnel(_, gated) => if gated then u else u.(regs := u.regs + map[FUNCTL := 0x300])
    case _ => u.(phase := Disabled, regs := u.regs + map[TMC_FFCR := UpFfcr(d.kind) | FFCR_STOP_ON_FLUSH, TMC_CTL := 0])
  }

  /**
   * The rules of use at the moment software is about to perform `i` on `d`: writes land while the software
   * lock (and, for the trace unit, the OS lock) is open; the trace unit is programmed while it is off;
   * a TMC is programmed while it is off and ready, starts only fully programmed, is read only when stopped,
   * and is switched off only when stopped and empty.
   */
  predicate Proper(d: Device, i: Instr)
  {
    var writes := (i.Put? || i.Mask?) && i.reg != CORESIGHT_LAR;
    && (writes && !d.kind.Funnel? ==> d.Writable(i.reg))
    && (writes && d.kind.Etm? && i.reg != TRCOSLAR && i.reg != TRCPRGCTLR ==> !d.Enabled())
    && (writes && d.IsTmc() && i.reg != TMC_CTL && i.reg != TMC_FFCR ==> d.phase.Disabled? && d.Ready())
    && (writes && d.IsTmc() && i == Put(TMC_CTL, 1) ==>
          && d.phase.Disabled?
          && d.Reg(TMC_MODE) == (if d.kind.Link? then 2 else 0)
          && d.Reg(TMC_FFCR) == UpFfcr(d.kind)
          && (d.kind.Sink? ==> d.Reg(TMC_TRG) == 0x100)
          && (d.kind.Sink? && d.kind.ram ==>
                d.Reg(TMC_RSZ) == 0x400 && d.Reg(TMC_DBAHI) == 0 && d.Reg(TMC_AXICTL) & 0xF83 == 0xF02))
    && (d.IsTmc() && i == Put(TMC_CTL, 0) ==> d.phase.Stopped? && d.fifo == [])
    && (i.Dump? ==> d.phase.Stopped? && !d.Flushing())
  }

  // ---- Coming up: the state of an off component d after k instructions of its enable or continue call ----

  function EtfRegs(r: map<int, Word>, k: nat): map<int, Word>
  {
    if k <= 2 then r
    else if k == 3 then r[TMC_MODE := MODE_CIRCULAR_BUFFER]
    else if k == 4 then r[TMC_MODE := MODE_CIRCULAR_BUFFER][TMC_FFCR := SINK_FFCR]
    else if k == 5 then r[TMC_MODE := MODE_CIRCULAR_BUFFER][TMC_FFCR := SINK_FFCR][TMC_TRG := TRIGGER]
    else r[TMC_MODE := MODE_CIRCULAR_BUFFER][TMC_FFCR := SINK_FFCR][TMC_TRG := TRIGGER][TMC_CTL := 1]
  }

  function EtrRegs(d: Device, k: nat): map<int, Word>
  {
    var r := d.regs;
    var a := Masked(d.Reg(TMC_AXICTL), 0xFFFF_FF7C, 0xF02);
    if k <= 2 then r
    else if k == 3 then r[TMC_RSZ := 0x400]
    else if k <= 5 then r[TMC_RSZ := 0x400][TMC_MODE := MODE_CIRCULAR_BUFFER]
    else if k == 6 then r[TMC_RSZ := 0x400][TMC_MODE := MODE_CIRCULAR_BUFFER][TMC_AXICTL := a]
    else
      var q := r[TMC_RSZ := 0x400][TMC_MODE := MODE_CIRCULAR_BUFFER][TMC_AXICTL := a][TMC_DBAHI := 0];
      if k == 7 then q
      else if k == 8 then q[TMC_FFCR := SINK_FFCR]
      else if k == 9 then q[TMC_FFCR := SINK_FFCR][TMC_TRG := TRIGGER]
      else q[TMC_FFCR := SINK_FFCR][TMC_TRG := TRIGGER][TMC_CTL := 1]
  }

  function LinkRegs(r: map<int, Word>, k: nat): map<int, Word>
  {
    if k <= 2 then r
    else if k == 3 then r[TMC_MODE := MODE_HARDWARE_FIFO]
    else if k == 4 then r[TMC_MODE := MODE_HARDWARE_FIFO][TMC_FFCR := LINK_FFCR]
    else if k == 5 then r[TMC_MODE := MODE_HARDWARE_FIFO][TMC_FFCR := LINK_FFCR][TMC_BUFWM := 0]
    else r[TMC_MODE := MODE_HARDWARE_FIFO][TMC_FFCR := LINK_FFCR][TMC_BUFWM := 0][TMC_CTL := 1]
  }

  function FunnelRegs(d: Device, k: nat): map<int, Word>
    requires d.kind.Funnel? && KindOk(d.kind)
  {
    var f := Masked(d.Reg(FUNCTL), FUNCTL_KEEP, FunctlBits(d.kind.port));
    if k <= 2 then d.regs else if k == 3 then d.regs[FUNCTL := f] else d.regs[FUNCTL := f][PRICTL := PRIORITY]
  }

  function EtmRegs(r: map<int, Word>, k: nat): map<int, Word>
  {
    var a := r[TRCPRGCTLR := 0];
    if k <= 2 then r
    else if k == 3 then a
    else if k == 4 then a[TRCCONFIGR := 0x49]
    else if k == 5 then a[TRCCONFIGR := 0x49][TRCSTALLCTLR := 0]
    else
      var b := a[TRCCONFIGR := 0x49][TRCSTALLCTLR := 0][TRCSYNCPR := 0xC];
      if k == 6 then b
      else if k == 7 then b[TRCTRACEIDR := 0x6]
      else if k == 8 then b[TRCTRACEIDR := 0x6][TRCTSCTLR := 0]
      else
        var c := b[TRCTRACEIDR := 0x6][TRCTSCTLR := 0][TRCVICTLR := 0x6F0201];
        if k == 9 then c
        else if k == 10 then c[TRCVIIECTLR := 0]
        else if k == 11 then c[TRCVIIECTLR := 0][TRCVISSCTLR := 0]
        else if k == 12 then c[TRCVIIECTLR := 0][TRCVISSCTLR := 0][TRCBBCTLR := 0]
        else c[TRCVIIECTLR := 0][TRCVISSCTLR := 0][TRCBBCTLR := 0][TRCPRGCTLR := 1]
  }

  /** etm_disable and etm_continue, k instructions in. */
  function SwitchDev(d: Device, en: Word, k: nat): Device
  {
    d.(open := 1 <= k < 5, osLocked := if k == 0 || k == 1 then d.osLocked else 4 <= k,
       regs := if k <= 2 then d.regs else d.regs[TRCPRGCTLR := en])
  }

  function TmcDev(d: Device, k: nat, n: nat, r: map<int, Word>): Device
  {
    d.(open := 1 <= k < n, phase := if k + 1 < n then d.phase else Running, regs := r)
  }

  function RiseDev(d: Device, first: bool, k: nat): Device
    requires KindOk(d.kind)
  {
    match d.kind
    case Etm =>
      if first then d.(open := 1 <= k < 15, osLocked := if k <= 1 then d.osLocked else 14 <= k, regs := EtmRegs(d.regs, k))
      else SwitchDev(d, 1, k)
    case Funnel(_, _) => d.(open := 1 <= k < 5, regs := FunnelRegs(d, k))
    case Link => TmcDev(d, k, 7, LinkRegs(d.regs, k))
    case Sink(ram, _) => if ram then TmcDev(d, k, 11, EtrRegs(d, k)) else TmcDev(d, k, 7, EtfRegs(d.regs, k))
  }

  /** What the C local holds between the load and the write-back of a read-modify-write. */
  predicate RiseScratch(d: Device, k: nat, s: Word)
  {
    && (d.kind.Funnel? && k == 2 ==> s == d.Reg(FUNCTL))
    && (d.kind.Sink? && d.kind.ram && k == 5 ==> s == d.Reg(TMC_AXICTL))
  }

  lemma EtfStep(d: Device, k: nat, s: Word)
    requires Off(d) && d.kind.Sink? && !d.kind.ram && k < 7
    ensures Act(Local(TmcDev(d, k, 7, EtfRegs(d.regs, k)), s), EtfSinkUp(TRIGGER)[k]).d
         == TmcDev(d, k + 1, 7, EtfRegs(d.regs, k + 1))
  {
  }

  lemma EtfProper(d: Device, k: nat, s: Word)
    requires Off(d) && d.kind.Sink? && !d.kind.ram && k < 7
    ensures var x := TmcDev(d, k, 7, EtfRegs(d.regs, k)); var i := EtfSinkUp(TRIGGER)[k];
            Proper(x, i) && !Blocked(x, i) && !i.Dump?
  {
  }

  lemma LinkStep(d: Device, k: nat, s: Word)
    requires Off(d) && d.kind.Link? && k < 7
    ensures Act(Local(TmcDev(d, k, 7, LinkRegs(d.regs, k)), s), LinkUp()[k]).d == TmcDev(d, k + 1, 7, LinkRegs(d.regs, k + 1))
  {
  }

  lemma LinkProper(d: Device, k: nat, s: Word)
    requires Off(d) && d.kind.Link? && k < 7
    ensures var x := TmcDev(d, k, 7, LinkRegs(d.regs, k)); var i := LinkUp()[k]; Proper(x, i) && !Blocked(x, i) && !i.Dump?
  {
  }

  lemma EtrStepEarly(d: Device, k: nat, s: Word)
    requires Off(d) && d.kind.Sink? && d.kind.ram && k < 5
    ensures var l := Act(Local(TmcDev(d, k, 11, EtrRegs(d, k)), s), EtrSinkUp(0x400, TRIGGER)[k]);
            l.d == TmcDev(d, k + 1, 11, EtrRegs(d, k + 1)) && RiseScratch(d, k + 1, l.scratch)
  {
    hide Masked;
  }

  lemma EtrStep(d: Device, k: nat, s: Word)
    requires Off(d) && d.kind.Sink? && d.kind.ram && k < 11 && RiseScratch(d, k, s)
    ensures var l := Act(Local(TmcDev(d, k, 11, EtrRegs(d, k)), s), EtrSinkUp(0x400, TRIGGER)[k]);
            l.d == TmcDev(d, k + 1, 11, EtrRegs(d, k + 1)) && RiseScratch(d, k + 1, l.scratch)
  {
    hide Masked;
    if k < 5 { EtrStepEarly(d, k, s); }
  }

  lemma EtrProper(d: Device, k: nat, s: Word)
    requires Off(d) && d.kind.Sink? && d.kind.ram && k < 11
    ensures var x := TmcDev(d, k, 11, EtrRegs(d, k)); var i := EtrSinkUp(0x400, TRIGGER)[k];
            Proper(x, i) && !Blocked(x, i) && !i.Dump?
  {
  }

  lemma EtmStep(d: Device, k: nat, s: Word)
    requires Off(d) && d.kind.Etm? && k < 15
    ensures Act(Local(RiseDev(d, true, k), s), EtmProgram()[k]).d == RiseDev(d, true, k + 1)
  {
  }

  lemma EtmProper(d: Device, k: nat, s: Word)
    requires Off(d) && d.kind.Etm? && k < 15
    ensures var x := RiseDev(d, true, k); var i := EtmProgram()[k]; Proper(x, i) && !Blocked(x, i) && !i.Dump?
  {
  }

  lemma SwitchStep(d: Device, en: Word, k: nat, s: Word)
    requires d.kind.Etm? && !d.open && k < 5
    ensures var x := SwitchDev(d, en, k); var i := EtmSwitch(en)[k];
            Act(Local(x, s), i).d == SwitchDev(d, en, k + 1) && Proper(x, i) && !Blocked(x, i) && !i.Dump?
  {
  }

  lemma FunctlOpens(f: Word, port: nat)
    requires port < 8
    ensures Masked(f, FUNCTL_KEEP, FunctlBits(port)) & ((1 as Word) << port) != 0
  {
  }

  lemma FunnelStep(d: Device, k: nat, s: Word)
    requires Off(d) && d.kind.Funnel? && k < 5 && RiseScratch(d, k, s)
    ensures var x := RiseDev(d, true, k); var i := FunnelUp(d.kind.port, PRIORITY)[k]; var l := Act(Local(x, s), i);
            l.d == RiseDev(d, true, k + 1) && RiseScratch(d, k + 1, l.scratch) && Proper(x, i) && !Blocked(x, i) && !i.Dump?
  {
    hide Masked, FunctlBits;
  }

  // ---- Going down ----

  /** A TMC k instructions into its disable call; d0 is the component as it was before the first enable call. */
  ghost predicate FallTmc(d0: Device, d: Device, s: Word, k: nat)
    requires KindOk(d0.kind) && d0.IsTmc()
  {
    var u := UpDev(d0);
    var f := UpFfcr(d0.kind);
    var n := |Down(d0.kind)|;
    var stopped := u.regs[TMC_FFCR := f | FFCR_STOP_ON_FLUSH];
    var halted := (d.phase.Stopping? || d.phase.Stopped?) && d.regs == stopped && (d.kind.Link? ==> d.fifo == []);
    && d.kind == d0.kind && d.osLocked == d0.osLocked && d.open == (1 <= k < n)
    && (k <= 2 ==> d.regs == u.regs && d.phase.Running?)
    && (k == 2 ==> s == f)
    && (k == 3 ==> d.regs == stopped && d.phase.Running? && s == f | FFCR_STOP_ON_FLUSH)
    && (k == 4 ==> (d.phase.Running? && d.regs == u.regs[TMC_FFCR := f | FFCR_STOP_ON_FLUSH | FFCR_FLUSHMAN]) || halted)
    && (k == 5 ==> halted)
    && (6 <= k < n - 1 ==> d.phase.Stopped? && halted)
    && (k == n - 2 ==> d.fifo == [])
    && (k >= n - 1 ==> d == DownDev(d0).(open := k < n))
  }

  lemma FallTmcEarly(d0: Device, d: Device, s: Word, k: nat)
    requires KindOk(d0.kind) && d0.IsTmc() && FallTmc(d0, d, s, k) && k <= 3
    ensures var i := Down(d0.kind)[k]; var l := Act(Local(d, s), i);
            !i.Dump? && !Blocked(d, i) && FallTmc(d0, l.d, l.scratch, k + 1) && l.d.fifo == d.fifo
  {
    var i := Down(d0.kind)[k];
    var r := UpDev(d0).regs;
    if k == 2 {
      assert i == Mask(TMC_FFCR, ONES, FFCR_STOP_ON_FLUSH);
    } else if k == 3 {
      var f := UpFfcr(d0.kind) | FFCR_STOP_ON_FLUSH;
      assert i == Mask(TMC_FFCR, ONES, FFCR_FLUSHMAN);
      assert r[TMC_FFCR := f][TMC_FFCR := f | FFCR_FLUSHMAN] == r[TMC_FFCR := f | FFCR_FLUSHMAN];
    }
  }

  lemma FallTmcStep(d0: Device, d: Device, s: Word, k: nat)
    requires KindOk(d0.kind) && d0.IsTmc() && FallTmc(d0, d, s, k) && k < |Down(d0.kind)|
    requires forall x :: x in d.fifo ==> x != ONES
    ensures var i := Down(d0.kind)[k]; var l := Act(Local(d, s), i);
            && (i.Dump? ==> FallTmc(d0, d.Popped(), s, if d.Rrd() == ONES then k + 1 else k))
            && (!i.Dump? && !Blocked(d, i) ==> FallTmc(d0, l.d, l.scratch, k + 1) && l.d.fifo == d.fifo)
  {
    if k <= 3 {
      FallTmcEarly(d0, d, s, k);
    } else if Down(d0.kind)[k].Dump? {
      assert d.fifo != [] ==> d.fifo[0] in d.fifo;
    } else if k == |Down(d0.kind)| - 2 {
      FallTmcOff(d0, d, s);
    }
  }

  lemma FallTmcOff(d0: Device, d: Device, s: Word)
    requires KindOk(d0.kind) && d0.IsTmc() && FallTmc(d0, d, s, |Down(d0.kind)| - 2)
    ensures d.Write(TMC_CTL, 0) == DownDev(d0).(open := true)
  {
    hide UpRegs, Masked;
    assert d.regs[TMC_CTL := 0] == UpDev(d0).regs + map[TMC_FFCR := UpFfcr(d0.kind) | FFCR_STOP_ON_FLUSH, TMC_CTL := 0];
  }

  lemma FallTmcProper(d0: Device, d: Device, s: Word, k: nat)
    requires KindOk(d0.kind) && d0.IsTmc() && FallTmc(d0, d, s, k) && k < |Down(d0.kind)|
    ensures Proper(d, Down(d0.kind)[k])
  {
  }

  /** The hardware completing a flush or a stop keeps a component where it is in its disable call. */
  lemma FallTmcHw(d0: Device, d: Device, s: Word, k: nat)
    requires KindOk(d0.kind) && d0.IsTmc() && FallTmc(d0, d, s, k) && k <= |Down(d0.kind)|
    ensures FallTmc(d0, d.FlushDone(), s, k) && FallTmc(d0, d.StopDone(), s, k)
    ensures d.phase.Running? && d.fifo != [] ==> FallTmc(d0, d.(fifo := d.fifo[1..]), s, k)
  {
  }

  function FallFunnelDev(u: Device, k: nat): Device
    requires u.kind.Funnel?
  {
    if u.kind.gated || k == 0 then u else u.(regs := u.regs[FUNCTL := 0x300])
  }

  lemma FallFunnelStep(d0: Device, k: nat, s: Word)
    requires Off(d0) && d0.kind.Funnel? && k < 2
    ensures var x := FallFunnelDev(UpDev(d0), k); var i := FunnelDown()[k];
            Act(Local(x, s), i).d == FallFunnelDev(UpDev(d0), k + 1) && Proper(x, i) && !Blocked(x, i) && !i.Dump?
  {
    var u := UpDev(d0);
    assert u.regs[FUNCTL := 0x300][PRICTL := PRIORITY] == u.regs[FUNCTL := 0x300];
  }

  // ---- Full calls ----

  lemma OffAgain(d0: Device)
    requires Off(d0)
    ensures Off(DownDev(d0)) && DownDev(d0).kind == d0.kind
  {
    if d0.kind.Etm? { assert DownDev(d0).Reg(TRCPRGCTLR) == 0; }
  }

  lemma UpFirst(d0: Device)
    requires Off(d0)
    ensures RiseDev(d0, true, |Up(d0.kind, true)|) == UpDev(d0)
  {
    hide EtmRegs, EtrRegs, UpRegs;
    match d0.kind
    case Etm => EtmRegsEnd(d0);
    case Funnel(port, _) => FunnelRegsEnd(d0);
    case Link => LinkRegsEnd(d0);
    case Sink(ram, _) => if ram { EtrRegsEnd(d0); } else { EtfRegsEnd(d0); }
  }

  lemma FunnelRegsEnd(d: Device)
    requires d.kind.Funnel? && KindOk(d.kind)
    ensures FunnelRegs(d, 5) == UpDev(d).regs
  {
    hide Masked, FunctlBits;
  }

  lemma LinkRegsEnd(d: Device)
    requires d.kind.Link?
    ensures LinkRegs(d.regs, 7) == UpDev(d).regs
  {
  }

  lemma EtfRegsEnd(d: Device)
    requires d.kind.Sink? && !d.kind.ram && KindOk(d.kind)
    ensures EtfRegs(d.regs, 7) == UpDev(d).regs
  {
  }

  lemma EtmRegsEnd(d: Device)
    requires d.kind.Etm?
    ensures EtmRegs(d.regs, 15) == UpDev(d).regs
  {
  }

  lemma EtrRegsEnd(d: Device)
    requires d.kind.Sink? && d.kind.ram && KindOk(d.kind)
    ensures EtrRegs(d, 11) == UpDev(d).regs
  {
  }

  /** What a call changes in the registers beyond what the enable call determines. */
  function DownRegs(k: Kind): map<int, Word>
  {
    match k
    case Etm => map[TRCPRGCTLR := 0]
    case Funnel(_, gated) => if gated then map[] else map[FUNCTL := 0x300]
    case _ => map[TMC_FFCR := UpFfcr(k) | FFCR_STOP_ON_FLUSH, TMC_CTL := 0]
  }

  lemma DownRegsAre(d0: Device)
    requires Off(d0)
    ensures var m := UpRegs(d0.kind, d0.Reg(TMC_AXICTL), d0.Reg(FUNCTL)); var x := DownRegs(d0.kind);
            x.Keys <= m.Keys && UpDev(d0).regs == d0.regs + m && DownDev(d0).regs == d0.regs + m + x
  {
    hide Masked, FunctlBits;
  }

  lemma Overwritten(r: map<int, Word>, m: map<int, Word>, x: map<int, Word>, n: map<int, Word>)
    requires x.Keys <= m.Keys && n.Keys == m.Keys
    requires forall k :: k in m && k !in x ==> n[k] == m[k]
    ensures r + m + x + n + x == r + m + x
    ensures n == m ==> r + m + x + n == r + m
  {
    var a, b := r + m + x + n + x, r + m + x;
    assert a.Keys == b.Keys;
    assert forall k :: k in b ==> a[k] == b[k];
    var c, d := r + m + x + n, r + m;
    assert c.Keys == d.Keys;
    assert n == m ==> forall k :: k in d ==> c[k] == d[k];
  }

  lemma MaskedTwice(a: Word, keep: Word, bits: Word)
    ensures Masked(Masked(a, keep, bits), keep, bits) == Masked(a, keep, bits)
  {
  }

  /** What the enable call computes from the registers it reads is the same again after a disable, up to an obeyed 0x300. */
  lemma UpRegsAgain(d0: Device)
    requires Off(d0)
    ensures var d := DownDev(d0);
            var m, n := UpRegs(d0.kind, d0.Reg(TMC_AXICTL), d0.Reg(FUNCTL)), UpRegs(d0.kind, d.Reg(TMC_AXICTL), d.Reg(FUNCTL));
            && n.Keys == m.Keys && (forall k :: k in m && k !in DownRegs(d0.kind) ==> n[k] == m[k])
            && (d0.kind.Funnel? && !d0.kind.gated ==> d.Reg(FUNCTL) == 0x300)
            && (!(d0.kind.Funnel? && !d0.kind.gated) ==> n == m)
  {
    hide Masked, FunctlBits;
    match d0.kind
    case Etm =>
    case Link =>
    case Sink(ram, _) => if ram { RamAgain(d0); }
    case Funnel(port, gated) =>
      if gated { GatedAgain(d0); } else { assert DownDev(d0).regs == UpDev(d0).regs + map[FUNCTL := 0x300]; }
  }

  lemma RamAgain(d0: Device)
    requires Off(d0) && d0.kind.Sink? && d0.kind.ram
    ensures var a := Masked(d0.Reg(TMC_AXICTL), 0xFFFF_FF7C, 0xF02);
            DownDev(d0).Reg(TMC_AXICTL) == a && Masked(a, 0xFFFF_FF7C, 0xF02) == a
  {
    MaskedTwice(d0.Reg(TMC_AXICTL), 0xFFFF_FF7C, 0xF02);
    hide Masked, FunctlBits;
  }

  lemma GatedAgain(d0: Device)
    requires Off(d0) && d0.kind.Funnel? && d0.kind.gated
    ensures var b := FunctlBits(d0.kind.port); var f := Masked(d0.Reg(FUNCTL), FUNCTL_KEEP, b);
            DownDev(d0).Reg(FUNCTL) == f && Masked(f, FUNCTL_KEEP, b) == f
  {
    MaskedTwice(d0.Reg(FUNCTL), FUNCTL_KEEP, FunctlBits(d0.kind.port));
    hide Masked, FunctlBits;
  }

  /** A second round of enable and disable leaves a component as the first did. */
  lemma DownTwice(d0: Device)
    requires Off(d0)
    ensures DownDev(DownDev(d0)) == DownDev(d0)
  {
    hide UpRegs, DownRegs;
    OffAgain(d0);
    DownRegsAre(d0);
    DownRegsAre(DownDev(d0));
    UpRegsAgain(d0);
    Overwritten(d0.regs, UpRegs(d0.kind, d0.Reg(TMC_AXICTL), d0.Reg(FUNCTL)), DownRegs(d0.kind),
                UpRegs(d0.kind, DownDev(d0).Reg(TMC_AXICTL), DownDev(d0).Reg(FUNCTL)));
  }

  /** A component that a disable call leaves as it is: everything but its on-off state is already configured. */
  predicate Settled(d: Device) { KindOk(d.kind) && DownDev(d) == d }

  /** The continue call, on a component a disable call has left, ends like an enable call. */
  lemma ContinueEnds(d0: Device)
    requires Off(d0) && Settled(d0)
    ensures RiseDev(d0, false, |Up(d0.kind, false)|) == UpDev(d0)
  {
    if d0.kind.Etm? {
      assert UpDev(d0).regs == d0.regs[TRCPRGCTLR := 1];
    } else {
      UpFirst(d0);
    }
  }

  /** Whether an obeyed disable of the component can be undone exactly by enabling it again. */
  predicate Restorable(d: Device)
  {
    d.kind.Funnel? && !d.kind.gated ==> HighClear(d.Reg(FUNCTL))
  }

  /** No bit of FUNCTL is set that funnel_enable keeps as it finds it. */
  predicate HighClear(functl: Word) { functl < 0x1000 }

  /**
   * Disabling a component and enabling it again gives back exactly the state of its first enable call, if and only if it is not
   * a funnel that obeys the disable and came out of reset with upper FUNCTL bits set.
   */
  lemma {:induction false} UpAgain(d0: Device)
    requires Off(d0)
    ensures KindOk(DownDev(d0).kind)
    ensures UpDev(DownDev(d0)) == UpDev(d0) <==> Restorable(d0)
  {
    hide UpDev, DownDev, Off, Restorable;
    if d0.kind.Funnel? && !d0.kind.gated { ObeyedFunnel(d0); } else { UpRestored(d0); }
  }

  lemma UpRestored(d0: Device)
    requires Off(d0) && !(d0.kind.Funnel? && !d0.kind.gated)
    ensures KindOk(DownDev(d0).kind) && UpDev(DownDev(d0)) == UpDev(d0) && Restorable(d0)
  {
    hide UpDev, DownDev;
    UpRegsRestored(d0);
    SameBesidesRegs(d0);
  }

  lemma UpRegsRestored(d0: Device)
    requires Off(d0) && !(d0.kind.Funnel? && !d0.kind.gated)
    ensures UpDev(DownDev(d0)).regs == UpDev(d0).regs
  {
    hide UpRegs, DownRegs;
    OffAgain(d0);
    DownRegsAre(d0);
    DownRegsAre(DownDev(d0));
    UpRegsAgain(d0);
    Overwritten(d0.regs, UpRegs(d0.kind, d0.Reg(TMC_AXICTL), d0.Reg(FUNCTL)), DownRegs(d0.kind),
                UpRegs(d0.kind, DownDev(d0).Reg(TMC_AXICTL), DownDev(d0).Reg(FUNCTL)));
  }

  lemma SameBesidesRegs(d0: Device)
    requires Off(d0)
    ensures UpDev(DownDev(d0)).(regs := map[]) == UpDev(d0).(regs := map[])
  {
    hide UpRegs, Masked, FunctlBits;
  }

  lemma ObeyedFunnel(d0: Device)
    requires Off(d0) && d0.kind.Funnel? && !d0.kind.gated
    ensures KindOk(DownDev(d0).kind)
    ensures UpDev(DownDev(d0)) == UpDev(d0) <==> Restorable(d0)
  {
    hide UpDev, DownDev, Off, Masked, FunctlBits, Restorable;
    ObeyedValues(d0);
    assert Restorable(d0) <==> Masked(d0.Reg(FUNCTL), FUNCTL_KEEP, FunctlBits(d0.kind.port)) == FunctlBits(d0.kind.port) by {
      RestorableBits(d0);
    }
    var u, v := UpDev(d0), UpDev(DownDev(d0));
    if u.Reg(FUNCTL) == v.Reg(FUNCTL) { assert v.regs == u.regs; }
  }

  lemma RestorableBits(d0: Device)
    requires d0.kind.Funnel? && !d0.kind.gated && d0.kind.port < 8
    ensures Restorable(d0) <==> Masked(d0.Reg(FUNCTL), FUNCTL_KEEP, FunctlBits(d0.kind.port)) == FunctlBits(d0.kind.port)
  {
    hide Masked, FunctlBits, HighClear;
    ObeyedBits(d0.Reg(FUNCTL), d0.kind.port);
  }

  lemma UpFunnel(d: Device)
    requires d.kind.Funnel? && KindOk(d.kind)
    ensures var f := Masked(d.Reg(FUNCTL), FUNCTL_KEEP, FunctlBits(d.kind.port));
            UpDev(d) == d.(open := false, regs := d.regs[FUNCTL := f][PRICTL := 0xFAC688])
  {
    hide Masked, FunctlBits;
  }

  lemma DownFunnel(d: Device)
    requires d.kind.Funnel? && !d.kind.gated && KindOk(d.kind)
    ensures DownDev(d) == UpDev(d).(regs := UpDev(d).regs[FUNCTL := 0x300])
  {
    hide UpRegs;
  }

  /** The second enable of a funnel that obeyed the disable finds 0x300 in FUNCTL; nothing else differs from the first. */
  lemma ObeyedValues(d0: Device)
    requires Off(d0) && d0.kind.Funnel? && !d0.kind.gated
    ensures KindOk(d0.kind) && KindOk(DownDev(d0).kind)
    ensures UpDev(d0).Reg(FUNCTL) == Masked(d0.Reg(FUNCTL), FUNCTL_KEEP, FunctlBits(d0.kind.port))
    ensures UpDev(DownDev(d0)).Reg(FUNCTL) == FunctlBits(d0.kind.port)
    ensures var u, v := UpDev(d0), UpDev(DownDev(d0)); FUNCTL in u.regs && v == u.(regs := u.regs[FUNCTL := v.Reg(FUNCTL)])
  {
    hide Masked, FunctlBits, HighClear, UpDev, DownDev;
    ObeyedBits(d0.Reg(FUNCTL), d0.kind.port);
    UpFunnel(d0);
    DownFunnel(d0);
    UpFunnel(DownDev(d0));
    var u, v := UpDev(d0), UpDev(DownDev(d0));
    assert v.regs == u.regs[FUNCTL := v.Reg(FUNCTL)];
  }

  lemma ObeyedBits(f: Word, port: nat)
    requires port < 8
    ensures Masked(0x300, FUNCTL_KEEP, FunctlBits(port)) == FunctlBits(port)
    ensures Masked(f, FUNCTL_KEEP, FunctlBits(port)) == FunctlBits(port) <==> HighClear(f)
  {
  }

  lemma UpAccepts(d0: Device, d: Device)
    requires Off(d0) && !d0.kind.Etm? && d.(fifo := []) == UpDev(d0).(fifo := [])
    ensures d.Accepts() && (d.IsTmc() ==> !d.Flushing() && !d.phase.Stopping?)
  {
    if d0.kind.Funnel? {
      FunctlOpens(d0.Reg(FUNCTL), d0.kind.port);
      hide Masked, FunctlBits;
    }
  }

  lemma RiseFacts(d: Device, first: bool, k: nat)
    requires Off(d) && k <= |Up(d.kind, first)|
    ensures var x := RiseDev(d, first, k);
            && x.kind == d.kind && x.fifo == [] && !x.phase.Stopping?
            && (k == 0 ==> x == d)
            && (x.IsTmc() ==> x.phase == if k + 1 < |Up(d.kind, first)| then Disabled else Running)
            && (x.IsTmc() && x.phase.Running? ==> !x.Flushing())
            && (x.kind.Etm? ==> (x.Enabled() <==> |Up(d.kind, first)| <= k + 2))
  {
    match d.kind
    case Etm => if first { EtmEnabled(d, k); }
    case Funnel(_, _) =>
    case Link => if k >= 6 { LinkFlushing(d, k); }
    case Sink(ram, _) => SinkFlushing(d, k);
  }

  lemma EtmEnabled(d: Device, k: nat)
    requires Off(d) && d.kind.Etm? && k <= 15
    ensures RiseDev(d, true, k).Enabled() <==> 13 <= k
  {
  }

  lemma LinkFlushing(d: Device, k: nat)
    requires d.kind.Link? && 6 <= k <= 7
    ensures !TmcDev(d, k, 7, LinkRegs(d.regs, k)).Flushing()
  {
  }

  lemma SinkFlushing(d: Device, k: nat)
    requires d.kind.Sink?
    ensures !d.kind.ram && 6 <= k <= 7 ==> !TmcDev(d, k, 7, EtfRegs(d.regs, k)).Flushing()
    ensures d.kind.ram && 10 <= k <= 11 ==> !TmcDev(d, k, 11, EtrRegs(d, k)).Flushing()
  {
  }

  lemma FallFacts(d0: Device, d: Device, s: Word, k: nat)
    requires KindOk(d0.kind) && d0.IsTmc() && k <= |Down(d0.kind)| && FallTmc(d0, d, s, k)
    ensures d.phase.Disabled? <==> k >= |Down(d0.kind)| - 1
    ensures d.fifo != [] && d.kind.Link? ==> d.phase.Running? && k <= 4
    ensures k == |Down(d0.kind)| ==> d == DownDev(d0)
    ensures d.kind.Sink? && k >= 7 ==> d.fifo == []
  {
  }
}
