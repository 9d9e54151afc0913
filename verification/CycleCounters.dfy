/**
 * The cycle counter that paces the interrupt handler: it is loaded with 0xFFFFFFFFF0000000 and raises an interrupt when it
 * overflows, at bit 31 or at bit 63 depending on PMCR.
 */
module CycleCounters {
  const REARM: nat := 0xFFFF_FFFF_F000_0000
  const PERIOD: nat := 0x1000_0000
  const TWO_32: nat := 0x1_0000_0000
  const TWO_64: nat := 0x1_0000_0000_0000_0000

  /** `raised` counts overflows, `handled` handler runs, `ticks` counted cycles. */
  datatype State = State(counter: nat, pending: bool, raised: nat, handled: nat, ticks: nat)

  /**
   * A counted cycle, or the handler re-arming the counter, which happens only after an overflow but arbitrarily late. Handling
   * ends the pending interrupt: the handler itself clears no overflow flag, so this assumes that it is cleared elsewhere.
   */
  datatype Event = Tick | Handle

  function Modulus(wide: bool): nat { if wide then TWO_64 else TWO_32 }

  /** The bits of the counter that take part in the selected overflow. */
  function Low(wide: bool, counter: nat): (k: nat)
    ensures k < Modulus(wide)
  {
    if wide then counter % TWO_64 else counter % TWO_32
  }

  function Step(wide: bool, s: State, e: Event): State
  {
    match e
    case Tick =>
      var c := (s.counter + 1) % TWO_64;
      var over := Low(wide, c) == 0;
      State(c, s.pending || over, if over then s.raised + 1 else s.raised, s.handled, s.ticks + 1)
    case Handle =>
      if s.pending then State(REARM, false, s.raised, s.handled + 1, s.ticks) else s
  }

  function Run(wide: bool, es: seq<Event>): State
  {
    if es == [] then State(REARM, false, 0, 0, 0) else Step(wide, Run(wide, es[..|es| - 1]), es[|es| - 1])
  }

  /** Counted cycles until the next overflow. */
  function Left(wide: bool, counter: nat): (k: nat)
    ensures 1 <= k <= Modulus(wide)
  {
    Modulus(wide) - Low(wide, counter)
  }

  lemma LowTick(c: nat)
    requires c < TWO_64
    ensures var d := (c + 1) % TWO_64;
            d % TWO_32 == (if c % TWO_32 == TWO_32 - 1 then 0 else c % TWO_32 + 1)
            && d == (if c == TWO_64 - 1 then 0 else c + 1)
  {
    var q, r := c / TWO_32, c % TWO_32;
    assert c == TWO_32 * q + r;
    if c == TWO_64 - 1 {
      assert r == TWO_32 - 1;
    } else if r == TWO_32 - 1 {
      assert c + 1 == TWO_32 * (q + 1);
    } else {
      assert c + 1 == TWO_32 * q + (r + 1);
    }
  }

  lemma LeftTick(wide: bool, c: nat)
    requires c < TWO_64
    ensures var d := (c + 1) % TWO_64;
            if Left(wide, c) == 1 then Low(wide, d) == 0 && Left(wide, d) == Modulus(wide)
            else Low(wide, d) != 0 && Left(wide, d) == Left(wide, c) - 1
  {
    LowTick(c);
  }

  function Min(a: nat, b: nat): nat { if a < b then a else b }

  lemma {:induction false} Budget(wide: bool, es: seq<Event>)
    ensures var s := Run(wide, es);
            s.counter < TWO_64 && s.ticks + Min(Left(wide, s.counter), PERIOD) >= (s.raised + 1) * PERIOD
            && s.handled + (if s.pending then 1 else 0) <= s.raised
  {
    if es != [] {
      Budget(wide, es[..|es| - 1]);
      LeftTick(wide, Run(wide, es[..|es| - 1]).counter);
    }
  }

  /** However late the handler runs, there are at most T / 2^28 interrupts in T counted cycles. */
  lemma AtMostOnePerPeriod(wide: bool, es: seq<Event>)
    ensures Run(wide, es).handled <= Run(wide, es).raised <= Run(wide, es).ticks / 0x1000_0000
  {
    Budget(wide, es);
  }

  lemma FromRearm(wide: bool, n: nat)
    requires n < PERIOD
    ensures Left(wide, REARM + n) == PERIOD - n && REARM + n < TWO_64
    ensures n + 1 < PERIOD ==> (REARM + n + 1) % TWO_64 == REARM + n + 1
  {
    assert REARM + n == TWO_32 * 0xFFFF_FFFF + (0xF000_0000 + n);
  }

  function Ticks(n: nat): seq<Event> { seq(n, i => Tick) }

  /** After a re-arm the next overflow comes after exactly 2^28 counted cycles, whichever overflow is selected. */
  lemma {:induction false} FirstOverflow(wide: bool, es: seq<Event>, n: nat)
    requires Run(wide, es).counter == 0xFFFF_FFFF_F000_0000 && n <= 0x1000_0000
    ensures var s, t := Run(wide, es), Run(wide, es + Ticks(n));
            t.raised == (if n < 0x1000_0000 then s.raised else s.raised + 1) && t.ticks == s.ticks + n && t.handled == s.handled
            && (n < PERIOD ==> t.counter == REARM + n && t.pending == s.pending) && (n == PERIOD ==> t.pending)
  {
    if n == 0 {
      assert es + Ticks(0) == es;
    } else {
      FirstOverflow(wide, es, n - 1);
      FromRearm(wide, n - 1);
      LeftTick(wide, REARM + n - 1);
      hide Low, Left;
      var f := es + Ticks(n);
      assert f[..|f| - 1] == es + Ticks(n - 1) && f[|f| - 1] == Tick;
    }
  }

  function Rounds(n: nat): seq<Event>
  {
    if n == 0 then [] else Rounds(n - 1) + Ticks(PERIOD) + [Handle]
  }

  /** The bound is attained: with a handler that runs at once there are exactly n interrupts in n * 2^28 cycles. */
  lemma {:induction false} PromptHandler(wide: bool, n: nat)
    ensures var s := Run(wide, Rounds(n));
            s.raised == s.handled == n && s.ticks == n * 0x1000_0000 && s.counter == REARM && !s.pending
  {
    if n > 0 {
      PromptHandler(wide, n - 1);
      FirstOverflow(wide, Rounds(n - 1), PERIOD);
      var f := Rounds(n);
      assert f[..|f| - 1] == Rounds(n - 1) + Ticks(PERIOD) && f[|f| - 1] == Handle;
    }
  }
}
