/** The event-counting session of pmu_utils.h: which event is being watched, and how often its counter moved. */
module PmuSessions {
  const SLOTS := 70
  const INVALID := 61
  const TWO_32 := 0x1_0000_0000

  /** The enumerators SW_INCR .. STALL, and INVALID. */
  type Type = t: nat | t <= INVALID

  type Sample = v: nat | v < TWO_32

  predicate IsValidType(t: Type)
  {
    !(t == 30 || 33 <= t <= 36 || 41 <= t <= 51 || 54 <= t <= 56)
  }

  /** The enumerators NOP1 to NOP19: numbers to which the architecture assigns no event. */
  const RESERVED: set<int> :=
    {30, 33, 34, 35, 36, 41, 42, 43, 44, 45, 46, 47, 48, 49, 50, 51, 54, 55, 56}

  /** Exactly the reserved enumerators are rejected. */
  lemma RejectsReserved(t: Type)
    ensures !IsValidType(t) <==> t in RESERVED
  {
  }

  /** One call, with the counter value read in it. */
  datatype Op = Begin(t: Type, sample: Sample) | End(sample: Sample)

  datatype State = State(evType: Type, evtCnt: seq<nat>, cntBegin: Sample, cntEnd: Sample)

  /** A C uint32_t holding the count n. */
  function Low32(n: nat): nat { n % TWO_32 }

  function ResetState(): State { State(INVALID, seq(SLOTS, i => 0), 0, 0) }

  ghost predicate Valid(s: State)
  {
    && |s.evtCnt| == SLOTS && IsValidType(s.evType)
    && (forall i :: 0 <= i < SLOTS ==> 0 <= s.evtCnt[i] < TWO_32)
    && (forall i :: 0 <= i < SLOTS && s.evtCnt[i] != 0 ==> i <= 60 && IsValidType(i))
  }

  function Step(s: State, op: Op): State
    requires |s.evtCnt| == SLOTS
  {
    match op
    case Begin(t, v) => if IsValidType(t) then s.(evType := t, cntBegin := v) else s
    case End(v) =>
      if s.evType == INVALID then s
      else if v != s.cntBegin then s.(cntEnd := v, evtCnt := s.evtCnt[s.evType := Low32(s.evtCnt[s.evType] + 1)])
      else s.(cntEnd := v)
  }

  function Sum(c: seq<nat>): nat
  {
    if c == [] then 0 else Sum(c[..|c| - 1]) + c[|c| - 1]
  }

  /** What the score loop returns for the current state. */
  function Score(s: State): nat
    requires |s.evtCnt| == SLOTS
  {
    if s.evType == INVALID then 0 else Sum(s.evtCnt[..61]) % TWO_32
  }

  class PmuSession {
    var evType: Type
    var evtCnt: array<nat>
    var cntBegin: Sample
    var cntEnd: Sample

    ghost predicate Ok()
      reads this, evtCnt
    {
      evtCnt.Length == SLOTS && Valid(Snapshot())
    }

    ghost function Snapshot(): State
      reads this, evtCnt
    {
      State(evType, evtCnt[..], cntBegin, cntEnd)
    }

    constructor ()
      ensures Ok() && fresh(evtCnt) && Snapshot() == ResetState()
    {
      evtCnt := new nat[SLOTS](i => 0);
      evType := INVALID;
      cntBegin := 0;
      cntEnd := 0;
      new;
      assert evtCnt[..] == seq(SLOTS, i => 0);
    }

    method Reset()
      requires Ok()
      modifies this, evtCnt
      ensures evtCnt == old(evtCnt) && Ok() && Snapshot() == ResetState()
    {
      evType := INVALID;
      forall i | 0 <= i < evtCnt.Length { evtCnt[i] := 0; }
      cntBegin := 0;
      cntEnd := 0;
      assert evtCnt[..] == seq(SLOTS, i => 0);
    }

    /** `sample` is the counter value that read_pmu returns in this call. */
    method PmuBegin(t: Type, sample: Sample)
      requires Ok()
      modifies this`evType, this`cntBegin
      ensures Ok() && Snapshot() == Step(old(Snapshot()), Begin(t, sample))
      ensures evType == (if t in RESERVED then old(evType) else t) && cntBegin == (if t in RESERVED then old(cntBegin) else sample)
    {
      if !IsValidType(t) { return; }
      evType := t;
      cntBegin := sample;
    }

    method PmuEnd(sample: Sample)
      requires Ok()
      modifies this`cntEnd, evtCnt
      ensures evtCnt == old(evtCnt) && Ok() && Snapshot() == Step(old(Snapshot()), End(sample))
      ensures cntEnd == (if evType == INVALID then old(cntEnd) else sample)
      ensures evType != INVALID && sample != cntBegin ==> evtCnt[evType] == Low32(old(evtCnt[evType]) + 1)
      ensures forall i :: 0 <= i < SLOTS && (i != evType || sample == cntBegin) ==> evtCnt[i] == old(evtCnt[i])
    {
      if evType == INVALID { return; }
      cntEnd := sample;
      if 0 < (cntEnd - cntBegin) % TWO_32 {
        evtCnt[evType] := (evtCnt[evType] + 1) % TWO_32;
      }
    }

    method PmuGetScore() returns (score: nat)
      requires Ok()
      ensures score == Score(Snapshot())
    {
      if evType == INVALID { return 0; }
      var sum := 0;
      var i := 0;
      while i <= 60
        invariant 0 <= i <= 61
        invariant sum == Sum(evtCnt[..i]) % TWO_32
      {
        assert evtCnt[..i + 1][..i] == evtCnt[..i];
        sum := (sum + evtCnt[i]) % TWO_32;
        i := i + 1;
      }
      score := sum;
    }
  }

  function Run(ops: seq<Op>): (s: State)
    ensures |s.evtCnt| == SLOTS
  {
    if ops == [] then ResetState() else Step(Run(ops[..|ops| - 1]), ops[|ops| - 1])
  }

  /** The type in force: the last one given to an accepted pmu_begin. */
  function Current(ops: seq<Op>): Type
  {
    if ops == [] then INVALID
    else
      match ops[|ops| - 1]
      case Begin(t, _) => if IsValidType(t) then t else Current(ops[..|ops| - 1])
      case End(_) => Current(ops[..|ops| - 1])
  }

  /** The sample of the last accepted pmu_begin. */
  function Opening(ops: seq<Op>): Sample
  {
    if ops == [] then 0
    else
      match ops[|ops| - 1]
      case Begin(t, v) => if IsValidType(t) then v else Opening(ops[..|ops| - 1])
      case End(_) => Opening(ops[..|ops| - 1])
  }

  /** The accepted pmu_end calls whose sample differs from the opening one, counted from the history alone. */
  function Moved(ops: seq<Op>): nat
  {
    if ops == [] then 0
    else
      Moved(ops[..|ops| - 1]) +
      match ops[|ops| - 1]
      case Begin(_, _) => 0
      case End(v) => if Current(ops[..|ops| - 1]) != INVALID && v != Opening(ops[..|ops| - 1]) then 1 else 0
  }

  lemma {:induction false} SumUpdate(c: seq<nat>, i: nat, v: nat)
    requires i < |c|
    ensures Sum(c[i := v]) == Sum(c) - c[i] + v
  {
    var d := c[i := v];
    var n := |c| - 1;
    if i == n {
      assert d[..n] == c[..n];
    } else {
      SumUpdate(c[..n], i, v);
      assert d[..n] == c[..n][i := v];
    }
  }

  lemma {:induction false} SumZero(n: nat)
    ensures Sum(seq(n, i => 0)) == 0
  {
    if n > 0 {
      SumZero(n - 1);
      assert seq(n, i => 0)[..n - 1] == seq(n - 1, i => 0);
    }
  }

  /** A count and its increment modulo 2^32 leave the sum modulo 2^32 one higher. */
  lemma CountOne(sum: nat, c: nat)
    requires c < TWO_32 && c <= sum
    ensures (sum - c + (c + 1) % TWO_32) % TWO_32 == (sum + 1) % TWO_32
  {
    if c + 1 == TWO_32 { assert sum - c + 0 == sum + 1 - TWO_32; }
  }

  lemma {:induction false} SumBounds(c: seq<nat>, i: nat)
    requires i < |c|
    ensures c[i] <= Sum(c)
  {
    if i < |c| - 1 { SumBounds(c[..|c| - 1], i); }
  }

  /** Every call keeps counts within 32 bits and only in slots of valid types below INVALID. */
  lemma StepValid(s: State, op: Op)
    requires Valid(s)
    ensures Valid(Step(s, op))
  {
  }

  lemma ValidShape(s: State)
    requires Valid(s)
    ensures |s.evtCnt| == SLOTS && s.evtCnt[s.evType] < TWO_32
  {
  }

  /** The sample of the last accepted pmu_end. */
  function Closing(ops: seq<Op>): Sample
  {
    if ops == [] then 0
    else
      match ops[|ops| - 1]
      case Begin(_, _) => Closing(ops[..|ops| - 1])
      case End(v) => if Current(ops[..|ops| - 1]) == INVALID then Closing(ops[..|ops| - 1]) else v
  }

  /** After any calls the type in force and both samples are those of the last accepted calls. */
  lemma {:induction false} Follows(ops: seq<Op>)
    ensures var s := Run(ops);
            Valid(s) && s.evType == Current(ops) && s.cntBegin == Opening(ops) && s.cntEnd == Closing(ops)
  {
    if ops != [] {
      hide Valid;
      Follows(ops[..|ops| - 1]);
      StepValid(Run(ops[..|ops| - 1]), ops[|ops| - 1]);
    }
  }

  lemma {:induction false} Tracks(ops: seq<Op>)
    ensures Low32(Sum(Run(ops).evtCnt[..61])) == Low32(Moved(ops))
  {
    if ops == [] {
      SumZero(61);
      assert ResetState().evtCnt[..61] == seq(61, i => 0);
    } else {
      hide Valid, Sum, Low32, IsValidType;
      var prev := ops[..|ops| - 1];
      Tracks(prev);
      Follows(prev);
      TracksStep(Run(prev), ops[|ops| - 1], Moved(prev));
    }
  }

  lemma TracksStep(s: State, op: Op, n: nat)
    requires Valid(s) && Low32(Sum(s.evtCnt[..61])) == Low32(n)
    ensures |s.evtCnt| == SLOTS
    ensures var m := if op.End? && s.evType != INVALID && op.sample != s.cntBegin then n + 1 else n;
            Low32(Sum(Step(s, op).evtCnt[..61])) == Low32(m)
  {
    ValidShape(s);
    hide Valid, Sum, Low32, IsValidType;
    if op.End? && s.evType != INVALID && op.sample != s.cntBegin { CountMoves(s.evtCnt, s.evType, n); }
  }

  /** One more counted move in slot t raises the sum of the scored slots by one, modulo 2^32. */
  lemma CountMoves(evtCnt: seq<nat>, t: nat, moved: nat)
    requires |evtCnt| == SLOTS && t < 61 && evtCnt[t] < TWO_32
    requires Low32(Sum(evtCnt[..61])) == Low32(moved)
    ensures Low32(Sum(evtCnt[t := Low32(evtCnt[t] + 1)][..61])) == Low32(moved + 1)
  {
    var c := evtCnt[..61];
    var w := (evtCnt[t] + 1) % TWO_32;
    assert evtCnt[t := w][..61] == c[t := w];
    SumUpdate(c, t, w);
    SumBounds(c, t);
    CountOne(Sum(c), c[t]);
    AddOne(Sum(c), moved);
  }

  lemma AddOne(a: nat, b: nat)
    requires a % TWO_32 == b % TWO_32
    ensures (a + 1) % TWO_32 == (b + 1) % TWO_32
  {
  }

  /** The pmu_end calls made while t was the type in force whose sample differs from the opening one, from the history alone. */
  function MovedIn(ops: seq<Op>, t: Type): nat
  {
    if ops == [] then 0
    else
      MovedIn(ops[..|ops| - 1], t) +
      match ops[|ops| - 1]
      case Begin(_, _) => 0
      case End(v) => if Current(ops[..|ops| - 1]) == t && v != Opening(ops[..|ops| - 1]) then 1 else 0
  }

  /**
   * From a reset, after any calls, each slot counts modulo 2^32 the pmu_end calls that saw the counter move while its type was in
   * force.
   */
  lemma {:induction false} SlotCountsMoves(ops: seq<Op>)
    ensures forall t: Type :: t <= 60 ==> Run(ops).evtCnt[t] == MovedIn(ops, t) % 0x1_0000_0000
    ensures forall i :: 61 <= i < 70 ==> Run(ops).evtCnt[i] == 0
  {
    if ops != [] {
      hide Low32;
      var prev, op := ops[..|ops| - 1], ops[|ops| - 1];
      SlotCountsMoves(prev);
      var s := Run(prev);
      Follows(prev);
      forall t: Type | t <= 60 ensures Run(ops).evtCnt[t] == MovedIn(ops, t) % 0x1_0000_0000 {
        if op.End? && s.evType == t && op.sample != s.cntBegin { NextCount(s.evtCnt[t], MovedIn(prev, t)); }
      }
    }
  }

  lemma NextCount(c: nat, n: nat)
    requires c == n % TWO_32
    ensures Low32(c + 1) == (n + 1) % TWO_32
  {
  }

  /**
   * From a reset, after any calls, the score is modulo 2^32 the number of accepted pmu_end calls that saw the counter move,
   * or 0 while no valid type is set; and only slots of valid types below INVALID are ever non-zero.
   */
  lemma ScoreCountsMoves(ops: seq<Op>)
    ensures var s := Run(ops);
            && Score(s) == (if Current(ops) == INVALID then 0 else Moved(ops) % TWO_32)
            && forall i :: 0 <= i < SLOTS && s.evtCnt[i] != 0 ==> i <= 60 && IsValidType(i)
  {
    Tracks(ops);
    Follows(ops);
  }
}
