/**
 * The trace buffer shared between the interrupt handler that dumps into it and any number of cs_read callers. Every access
 * to shared state is one atomic step; the steps of all CPUs interleave freely, within interrupt nesting and spin-lock rules.
 */
module Sharing {
  import opened Words
  import opened TraceBuffers
  import opened Framing

  datatype Owner = Free | Handler | Reader(t: nat)

  /** Where a thread is in cs_read. Missing threads are outside. */
  datatype ReaderPc =
    | Outside
    | Tested                                     // the unlocked emptiness test saw a non-empty buffer
    | Copying(readPoint: nat, copied: seq<Word>) // inside the loop, lock held
    | Rewound                                    // write_point reset, buffer still to be cleared, lock held

  /** Where the interrupt handler is in tmc_dump_etf_sink; `fifo` is what the stopped sink still holds. */
  datatype HandlerPc =
    | Quiet
    | Entered(fifo: seq<Word>)                    // about to read RRD for the first time
    | Spin(result: Word, fifo: seq<Word>)         // about to take the lock
    | Store(result: Word, fifo: seq<Word>)        // about to write the word at write_point
    | Advance(result: Word, fifo: seq<Word>)      // about to move write_point
    | Fetch(fifo: seq<Word>)                      // about to read RRD again
    | Leave                                       // about to release the lock

  /**
   * History: `dumps` are the contents given to dumps so far, `stored` the words they stored, `removed` the words that
   * successful reads took away.
   */
  datatype State = State(lock: Owner, mem: Memory, wp: nat, handler: HandlerPc, at: nat, readers: map<nat, ReaderPc>,
                         dumps: seq<seq<Word>>, stored: seq<Word>, removed: seq<Word>)

  datatype Event =
    | Interrupt(cpu: nat, content: seq<Word>)
    | HandlerStep
    | Call(t: nat)
    | ReaderStep(t: nat, fault: bool)

  /** `cpu` places each thread; `polite` says that no interrupt is taken on a CPU whose cs_read holds the lock. */
  datatype Config = Config(cpu: nat -> nat, polite: bool)

  function Pc(s: State, t: nat): ReaderPc { if t in s.readers then s.readers[t] else Outside }

  function Set(s: State, t: nat, pc: ReaderPc): map<nat, ReaderPc> { s.readers[t := pc] }

  /** An interrupt freezes the threads of its CPU, and the holder of a spin lock is never preempted by another thread. */
  predicate CanRun(c: Config, s: State, t: nat)
  {
    && !(!s.handler.Quiet? && s.at == c.cpu(t))
    && !(s.lock.Reader? && s.lock.t != t && c.cpu(s.lock.t) == c.cpu(t))
  }

  predicate Enabled(c: Config, s: State, e: Event)
  {
    match e
    case Interrupt(p, content) =>
      s.handler.Quiet? && ONES !in content && (c.polite ==> !(s.lock.Reader? && c.cpu(s.lock.t) == p))
    case HandlerStep => !s.handler.Quiet? && (s.handler.Spin? ==> s.lock.Free?)
    case Call(t) => Pc(s, t).Outside? && CanRun(c, s, t)
    case ReaderStep(t, _) => !Pc(s, t).Outside? && CanRun(c, s, t) && (Pc(s, t).Tested? ==> s.lock.Free?)
  }

  function Head(fifo: seq<Word>): Word { if fifo == [] then ONES else fifo[0] }

  function Rest(fifo: seq<Word>): seq<Word> { if fifo == [] then [] else fifo[1..] }

  function Handle(s: State): State
  {
    match s.handler
    case Quiet => s
    case Entered(fifo) => s.(handler := Spin(Head(fifo), Rest(fifo)))
    case Spin(result, fifo) => s.(handler := Store(result, fifo), lock := Handler)
    case Store(result, fifo) => s.(handler := Advance(result, fifo), mem := s.mem[s.wp := result])
    case Advance(result, fifo) =>
      s.(handler := if result == ONES then Leave else Fetch(fifo), wp := s.wp + 4, stored := s.stored + [result])
    case Fetch(fifo) => s.(handler := Store(Head(fifo), Rest(fifo)))
    case Leave => s.(handler := Quiet, lock := Free)
  }

  function Read(s: State, t: nat, fault: bool): State
  {
    match Pc(s, t)
    case Outside => s
    case Tested => s.(lock := Reader(t), readers := Set(s, t, Copying(0, [])))
    case Copying(rp, copied) =>
      if rp != s.wp then
        if fault then s.(lock := Free, readers := Set(s, t, Outside))
        else s.(readers := Set(s, t, Copying(rp + 4, copied + [WordAt(s.mem, rp)])))
      else s.(wp := 0, removed := s.removed + copied, readers := Set(s, t, Rewound))
    case Rewound => s.(mem := Cleared(s.mem), lock := Free, readers := Set(s, t, Outside))
  }

  function Step(c: Config, s: State, e: Event): State
  {
    if !Enabled(c, s, e) then s
    else
      match e
      case Interrupt(p, content) => s.(handler := Entered(content), at := p, dumps := s.dumps + [content])
      case HandlerStep => Handle(s)
      case Call(t) => if s.wp == 0 then s else s.(readers := Set(s, t, Tested))
      case ReaderStep(t, fault) => Read(s, t, fault)
  }

  function Run(c: Config, es: seq<Event>): State
  {
    if es == [] then State(Free, map[], 0, Quiet, 0, map[], [], [], [])
    else Step(c, Run(c, es[..|es| - 1]), es[|es| - 1])
  }

  /** What all dumps together store when they have finished. */
  function AllBlocks(dumps: seq<seq<Word>>): seq<Word>
  {
    if dumps == [] then [] else AllBlocks(dumps[..|dumps| - 1]) + dumps[|dumps| - 1] + [ONES]
  }

  /** What the dump under way has yet to store. */
  function Pending(h: HandlerPc): seq<Word>
  {
    match h
    case Quiet => []
    case Leave => []
    case Entered(fifo) => fifo + [ONES]
    case Fetch(fifo) => fifo + [ONES]
    case _ => if h.result == ONES then [ONES] else [h.result] + h.fifo + [ONES]
  }

  predicate InCritical(h: HandlerPc) { h.Store? || h.Advance? || h.Fetch? || h.Leave? }

  predicate Holding(pc: ReaderPc) { pc.Copying? || pc.Rewound? }

  ghost predicate HandlerOk(s: State)
  {
    var h := s.handler;
    && (h.Entered? || h.Fetch? ==> ONES !in h.fifo)
    && (h.Spin? || h.Store? || h.Advance? ==> ONES !in h.fifo && (h.result == ONES ==> h.fifo == []))
    && (h.Advance? ==> s.wp in s.mem && s.mem[s.wp] == h.result)
    && s.stored + Pending(h) == AllBlocks(s.dumps)
  }

  ghost predicate ReaderOk(s: State, t: nat)
    requires Stored(s.mem, s.wp)
  {
    var pc := Pc(s, t);
    && (Holding(pc) <==> s.lock == Reader(t))
    && (pc.Copying? ==> pc.readPoint % 4 == 0 && pc.readPoint <= s.wp && |pc.copied| == pc.readPoint / 4
                        && pc.copied == Content(s.mem, s.wp)[..pc.readPoint / 4])
    && (pc.Rewound? ==> s.wp == 0)
  }

  ghost predicate Inv(c: Config, s: State)
  {
    && Stored(s.mem, s.wp)
    && (InCritical(s.handler) <==> s.lock.Handler?)
    && HandlerOk(s)
    && (forall t: nat :: ReaderOk(s, t))
    && s.removed + Content(s.mem, s.wp) == s.stored
    && (c.polite && !s.handler.Quiet? && s.lock.Reader? ==> c.cpu(s.lock.t) != s.at)
  }

  lemma HandleKeeps(c: Config, s: State)
    requires Inv(c, s) && Enabled(c, s, HandlerStep)
    ensures Inv(c, Handle(s))
  {
    hide AllBlocks;
    var s' := Handle(s);
    HandleAccount(s);
    forall u: nat ensures ReaderOk(s', u) { assert ReaderOk(s, u); }
  }

  /** The handler's step keeps the accounts; while it moves the cursor it holds the lock. */
  lemma HandleAccount(s: State)
    requires Stored(s.mem, s.wp) && HandlerOk(s) && !s.handler.Quiet? && s.removed + Content(s.mem, s.wp) == s.stored
    ensures var s' := Handle(s);
            && Stored(s'.mem, s'.wp) && HandlerOk(s') && s'.removed + Content(s'.mem, s'.wp) == s'.stored
            && (s.handler.Advance? || (s'.wp == s.wp && Content(s'.mem, s'.wp) == Content(s.mem, s.wp)))
  {
    hide AllBlocks;
    var s' := Handle(s);
    match s.handler
    case Entered(fifo) => FetchPending(fifo);
    case Fetch(fifo) => FetchPending(fifo);
    case Spin(_, _) =>
    case Store(result, fifo) => StoreKeepsContent(s.mem, s.wp, result);
    case Advance(result, fifo) =>
      AdvanceContent(s.mem, s.wp);
      assert s.stored + Pending(s.handler) == s'.stored + Pending(s'.handler) by {
        if result == ONES { assert s.stored + [ONES] == s'.stored + []; }
        else { assert s.stored + ([result] + fifo + [ONES]) == s.stored + [result] + (fifo + [ONES]); }
      }
      assert s.removed + Content(s'.mem, s'.wp) == (s.removed + Content(s.mem, s.wp)) + [result];
    case Leave =>
  }

  lemma FetchPending(fifo: seq<Word>)
    requires ONES !in fifo
    ensures Pending(Store(Head(fifo), Rest(fifo))) == fifo + [ONES] == Pending(Spin(Head(fifo), Rest(fifo)))
    ensures ONES !in Rest(fifo) && (Head(fifo) == ONES ==> Rest(fifo) == [])
  {
    if fifo != [] {
      assert fifo[0] in fifo;
      assert fifo == [fifo[0]] + fifo[1..];
    }
  }

  lemma StoreKeepsContent(mem: Memory, wp: nat, x: Word)
    requires Stored(mem, wp)
    ensures Stored(mem[wp := x], wp) && Content(mem[wp := x], wp) == Content(mem, wp)
  {
  }

  lemma AdvanceContent(mem: Memory, wp: nat)
    requires Stored(mem, wp) && wp in mem
    ensures Stored(mem, wp + 4) && Content(mem, wp + 4) == Content(mem, wp) + [mem[wp]]
  {
    assert mem == mem[wp := mem[wp]];
    ContentAppend(mem, wp, mem[wp]);
  }

  lemma ReadKeeps(c: Config, s: State, t: nat, fault: bool)
    requires Inv(c, s) && Enabled(c, s, ReaderStep(t, fault))
    ensures Inv(c, Read(s, t, fault))
  {
    hide AllBlocks;
    var s' := Read(s, t, fault);
    assert ReaderOk(s, t);
    ReadAccount(s, t, fault);
    forall u: nat ensures ReaderOk(s', u) { assert ReaderOk(s, u); }
  }

  lemma ReadAccount(s: State, t: nat, fault: bool)
    requires Stored(s.mem, s.wp) && ReaderOk(s, t) && s.removed + Content(s.mem, s.wp) == s.stored && !Pc(s, t).Outside?
    requires !InCritical(s.handler) || Pc(s, t).Tested? || Pc(s, t).Outside?
    requires Pc(s, t).Tested? ==> s.lock.Free?
    ensures var s' := Read(s, t, fault);
            && Stored(s'.mem, s'.wp) && s'.removed + Content(s'.mem, s'.wp) == s'.stored && ReaderOk(s', t)
            && (s.lock.Reader? || (s'.wp == s.wp && s'.mem == s.mem))
  {
    var s' := Read(s, t, fault);
    match Pc(s, t)
    case Outside =>
    case Tested =>
    case Copying(rp, copied) =>
      if rp != s.wp && !fault {
        assert rp == 4 * (rp / 4);
        assert Content(s.mem, s.wp)[rp / 4] == WordAt(s.mem, rp);
      } else if rp == s.wp {
        assert copied == Content(s.mem, s.wp);
        assert s'.removed + Content(s'.mem, 0) == s'.removed;
      }
    case Rewound =>
      assert s'.removed + Content(s'.mem, s'.wp) == s.removed + Content(s.mem, s.wp);
  }

  lemma StepKeeps(c: Config, s: State, e: Event)
    requires Inv(c, s)
    ensures Inv(c, Step(c, s, e))
  {
    if Enabled(c, s, e) {
      match e
      case Interrupt(p, content) =>
        var s' := Step(c, s, e);
        assert s'.dumps[..|s.dumps|] == s.dumps;
        assert s.stored + [] == s.stored;
        assert s'.stored + Pending(s'.handler) == AllBlocks(s'.dumps);
        forall u: nat ensures ReaderOk(s', u) { assert ReaderOk(s, u); }
      case HandlerStep => HandleKeeps(c, s);
      case Call(t) =>
        var s' := Step(c, s, e);
        forall u: nat ensures ReaderOk(s', u) { assert ReaderOk(s, u); }
      case ReaderStep(t, fault) => ReadKeeps(c, s, t, fault);
    }
  }

  lemma {:induction false} Always(c: Config, es: seq<Event>)
    ensures Inv(c, Run(c, es))
  {
    if es == [] {
      assert forall t: nat :: ReaderOk(Run(c, es), t);
    } else {
      Always(c, es[..|es| - 1]);
      StepKeeps(c, Run(c, es[..|es| - 1]), es[|es| - 1]);
    }
  }

  // ---- What holds in every interleaving ----

  /**
   * The words successful reads removed, followed by the words still in the buffer, are all words stored, in order; and with
   * the words the current dump has yet to store they are all blocks dumped, complete and in order.
   */
  lemma Conservation(c: Config, es: seq<Event>)
    ensures var s := Run(c, es);
            && Stored(s.mem, s.wp) && s.removed + Content(s.mem, s.wp) == s.stored
            && s.stored + Pending(s.handler) == AllBlocks(s.dumps)
            && (s.handler.Quiet? ==> s.removed + Content(s.mem, s.wp) == AllBlocks(s.dumps))
  {
    Always(c, es);
    var s := Run(c, es);
    assert s.stored + [] == s.stored;
  }

  /** A read that fails with -EFAULT removes nothing: the same words are offered again. */
  lemma FaultRemovesNothing(c: Config, es: seq<Event>, t: nat)
    requires var s := Run(c, es); Enabled(c, s, ReaderStep(t, true)) && Pc(s, t).Copying? && Pc(s, t).readPoint != s.wp
    ensures var s := Run(c, es); var s' := Step(c, s, ReaderStep(t, true));
            && Stored(s'.mem, s'.wp) && Content(s'.mem, s'.wp) == Content(s.mem, s.wp) && s'.removed == s.removed
                && s'.stored == s.stored
            && Pc(s', t).Outside? && s'.lock.Free?
  {
    Always(c, es);
  }

  /** What a successful read returns is exactly what the buffer held, however its unlocked test raced with others. */
  lemma SuccessTakesAll(c: Config, es: seq<Event>, t: nat, fault: bool)
    requires var s := Run(c, es); Enabled(c, s, ReaderStep(t, fault)) && Pc(s, t).Copying? && Pc(s, t).readPoint == s.wp
    ensures var s := Run(c, es); var s' := Step(c, s, ReaderStep(t, fault));
            && Stored(s.mem, s.wp) && Pc(s, t).copied == Content(s.mem, s.wp) && s'.wp == 0
                && s'.removed == s.removed + Content(s.mem, s.wp)
  {
    Always(c, es);
    var s := Run(c, es);
    assert ReaderOk(s, t);
    assert Pc(s, t).copied == Content(s.mem, s.wp)[..s.wp / 4];
  }

  /** A dump's and a read's critical sections never overlap, nor do two reads'. */
  lemma MutualExclusion(c: Config, es: seq<Event>, t: nat, u: nat)
    ensures var s := Run(c, es);
            && !(InCritical(s.handler) && Holding(Pc(s, t)))
            && (Holding(Pc(s, t)) && Holding(Pc(s, u)) ==> t == u)
  {
    Always(c, es);
    var s := Run(c, es);
    assert ReaderOk(s, t) && ReaderOk(s, u);
  }

  // ---- The dump, whatever readers do meanwhile ----

  /** The steps a dump inside its critical section still has to make. */
  function Work(h: HandlerPc): nat
  {
    match h
    case Store(result, fifo) => if result == ONES then 3 else 6 + 3 * |fifo|
    case Advance(result, fifo) => if result == ONES then 2 else 5 + 3 * |fifo|
    case Fetch(fifo) => 4 + 3 * |fifo|
    case Leave => 1
    case _ => 0
  }

  function HandlerSteps(es: seq<Event>): nat
  {
    if es == [] then 0 else HandlerSteps(es[..|es| - 1]) + if es[|es| - 1].HandlerStep? then 1 else 0
  }

  /** One event of anybody while a dump holds the lock: only the dump itself changes the buffer, and each of its steps counts. */
  lemma CriticalStep(c: Config, s: State, e: Event)
    requires Inv(c, s) && InCritical(s.handler)
    ensures var t := Step(c, s, e);
            && Inv(c, t) && t.removed == s.removed && t.dumps == s.dumps && (InCritical(t.handler) || t.handler.Quiet?)
            && Content(t.mem, t.wp) + Pending(t.handler) == Content(s.mem, s.wp) + Pending(s.handler)
            && Work(t.handler) + (if e.HandlerStep? then 1 else 0) == Work(s.handler)
  {
    hide AllBlocks;
    StepKeeps(c, s, e);
    var t := Step(c, s, e);
    if e.ReaderStep? { assert ReaderOk(s, e.t); }
    if e.HandlerStep? { CriticalContent(s); }
  }

  lemma CriticalContent(s: State)
    requires Stored(s.mem, s.wp) && HandlerOk(s) && InCritical(s.handler)
    ensures var t := Handle(s);
            Stored(t.mem, t.wp) && Content(t.mem, t.wp) + Pending(t.handler) == Content(s.mem, s.wp) + Pending(s.handler)
  {
    hide AllBlocks;
    match s.handler
    case Store(result, _) => StoreKeepsContent(s.mem, s.wp, result);
    case Advance(result, fifo) =>
      AdvanceContent(s.mem, s.wp);
      var x := Content(s.mem, s.wp);
      if result == ONES { assert x + [ONES] == x + [ONES] + []; }
      else { assert x + ([result] + fifo + [ONES]) == x + [result] + (fifo + [ONES]); }
    case Fetch(fifo) => FetchPending(fifo);
    case Leave => assert Content(s.mem, s.wp) + [] == Content(s.mem, s.wp);
  }

  lemma RunMore(c: Config, es: seq<Event>, e: Event)
    ensures Run(c, es + [e]) == Step(c, Run(c, es), e)
  {
    assert (es + [e])[..|es|] == es;
  }

  /** Between the moment `es`, at which a dump holds the lock, and `es + ys` the dump has not yet released it and gone on. */
  ghost predicate WithinDump(c: Config, es: seq<Event>, ys: seq<Event>)
  {
    forall k :: 0 <= k < |ys| ==> InCritical(Run(c, es + ys[..k]).handler)
  }

  /**
   * From any moment at which a dump holds the lock until it has released it, under any events of any thread, nothing is
   * removed, and what the buffer holds together with what the dump has yet to store does not change. In particular, on
   * release the buffer holds exactly what it held at the lock followed by the words then pending. The dump ends after
   * exactly `Work` of its own steps, none of which can be blocked.
   */
  lemma {:induction false} DumpAppends(c: Config, es: seq<Event>, ys: seq<Event>)
    requires InCritical(Run(c, es).handler) && WithinDump(c, es, ys)
    ensures var s, t := Run(c, es), Run(c, es + ys);
            && Stored(s.mem, s.wp) && Stored(t.mem, t.wp) && t.removed == s.removed && t.dumps == s.dumps
            && Content(t.mem, t.wp) + Pending(t.handler) == Content(s.mem, s.wp) + Pending(s.handler)
            && (t.handler.Quiet? ==> Content(t.mem, t.wp) == Content(s.mem, s.wp) + Pending(s.handler))
            && Work(t.handler) + HandlerSteps(ys) == Work(s.handler)
            && (t.handler.Quiet? <==> HandlerSteps(ys) == Work(s.handler))
            && (!t.handler.Quiet? ==> InCritical(t.handler) && Enabled(c, t, HandlerStep))
  {
    hide Step, Content, Pending;
    Always(c, es);
    if ys == [] {
      assert es + ys == es;
    } else {
      var zs, e := ys[..|ys| - 1], ys[|ys| - 1];
      assert es + ys == (es + zs) + [e];
      forall k | 0 <= k < |zs| ensures InCritical(Run(c, es + zs[..k]).handler) { assert zs[..k] == ys[..k]; }
      DumpAppends(c, es, zs);
      Always(c, es + zs);
      CriticalStep(c, Run(c, es + zs), e);
      RunMore(c, es + zs, e);
    }
    PendingQuiet(Run(c, es + ys));
  }

  lemma PendingQuiet(t: State)
    requires Stored(t.mem, t.wp)
    ensures t.handler.Quiet? ==> Content(t.mem, t.wp) + Pending(t.handler) == Content(t.mem, t.wp)
    ensures InCritical(t.handler) ==> Work(t.handler) > 0
    ensures t.handler.Quiet? ==> Work(t.handler) == 0
  {
  }

  /** From the interrupt until it has the lock, whatever others do, a dump has its whole content and the terminator to store. */
  lemma {:induction false} PendingUntilLock(c: Config, es: seq<Event>, p: nat, content: seq<Word>, ys: seq<Event>)
    requires Enabled(c, Run(c, es), Interrupt(p, content))
    requires forall k :: 0 <= k < |ys| ==> !InCritical(Run(c, es + [Interrupt(p, content)] + ys[..k]).handler)
    ensures var s := Run(c, es + [Interrupt(p, content)] + ys);
            Pending(s.handler) == content + [ONES] && (s.handler.Entered? || s.handler.Spin? || s.handler.Store?)
    ensures Run(c, es + [Interrupt(p, content)] + ys).dumps == Run(c, es).dumps + [content]
  {
    var start := es + [Interrupt(p, content)];
    RunMore(c, es, Interrupt(p, content));
    if ys == [] {
      assert start + ys == start;
    } else {
      hide Run, Step, Inv, HandlerOk, Pending;
      var zs, e := ys[..|ys| - 1], ys[|ys| - 1];
      assert start + ys == (start + zs) + [e];
      forall k | 0 <= k < |zs| ensures !InCritical(Run(c, start + zs[..k]).handler) { assert zs[..k] == ys[..k]; }
      PendingUntilLock(c, es, p, content, zs);
      RunMore(c, start + zs, e);
      Always(c, start + zs);
      assert !InCritical(Run(c, start + zs).handler);
      InvHandler(c, Run(c, start + zs));
      BeforeLockStep(c, Run(c, start + zs), e);
    }
  }

  lemma BeforeLockStep(c: Config, s: State, e: Event)
    requires HandlerOk(s) && (s.handler.Entered? || s.handler.Spin?)
    ensures var t := Step(c, s, e);
            && Pending(t.handler) == Pending(s.handler) && t.dumps == s.dumps
            && (t.handler.Entered? || t.handler.Spin? || t.handler.Store?)
  {
    hide AllBlocks;
    if s.handler.Entered? { FetchPending(s.handler.fifo); }
  }

  lemma InvHandler(c: Config, s: State)
    requires Inv(c, s)
    ensures HandlerOk(s)
  {
  }

  /**
   * A whole dump: an interrupt with `content`, any events `ys` until the dump has taken the lock, any events `zs` until it has
   * released it. It appends exactly its content and one terminator to what the buffer held when it took the lock.
   */
  lemma {:induction false} DumpAppendsContent(c: Config, es: seq<Event>, p: nat, content: seq<Word>, ys: seq<Event>,
      zs: seq<Event>)
    requires Enabled(c, Run(c, es), Interrupt(p, content))
    requires forall k :: 0 <= k < |ys| ==> !InCritical(Run(c, es + [Interrupt(p, content)] + ys[..k]).handler)
    requires var lock := es + [Interrupt(p, content)] + ys;
             InCritical(Run(c, lock).handler) && WithinDump(c, lock, zs) && Run(c, lock + zs).handler.Quiet?
    ensures var lock := es + [Interrupt(p, content)] + ys; var s, t := Run(c, lock), Run(c, lock + zs);
            && Stored(s.mem, s.wp) && Stored(t.mem, t.wp)
            && Content(t.mem, t.wp) == Content(s.mem, s.wp) + content + [ONES]
  {
    hide Run, Pending, Content, Work;
    var lock := es + [Interrupt(p, content)] + ys;
    PendingUntilLock(c, es, p, content, ys);
    DumpAppends(c, lock, zs);
    var x := Content(Run(c, lock).mem, Run(c, lock).wp);
    assert x + (content + [ONES]) == x + content + [ONES];
  }

  // ---- The read, whatever others do meanwhile ----

  /**
   * One step of a reader inside the loop: it leaves the loop before the end exactly if its copy faults, and otherwise goes
   * on with the lock held, having copied the next word of the buffer.
   */
  lemma CopyStep(c: Config, es: seq<Event>, t: nat, fault: bool)
    requires var s := Run(c, es); Enabled(c, s, ReaderStep(t, fault)) && Pc(s, t).Copying? && Pc(s, t).readPoint != s.wp
    ensures var s := Run(c, es); var s' := Step(c, s, ReaderStep(t, fault)); var k := Pc(s, t).readPoint / 4;
            && (fault <==> Pc(s', t).Outside?) && (fault <==> s'.lock.Free?)
            && Stored(s.mem, s.wp) && 4 * k == Pc(s, t).readPoint && k < |Content(s.mem, s.wp)|
            && (!fault ==> Pc(s', t) == Copying(4 * (k + 1), Pc(s, t).copied + [Content(s.mem, s.wp)[k]]) && s'.lock == Reader(t))
            && s'.mem == s.mem && s'.wp == s.wp && s'.removed == s.removed && s'.handler == s.handler
  {
    Always(c, es);
    assert ReaderOk(Run(c, es), t);
  }

  /** The steps a reader that holds the lock still has to make. */
  function ReadWork(s: State, t: nat): nat
  {
    match Pc(s, t)
    case Copying(rp, _) => if rp <= s.wp then (s.wp - rp) / 4 + 2 else 0
    case Rewound => 1
    case _ => 0
  }

  /** Whether event e, in state s, is a step of thread t; and whether it is one whose copy faults. */
  predicate OwnStep(c: Config, s: State, e: Event, t: nat) { e.ReaderStep? && e.t == t && Enabled(c, s, e) }

  predicate Faults(c: Config, s: State, e: Event, t: nat)
  {
    OwnStep(c, s, e, t) && e.fault && Pc(s, t).Copying? && Pc(s, t).readPoint != s.wp
  }

  /** The steps thread t makes in the events `ys` that follow `es`. */
  function OwnSteps(c: Config, es: seq<Event>, ys: seq<Event>, t: nat): nat
  {
    if ys == [] then 0
    else
      OwnSteps(c, es, ys[..|ys| - 1], t) + if OwnStep(c, Run(c, es + ys[..|ys| - 1]), ys[|ys| - 1], t) then 1 else 0
  }

  /** From `es` on, throughout `ys`, thread t holds the lock, and none of its copies faults. */
  ghost predicate WithinRead(c: Config, es: seq<Event>, ys: seq<Event>, t: nat)
  {
    forall k :: 0 <= k < |ys| ==> Holding(Pc(Run(c, es + ys[..k]), t)) && !Faults(c, Run(c, es + ys[..k]), ys[k], t)
  }

  /** What has become of buffer content `x` and of the words `gone` before it, for a reader that started on it. */
  ghost predicate Progressed(s: State, t: nat, gone: seq<Word>, x: seq<Word>)
    requires Stored(s.mem, s.wp)
  {
    && (Pc(s, t).Copying? ==> s.removed == gone && Content(s.mem, s.wp) == x)
    && (!Pc(s, t).Copying? ==> s.removed == gone + x && s.wp == 0)
    && (Pc(s, t).Outside? ==> s.lock.Free? && forall a :: 0 <= a < 0x1_0000 ==> WordAt(s.mem, a) == 0)
  }

  /** One event of anybody while t holds the lock and does not fault: only its own steps change the buffer, and each counts. */
  lemma HeldStep(c: Config, s: State, e: Event, t: nat, gone: seq<Word>, x: seq<Word>)
    requires Inv(c, s) && Holding(Pc(s, t)) && !Faults(c, s, e, t) && Progressed(s, t, gone, x)
    ensures var u := Step(c, s, e);
            && Inv(c, u) && (Holding(Pc(u, t)) || Pc(u, t).Outside?) && Progressed(u, t, gone, x)
            && ReadWork(u, t) + (if OwnStep(c, s, e, t) then 1 else 0) == ReadWork(s, t)
  {
    hide AllBlocks;
    StepKeeps(c, s, e);
    assert ReaderOk(s, t);
    var u := Step(c, s, e);
    assert ReaderOk(u, t);
    if e.ReaderStep? && e.t != t { assert ReaderOk(s, e.t); }
    if OwnStep(c, s, e, t) { OwnStepProgress(s, t, e.fault, gone, x); }
  }

  lemma OwnStepProgress(s: State, t: nat, fault: bool, gone: seq<Word>, x: seq<Word>)
    requires Stored(s.mem, s.wp) && ReaderOk(s, t) && Holding(Pc(s, t)) && Progressed(s, t, gone, x)
    requires !(fault && Pc(s, t).Copying? && Pc(s, t).readPoint != s.wp)
    ensures var u := Read(s, t, fault);
            Stored(u.mem, u.wp) && Progressed(u, t, gone, x) && ReadWork(u, t) + 1 == ReadWork(s, t)
  {
    if Pc(s, t).Copying? && Pc(s, t).readPoint == s.wp { assert Pc(s, t).copied == Content(s.mem, s.wp); }
  }

  /**
   * From any moment at which a reader is in the loop with the lock held, under any events of any thread in which none of its
   * copies faults: after exactly (wp - readPoint) / 4 + 2 of its own steps, and not before, it is outside with the lock
   * released, the buffer is empty and zero, and the words removed have grown by exactly what the buffer held.
   */
  lemma {:induction false} ReadCompletes(c: Config, es: seq<Event>, ys: seq<Event>, t: nat)
    requires Pc(Run(c, es), t).Copying? && WithinRead(c, es, ys, t)
    ensures var s, u := Run(c, es), Run(c, es + ys); var n := OwnSteps(c, es, ys, t);
            && Stored(s.mem, s.wp) && Stored(u.mem, u.wp) && Pc(s, t).readPoint <= s.wp
            && n + ReadWork(u, t) == (s.wp - Pc(s, t).readPoint) / 4 + 2
            && (Pc(u, t).Outside? <==> n == (s.wp - Pc(s, t).readPoint) / 4 + 2)
            && (Pc(u, t).Copying? ==> u.removed == s.removed && Content(u.mem, u.wp) == Content(s.mem, s.wp))
            && (Pc(u, t).Outside? ==> u.lock.Free? && u.wp == 0 && u.removed == s.removed + Content(s.mem, s.wp))
            && (Pc(u, t).Outside? ==> forall a :: 0 <= a < 0x1_0000 ==> WordAt(u.mem, a) == 0)
            && (!Pc(u, t).Outside? ==> Holding(Pc(u, t)) && (Enabled(c, u, ReaderStep(t, false)) <==> CanRun(c, u, t)))
  {
    hide Step, Content, Run, WordAt;
    ReadProgress(c, es, ys, t);
    Always(c, es);
    Always(c, es + ys);
    WorkLeft(c, Run(c, es), t);
    WorkLeft(c, Run(c, es + ys), t);
  }

  lemma WorkLeft(c: Config, s: State, t: nat)
    requires Inv(c, s)
    ensures Holding(Pc(s, t)) ==> ReadWork(s, t) > 0 && (Enabled(c, s, ReaderStep(t, false)) <==> CanRun(c, s, t))
    ensures Pc(s, t).Outside? ==> ReadWork(s, t) == 0
    ensures Pc(s, t).Copying? ==> Pc(s, t).readPoint <= s.wp && ReadWork(s, t) == (s.wp - Pc(s, t).readPoint) / 4 + 2
  {
    assert ReaderOk(s, t);
  }

  lemma {:induction false} ReadProgress(c: Config, es: seq<Event>, ys: seq<Event>, t: nat)
    requires Pc(Run(c, es), t).Copying? && WithinRead(c, es, ys, t)
    ensures var s, u := Run(c, es), Run(c, es + ys);
            && Stored(s.mem, s.wp) && Stored(u.mem, u.wp) && Progressed(u, t, s.removed, Content(s.mem, s.wp))
            && (Holding(Pc(u, t)) || Pc(u, t).Outside?) && OwnSteps(c, es, ys, t) + ReadWork(u, t) == ReadWork(s, t)
  {
    hide Step, Content, Progressed, ReadWork;
    Always(c, es);
    if ys == [] {
      assert es + ys == es;
      StartsProgress(Run(c, es), t);
    } else {
      var zs, e := ys[..|ys| - 1], ys[|ys| - 1];
      assert es + ys == (es + zs) + [e];
      forall k | 0 <= k < |zs| ensures Holding(Pc(Run(c, es + zs[..k]), t)) && !Faults(c, Run(c, es + zs[..k]), zs[k], t) {
        assert zs[..k] == ys[..k];
      }
      ReadProgress(c, es, zs, t);
      Always(c, es + zs);
      HeldStep(c, Run(c, es + zs), e, t, Run(c, es).removed, Content(Run(c, es).mem, Run(c, es).wp));
      RunMore(c, es + zs, e);
    }
  }

  lemma StartsProgress(s: State, t: nat)
    requires Stored(s.mem, s.wp) && Pc(s, t).Copying?
    ensures Progressed(s, t, s.removed, Content(s.mem, s.wp))
  {
  }

  /** A reader in the loop that can run completes by its own steps. */
  lemma ReadEnds(c: Config, es: seq<Event>, t: nat) returns (ys: seq<Event>)
    requires Pc(Run(c, es), t).Copying? && CanRun(c, Run(c, es), t)
    ensures WithinRead(c, es, ys, t) && Pc(Run(c, es + ys), t).Outside?
  {
    hide Run, ReadWork, Content, WordAt;
    ys := [];
    assert es + [] == es;
    while !Pc(Run(c, es + ys), t).Outside?
      invariant WithinRead(c, es, ys, t) && (Pc(Run(c, es + ys), t).Outside? || CanRun(c, Run(c, es + ys), t))
      decreases ReadWork(Run(c, es), t) - OwnSteps(c, es, ys, t), Pc(Run(c, es + ys), t).Outside?
    {
      var zs := ys + [ReaderStep(t, false)];
      ReadCompletes(c, es, ys, t);
      forall k | 0 <= k < |zs| ensures Holding(Pc(Run(c, es + zs[..k]), t)) && !Faults(c, Run(c, es + zs[..k]), zs[k], t) {
        assert zs[..k] == ys[..k];
        assert ys[..|ys|] == ys;
      }
      assert zs[..|zs| - 1] == ys;
      ReadProgress(c, es, ys, t);
      ReadProgress(c, es, zs, t);
      assert es + zs == (es + ys) + [ReaderStep(t, false)];
      RunMore(c, es + ys, ReaderStep(t, false));
      Always(c, es + ys);
      CanGoOn(c, Run(c, es + ys), t);
      ys := zs;
    }
  }

  lemma CanGoOn(c: Config, s: State, t: nat)
    requires Inv(c, s) && CanRun(c, s, t) && Holding(Pc(s, t))
    ensures CanRun(c, Step(c, s, ReaderStep(t, false)), t)
  {
    assert ReaderOk(s, t);
  }

  /**
   * A whole read that is not interrupted: whenever the lock is free and the buffer not empty, a thread that can run and calls
   * cs_read removes exactly what the buffer holds, and leaves the buffer empty and zero and the lock free.
   */
  lemma ReadTakesAll(c: Config, es: seq<Event>, t: nat) returns (ys: seq<Event>)
    requires var s := Run(c, es); Pc(s, t).Outside? && CanRun(c, s, t) && s.lock.Free? && s.wp != 0
    ensures var s, u := Run(c, es), Run(c, es + ys);
            && Stored(s.mem, s.wp) && u.removed == s.removed + Content(s.mem, s.wp) && u.wp == 0 && u.lock.Free?
            && Pc(u, t).Outside? && forall a :: 0 <= a < 0x1_0000 ==> WordAt(u.mem, a) == 0
  {
    var start := es + [Call(t)] + [ReaderStep(t, false)];
    Always(c, es);
    RunMore(c, es, Call(t));
    RunMore(c, es + [Call(t)], ReaderStep(t, false));
    hide Run, Content, WordAt;
    var zs := ReadEnds(c, start, t);
    ReadCompletes(c, start, zs, t);
    ys := [Call(t)] + [ReaderStep(t, false)] + zs;
    assert es + ys == start + zs;
  }

  // ---- What readers can make of it ----

  lemma {:induction false} BlocksParse(dumps: seq<seq<Word>>)
    requires forall k :: 0 <= k < |dumps| ==> ONES !in dumps[k]
    ensures Parse(AllBlocks(dumps)) == (dumps, [])
  {
    if dumps != [] {
      hide Parse;
      var n := |dumps| - 1;
      BlocksParse(dumps[..n]);
      ParseBlock(AllBlocks(dumps[..n]), dumps[n]);
      assert dumps == dumps[..n] + [dumps[n]];
    } else {
      assert Parse([]) == ([], []);
    }
  }

  lemma {:induction false} DumpsClean(c: Config, es: seq<Event>)
    ensures forall k :: 0 <= k < |Run(c, es).dumps| ==> ONES !in Run(c, es).dumps[k]
  {
    if es != [] { DumpsClean(c, es[..|es| - 1]); }
  }

  /**
   * Whenever no dump is under way, splitting what successful reads have returned, followed by what is still in the buffer, at
   * the terminators gives exactly the list of contents dumped so far.
   */
  lemma {:induction false} ReadersDecode(c: Config, es: seq<Event>)
    requires Run(c, es).handler.Quiet?
    ensures var s := Run(c, es); Stored(s.mem, s.wp) && Parse(s.removed + Content(s.mem, s.wp)) == (s.dumps, [])
  {
    hide Run, Parse, AllBlocks;
    Conservation(c, es);
    DumpsClean(c, es);
    BlocksParse(Run(c, es).dumps);
  }

  // ---- Capacity ----

  /** Whether event e, in state s, moves the cursor on by one word; and whether it rewinds it. */
  predicate Moves(c: Config, s: State, e: Event) { e.HandlerStep? && Enabled(c, s, e) && s.handler.Advance? }

  predicate Rewinds(c: Config, s: State, e: Event)
  {
    e.ReaderStep? && Enabled(c, s, e) && Pc(s, e.t).Copying? && Pc(s, e.t).readPoint == s.wp
  }

  /** Counted from the events: the words stored since the last read that succeeded. */
  function SinceRewind(c: Config, es: seq<Event>): nat
  {
    if es == [] then 0
    else
      var prev, e := es[..|es| - 1], es[|es| - 1];
      if Rewinds(c, Run(c, prev), e) then 0
      else SinceRewind(c, prev) + if Moves(c, Run(c, prev), e) then 1 else 0
  }

  /** Including a word written at the cursor that the cursor has yet to move over. */
  function Written(c: Config, es: seq<Event>): nat
  {
    SinceRewind(c, es) + if Run(c, es).handler.Advance? then 1 else 0
  }

  lemma CursorStep(c: Config, s: State, e: Event)
    ensures Step(c, s, e).wp == if Rewinds(c, s, e) then 0 else if Moves(c, s, e) then s.wp + 4 else s.wp
  {
  }

  /** In every interleaving the cursor is four times the words stored since the last rewind: so it is always aligned. */
  lemma {:induction false} CursorIsCount(c: Config, es: seq<Event>)
    ensures Run(c, es).wp == 4 * SinceRewind(c, es)
    ensures Stored(Run(c, es).mem, Run(c, es).wp) && Run(c, es).wp == 4 * (|Run(c, es).stored| - |Run(c, es).removed|)
  {
    Conservation(c, es);
    if es != [] {
      CursorIsCount(c, es[..|es| - 1]);
      CursorStep(c, Run(c, es[..|es| - 1]), es[|es| - 1]);
    }
  }

  /** The cursor stays within the allocation throughout a run exactly if at every moment at most 0x4000 words are counted. */
  lemma {:induction false} CursorInBoundsIff(c: Config, es: seq<Event>)
    ensures (forall k :: 0 <= k <= |es| ==> Run(c, es[..k]).wp <= BUFFER_SIZE)
       <==> (forall k :: 0 <= k <= |es| ==> SinceRewind(c, es[..k]) <= 0x4000)
  {
    hide Run, SinceRewind;
    forall k | 0 <= k <= |es| ensures Run(c, es[..k]).wp <= BUFFER_SIZE <==> SinceRewind(c, es[..k]) <= 0x4000 {
      CursorIsCount(c, es[..k]);
    }
  }

  /** No word has been written at or past the end of the allocation. */
  ghost predicate Contained(mem: Memory) { forall a :: a in mem ==> a < BUFFER_SIZE }

  lemma {:induction false} WrittenContained(c: Config, es: seq<Event>)
    requires forall k :: 0 <= k <= |es| ==> Written(c, es[..k]) <= 0x4000
    ensures Contained(Run(c, es).mem)
  {
    if es != [] {
      hide SinceRewind;
      var prev, e := es[..|es| - 1], es[|es| - 1];
      forall k | 0 <= k <= |prev| ensures Written(c, prev[..k]) <= 0x4000 { assert prev[..k] == es[..k]; }
      WrittenContained(c, prev);
      assert es[..|es|] == es;
      CursorIsCount(c, es);
    }
  }

  lemma BeyondWritten(c: Config, es: seq<Event>)
    requires Written(c, es) > 0x4000
    ensures !Contained(Run(c, es).mem)
  {
    Always(c, es);
    CursorIsCount(c, es);
    var s := Run(c, es);
    if s.wp > BUFFER_SIZE {
      assert 4 * 0x4000 in s.mem;
    } else {
      assert s.wp in s.mem;
    }
  }

  /** A run never writes past the allocation exactly if at every moment at most 0x4000 words were written since the last rewind. */
  lemma {:induction false} WritesInBoundsIff(c: Config, es: seq<Event>)
    ensures (forall k :: 0 <= k <= |es| ==> Contained(Run(c, es[..k]).mem))
       <==> (forall k :: 0 <= k <= |es| ==> Written(c, es[..k]) <= 0x4000)
  {
    hide Run, SinceRewind, Written, Contained;
    if forall k :: 0 <= k <= |es| ==> Written(c, es[..k]) <= 0x4000 {
      forall k | 0 <= k <= |es| ensures Contained(Run(c, es[..k]).mem) {
        forall j | 0 <= j <= |es[..k]| ensures Written(c, es[..k][..j]) <= 0x4000 { assert es[..k][..j] == es[..j]; }
        WrittenContained(c, es[..k]);
      }
    } else {
      var k :| 0 <= k <= |es| && Written(c, es[..k]) > 0x4000;
      BeyondWritten(c, es[..k]);
    }
  }

  /**
   * A dump that finds the buffer empty when it takes the lock, with `n` words and the terminator to store, leaves the cursor
   * at 4 * (n + 1), whatever readers do: inside the allocation exactly if n <= 0x3FFF.
   */
  lemma {:induction false} OneDumpFits(c: Config, es: seq<Event>, ys: seq<Event>, n: nat)
    requires InCritical(Run(c, es).handler) && WithinDump(c, es, ys) && Run(c, es + ys).handler.Quiet?
    requires Run(c, es).wp == 0 && |Pending(Run(c, es).handler)| == n + 1
    ensures Run(c, es + ys).wp == 4 * (n + 1) && (Run(c, es + ys).wp <= BUFFER_SIZE <==> n <= 0x3FFF)
  {
    hide Run, Pending, Work;
    DumpAppends(c, es, ys);
    CursorIsCount(c, es + ys);
  }

  /** Handler steps alone bring a dump that holds the lock to its release. */
  lemma DumpEnds(c: Config, es: seq<Event>) returns (ys: seq<Event>)
    requires InCritical(Run(c, es).handler)
    ensures WithinDump(c, es, ys) && Run(c, es + ys).handler.Quiet?
  {
    hide Run, Work, Pending;
    ys := [];
    assert es + [] == es;
    DumpAppends(c, es, ys);
    while !Run(c, es + ys).handler.Quiet?
      invariant WithinDump(c, es, ys)
      invariant !Run(c, es + ys).handler.Quiet? ==> InCritical(Run(c, es + ys).handler)
      decreases Work(Run(c, es).handler) - HandlerSteps(ys), Run(c, es + ys).handler.Quiet?
    {
      var zs := ys + [HandlerStep];
      forall k | 0 <= k < |zs| ensures InCritical(Run(c, es + zs[..k]).handler) {
        assert zs[..k] == ys[..k];
        assert ys[..|ys|] == ys;
      }
      assert zs[..|zs| - 1] == ys;
      DumpAppends(c, es, ys);
      DumpAppends(c, es, zs);
      ys := zs;
    }
  }

  lemma {:induction false} HandlerStepsSum(a: seq<Event>, b: seq<Event>)
    ensures HandlerSteps(a + b) == HandlerSteps(a) + HandlerSteps(b)
  {
    if b == [] {
      assert a + b == a;
    } else {
      var u := a + b;
      assert u[..|u| - 1] == a + b[..|b| - 1] && u[|u| - 1] == b[|b| - 1];
      HandlerStepsSum(a, b[..|b| - 1]);
    }
  }

  /** With a free lock and an interrupt whose sink holds `content`, two steps of the handler bring it into its critical section. */
  lemma LockTaken(c: Config, es: seq<Event>, p: nat, content: seq<Word>)
    requires var s := Run(c, es); s.lock.Free? && Enabled(c, s, Interrupt(p, content))
    ensures var s, t := Run(c, es), Run(c, es + [Interrupt(p, content)] + [HandlerStep] + [HandlerStep]);
            && InCritical(t.handler) && Pending(t.handler) == content + [ONES] && Work(t.handler) == 3 * |content| + 3
            && t.mem == s.mem && t.wp == s.wp && t.removed == s.removed
  {
    RunMore(c, es, Interrupt(p, content));
    RunMore(c, es + [Interrupt(p, content)], HandlerStep);
    RunMore(c, es + [Interrupt(p, content)] + [HandlerStep], HandlerStep);
    FetchPending(content);
    if content != [] { assert content[0] in content; }
  }

  /**
   * A whole dump that is not interrupted: whenever the lock is free and no dump under way, an interrupt that finds `content` in
   * the sink stores it and one terminator, in 3 * |content| + 5 steps of the handler, and no longer holds the lock.
   */
  lemma DumpTakesAll(c: Config, es: seq<Event>, p: nat, content: seq<Word>) returns (ys: seq<Event>)
    requires var s := Run(c, es); s.handler.Quiet? && s.lock.Free? && ONES !in content
    ensures var s, t := Run(c, es), Run(c, es + ys);
            && Stored(s.mem, s.wp) && Stored(t.mem, t.wp) && Content(t.mem, t.wp) == Content(s.mem, s.wp) + content + [ONES]
            && t.removed == s.removed && t.handler.Quiet? && !t.lock.Handler? && HandlerSteps(ys) == 3 * |content| + 5
  {
    var first := [Interrupt(p, content)] + [HandlerStep] + [HandlerStep];
    var start := es + [Interrupt(p, content)] + [HandlerStep] + [HandlerStep];
    LockTaken(c, es, p, content);
    hide Run, Pending, Work, Content;
    var zs := DumpEnds(c, start);
    DumpAppends(c, start, zs);
    ys := first + zs;
    assert es + ys == start + zs;
    HandlerStepsSum(first, zs);
    assert HandlerSteps(first) == 2 by {
      HandlerStepsSum([Interrupt(p, content)] + [HandlerStep], [HandlerStep]);
      HandlerStepsSum([Interrupt(p, content)], [HandlerStep]);
      OneStep(Interrupt(p, content));
      OneStep(HandlerStep);
    }
    var x := Content(Run(c, es).mem, Run(c, es).wp);
    assert x + (content + [ONES]) == x + content + [ONES];
    Always(c, es + ys);
  }

  lemma OneStep(e: Event)
    ensures HandlerSteps([e]) == if e.HandlerStep? then 1 else 0
  {
    assert [e][..0] == [];
    assert HandlerSteps([]) == 0;
  }

  /**
   * The buffer is too small for the sink: from any state with an empty buffer and nothing under way, an interrupt that finds
   * a full 64 KB sink (0x4000 words) leads to a run that writes past the allocation.
   */
  lemma FullSinkOverruns(c: Config, es: seq<Event>, p: nat, content: seq<Word>) returns (ys: seq<Event>)
    requires var s := Run(c, es); s.handler.Quiet? && s.lock.Free? && s.wp == 0
    requires |content| == 0x4000 && ONES !in content
    ensures var t := Run(c, es + ys); t.handler.Quiet? && t.wp == BUFFER_SIZE + 4 && !Contained(t.mem)
  {
    var start := es + [Interrupt(p, content)] + [HandlerStep] + [HandlerStep];
    LockTaken(c, es, p, content);
    hide Run, Pending, Work;
    var zs := DumpEnds(c, start);
    OneDumpFits(c, start, zs, 0x4000);
    ys := [Interrupt(p, content)] + [HandlerStep] + [HandlerStep] + zs;
    assert es + ys == start + zs;
    CursorIsCount(c, es + ys);
    BeyondWritten(c, es + ys);
  }

  // ---- Progress ----

  ghost predicate Active(s: State) { !s.handler.Quiet? || exists t: nat :: !Pc(s, t).Outside? }

  /** Something is under way and nothing of it can move. */
  ghost predicate Stuck(c: Config, s: State)
  {
    Active(s) && !Enabled(c, s, HandlerStep) && forall t: nat :: !Enabled(c, s, ReaderStep(t, false))
  }

  /** The handler spins for a lock whose holder it has interrupted. */
  predicate SelfDeadlock(c: Config, s: State)
  {
    s.handler.Spin? && s.lock.Reader? && c.cpu(s.lock.t) == s.at
  }

  /** A reachable state is stuck exactly when the handler waits for a cs_read on its own CPU. */
  lemma StuckIff(c: Config, es: seq<Event>)
    ensures Stuck(c, Run(c, es)) <==> SelfDeadlock(c, Run(c, es))
  {
    Always(c, es);
    var s := Run(c, es);
    if SelfDeadlock(c, s) {
      forall t: nat ensures !Enabled(c, s, ReaderStep(t, false)) { assert ReaderOk(s, t) && ReaderOk(s, s.lock.t); }
    } else if Active(s) {
      var t := if s.lock.Reader? then s.lock.t else if s.handler.Quiet? then (var t: nat :| !Pc(s, t).Outside?; t) else 0;
      assert ReaderOk(s, t);
      assert Enabled(c, s, HandlerStep) || Enabled(c, s, ReaderStep(t, false));
    }
  }

  /** No reachable state is stuck if no interrupt is taken on a CPU whose cs_read holds the lock. */
  lemma NeverStuck(c: Config, es: seq<Event>)
    requires c.polite
    ensures !Stuck(c, Run(c, es))
  {
    Always(c, es);
    StuckIff(c, es);
  }

  /** Without that condition the deadlock is reachable, whatever CPU the reader is on. */
  lemma DeadlockReachable(c: Config, t: nat) returns (es: seq<Event>)
    requires !c.polite
    ensures Stuck(c, Run(c, es))
  {
    var p := c.cpu(t);
    // a dump of an empty sink, which stores one terminator
    es := [];
    RunMore(c, es, Interrupt(p, []));
    es := es + [Interrupt(p, [])];
    var i := 0;
    while i < 5
      invariant i <= 5
      invariant Run(c, es) == AfterHandlerSteps(p, i)
    {
      RunMore(c, es, HandlerStep);
      es := es + [HandlerStep];
      i := i + 1;
    }
    // a reader that takes the lock, and an interrupt on the reader's CPU
    RunMore(c, es, Call(t));
    es := es + [Call(t)];
    RunMore(c, es, ReaderStep(t, false));
    es := es + [ReaderStep(t, false)];
    RunMore(c, es, Interrupt(p, []));
    es := es + [Interrupt(p, [])];
    RunMore(c, es, HandlerStep);
    es := es + [HandlerStep];
    StuckIff(c, es);
  }

  /** The states of the first dump in the run above. */
  function AfterHandlerSteps(p: nat, i: nat): State
  {
    var m := map[0 := ONES];
    match i
    case 0 => State(Free, map[], 0, Entered([]), p, map[], [[]], [], [])
    case 1 => State(Free, map[], 0, Spin(ONES, []), p, map[], [[]], [], [])
    case 2 => State(Handler, map[], 0, Store(ONES, []), p, map[], [[]], [], [])
    case 3 => State(Handler, m, 0, Advance(ONES, []), p, map[], [[]], [], [])
    case 4 => State(Handler, m, 4, Leave, p, map[], [[]], [ONES], [])
    case _ => State(Free, m, 4, Quiet, p, map[], [[]], [ONES], [])
  }
}
