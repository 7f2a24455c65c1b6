/**
 * The AM335x LCDC controller driven in LIDD mode: bring-up (`init`), the
 * write engine (`write_addr`, `write_data`, `write`), the read stub and the
 * kobject release.
 *
 * The kernel services the driver calls (clock framework, ioremap, GPIO)
 * are outside the model; what they return is a parameter, `KernelCalls`.
 * Everything the controller does is recorded as an `Event` in a ghost log,
 * and two interpretations of a log give it meaning: `ApplyTrace`, the
 * register file after the log's register writes, and `Replay`, the kernel
 * resources held after the log's acquisitions and releases.
 */
module Am335xCtrl {
  import opened Bits
  import opened Wrappers
  import opened Am335xRegs

  // Error numbers returned negated, as in the kernel.
  const ENODEV: int := 19
  const ENODATA: int := 61
  const MAX_ERRNO: int := 4095

  /** Rate requested for the LCDC functional clock, in Hz. */
  const INIT_HW_CLK_FREQ: nat := 20000000

  /** A kernel pointer on 32-bit ARM. */
  type Ptr = bv32

  const NULL: Ptr := 0

  /** IS_ERR: the top MAX_ERRNO addresses carry a negative error number. */
  predicate IsErr(p: Ptr)
  {
    p >= 0xFFFF_F001
  }

  /** PTR_ERR: the pointer read as a signed 32-bit `long`. */
  function PtrErr(p: Ptr): (e: int)
    ensures IsErr(p) ==> -MAX_ERRNO <= e <= -1
  {
    if p < 0x8000_0000 then p as int
    else
      var magnitude := !p + 1;
      assert IsErr(p) ==> magnitude <= 0xFFF;
      -(magnitude as int)
  }

  /** A `size_t` returned as `ssize_t` (both 32 bits wide). */
  function Ssize(n: bv32): (r: int)
    ensures n < 0x8000_0000 ==> r == n as int
    ensures n >= 0x8000_0000 ==> r < 0
  {
    if n < 0x8000_0000 then n as int else n as int - 0x1_0000_0000
  }

  /**
   * What the kernel calls made by `init` return: the clock handle from
   * devm_clk_get, the status codes of clk_prepare, clk_set_rate and
   * clk_enable, and the pointers from devm_ioremap_resource and gpiod_get.
   */
  datatype KernelCalls = KernelCalls(
    clk: Ptr, prepare: int, setRate: int, enable: int, remap: Ptr, gpio: Ptr)

  /** The acquisition calls of `init`; setting the rate carries the rate asked for, in Hz. */
  datatype InitStep = ClkGet | ClkPrepare | ClkSetRate(hz: nat) | ClkEnable | Ioremap | GpiodGet

  /** The order in which `init` makes its acquisition calls. */
  const ACQUIRE_ORDER: seq<InitStep> :=
    [ClkGet, ClkPrepare, ClkSetRate(INIT_HW_CLK_FREQ), ClkEnable, Ioremap, GpiodGet]

  /** The value `init` tests after a call returning a pointer: 0 or PTR_ERR. */
  function PtrOutcome(p: Ptr): (ret: int)
    ensures ret != 0 <==> IsErr(p)
  {
    if IsErr(p) then PtrErr(p) else 0
  }

  /**
   * What the driver can hold: the clock handle, the clock's prepared and
   * enabled state, the register mapping and the HRDY GPIO descriptor.
   */
  datatype Resource = ClkHandle | ClkPrepared | ClkEnabled | RegMapping | HrdyGpio

  const ALL_RESOURCES: set<Resource> := {ClkHandle, ClkPrepared, ClkEnabled, RegMapping, HrdyGpio}

  /** The resource a successful step obtains; setting the rate obtains none. */
  function Gains(s: InitStep): Option<Resource>
  {
    match s
    case ClkGet => Some(ClkHandle)
    case ClkPrepare => Some(ClkPrepared)
    case ClkSetRate(_) => None
    case ClkEnable => Some(ClkEnabled)
    case Ioremap => Some(RegMapping)
    case GpiodGet => Some(HrdyGpio)
  }

  datatype Event =
    | Call(step: InitStep, ret: int)        // an acquisition call and the value tested
    | Put(res: Resource)                    // gpiod_put, devm_iounmap or devm_clk_put
    | RegWrite(offs: nat, ups: seq<Update>) // one read-modify-write of a register
    | Free                                  // kfree of the controller

  // Register accesses, as the am335x_* accessors called by the driver
  // perform them: one read-modify-write of the register they name.

  function SetCoreClkEn(v: Word): Event { RegWrite(CLKC_ENABLE_OFFS, [Update(CORE_CLK_EN, v)]) }
  function SetLiddClkEn(v: Word): Event { RegWrite(CLKC_ENABLE_OFFS, [Update(LIDD_CLK_EN, v)]) }
  function SetDmaClkEn(v: Word): Event { RegWrite(CLKC_ENABLE_OFFS, [Update(DMA_CLK_EN, v)]) }
  function SetClkdiv(v: Word): Event { RegWrite(CTRL_OFFS, [Update(CLKDIV, v)]) }
  function SetLiddMode(m: LiddProtocol): Event
  {
    RegWrite(LIDD_CTRL_OFFS, [Update(LIDD_MODE_SEL, LiddProtocolCode(m))])
  }
  function SetLiddDmaEn(v: Word): Event { RegWrite(LIDD_CTRL_OFFS, [Update(LIDD_DMA_EN, v)]) }
  function SetLiddAddr(cs: ChipSelect, addr: Word): Event
  {
    RegWrite(AddrOffset(cs), [Update(ADR_INDX, addr)])
  }
  function SetFifoThreshold(v: Word): Event { RegWrite(LCDDMA_CTRL_OFFS, [Update(TH_FIFO_READY, v)]) }
  function SetBurstSize(v: Word): Event { RegWrite(LCDDMA_CTRL_OFFS, [Update(BURST_SIZE, v)]) }
  function SetFrameMode(v: Word): Event { RegWrite(LCDDMA_CTRL_OFFS, [Update(FRAME_MODE, v)]) }
  function SetFbBaseAddr(fb: FrameBuffer, a: Ptr): Event
  {
    RegWrite(BaseOffset(fb), [Update(FB_ADDR, FbField(a))])
  }
  function SetFbCeilAddr(fb: FrameBuffer, a: Ptr): Event
  {
    RegWrite(CeilOffset(fb), [Update(FB_ADDR, FbField(a))])
  }

  /** LIDD bus timings of one chip select, in cycles of the LCDC clock. */
  datatype Timings = Timings(
    wSetup: Word, wStrobe: Word, wHold: Word, rSetup: Word, rStrobe: Word, rHold: Word, ta: Word)

  const INIT_TIMINGS := Timings(1, 1, 1, 1, 1, 1, 1)

  function SetLiddTimings(cs: ChipSelect, t: Timings): Event
  {
    RegWrite(ConfOffset(cs), [Update(W_SU, t.wSetup), Update(W_STROBE, t.wStrobe),
                              Update(W_HOLD, t.wHold), Update(R_SU, t.rSetup),
                              Update(R_STROBE, t.rStrobe), Update(R_HOLD, t.rHold),
                              Update(TA, t.ta)])
  }

  /** Whether a LIDD control signal is inverted. */
  datatype Polarity = NoInvert | Invert

  function PolarityCode(p: Polarity): Word
  {
    match p
    case NoInvert => 0
    case Invert => 1
  }

  datatype SigPols = SigPols(
    alePol: Polarity, rsEnPol: Polarity, wsDirPol: Polarity, cs0E0Pol: Polarity, cs1E1Pol: Polarity)

  const INIT_SIG_POLS := SigPols(NoInvert, NoInvert, NoInvert, NoInvert, NoInvert)

  function SetLiddPols(p: SigPols): Event
  {
    RegWrite(LIDD_CTRL_OFFS, [Update(ALEPOL, PolarityCode(p.alePol)),
                              Update(RS_EN_POL, PolarityCode(p.rsEnPol)),
                              Update(WS_DIR_POL, PolarityCode(p.wsDirPol)),
                              Update(CS0_E0_POL, PolarityCode(p.cs0E0Pol)),
                              Update(CS1_E1_POL, PolarityCode(p.cs1E1Pol))])
  }

  // Field codes of the DMA settings chosen by `init`: a FIFO threshold of
  // 16 double words, bursts of 16 and a single frame buffer. The names
  // FIFO_TH_16, BURST_SIZE_16 and ONE_FRAME (and NO_INVERT, modelled by
  // `NoInvert` above) are not defined in the modelled files; these codes are
  // the LCDC hardware encodings, assumed here rather than taken from the code.
  const FIFO_TH_16: Word := 1
  const BURST_SIZE_16: Word := 4
  const ONE_FRAME: Word := 0

  /** Gating on the core, LIDD and DMA clocks. */
  const CLOCK_ENABLES: seq<Event> := [SetCoreClkEn(1), SetLiddClkEn(1), SetDmaClkEn(1)]

  /** Clock divisor, signal polarities and bus protocol. */
  const LIDD_CTRL_DEFAULTS: seq<Event> := [SetClkdiv(2), SetLiddPols(INIT_SIG_POLS), SetLiddMode(SyncMpu80)]

  /** Both chip selects' timings. */
  const TIMING_DEFAULTS: seq<Event> := [SetLiddTimings(Cs0, INIT_TIMINGS), SetLiddTimings(Cs1, INIT_TIMINGS)]

  const LIDD_DEFAULTS: seq<Event> := LIDD_CTRL_DEFAULTS + TIMING_DEFAULTS

  /** FIFO threshold, burst size and frame mode of the DMA engine. */
  const DMA_DEFAULTS: seq<Event> := [
    SetFifoThreshold(FIFO_TH_16), SetBurstSize(BURST_SIZE_16), SetFrameMode(ONE_FRAME)]

  /** The register writes `init` performs once every resource is obtained. */
  const DEFAULT_PROGRAMMING: seq<Event> := CLOCK_ENABLES + LIDD_DEFAULTS + DMA_DEFAULTS

  // ---------------------------------------------------------------------
  // The register file after a log.

  /** A register write that names a register of the block. */
  predicate ValidWrite(e: Event)
  {
    e.RegWrite? && RegIndex(e.offs) < REG_WORDS
  }

  function Apply(regs: seq<Word>, e: Event): (r: seq<Word>)
    ensures |r| == |regs|
  {
    if e.RegWrite? && RegIndex(e.offs) < |regs|
    then regs[RegIndex(e.offs) := SetAll(regs[RegIndex(e.offs)], e.ups)]
    else regs
  }

  /** The register file after the register writes of `t`, in order. */
  function ApplyTrace(regs: seq<Word>, t: seq<Event>): (r: seq<Word>)
    ensures |r| == |regs|
    decreases |t|
  {
    if t == [] then regs else ApplyTrace(Apply(regs, t[0]), t[1..])
  }

  lemma {:induction false} ApplyTraceAppend(regs: seq<Word>, a: seq<Event>, b: seq<Event>)
    ensures ApplyTrace(regs, a + b) == ApplyTrace(ApplyTrace(regs, a), b)
    decreases |a|
  {
    if a == [] {
      assert a + b == b;
    } else {
      assert (a + b)[1..] == a[1..] + b;
      ApplyTraceAppend(Apply(regs, a[0]), a[1..], b);
    }
  }

  /** A word no event of `t` writes keeps its value. */
  lemma {:induction false} ApplyTraceUntouched(regs: seq<Word>, t: seq<Event>, i: nat)
    requires i < |regs|
    requires forall e :: e in t && e.RegWrite? ==> RegIndex(e.offs) != i
    ensures ApplyTrace(regs, t)[i] == regs[i]
    decreases |t|
  {
    if t != [] {
      assert t[0] in t;
      assert forall e :: e in t[1..] ==> e in t;
      ApplyTraceUntouched(Apply(regs, t[0]), t[1..], i);
    }
  }

  /** A log without register writes leaves the register file as it is. */
  lemma {:induction false} ApplyTraceNoWrites(regs: seq<Word>, t: seq<Event>)
    requires forall e :: e in t ==> !e.RegWrite?
    ensures ApplyTrace(regs, t) == regs
    decreases |t|
  {
    if t != [] {
      assert t[0] in t;
      assert forall e :: e in t[1..] ==> e in t;
      ApplyTraceNoWrites(regs, t[1..]);
    }
  }

  // ---------------------------------------------------------------------
  // The resources held after a log.

  function Step(held: set<Resource>, e: Event): Option<set<Resource>>
  {
    match e
    case Call(s, ret) =>
      if ret != 0 then Some(held)
      else (match Gains(s)
            case None => Some(held)
            case Some(r) => if r in held then None else Some(held + {r}))
    case Put(r) => if r in held then Some(held - {r}) else None
    case RegWrite(_, _) => if RegMapping in held then Some(held) else None
    case Free => Some(held)
  }

  /**
   * The resources held after `t`, starting from `held`; None when `t`
   * obtains a resource twice, puts one it does not hold, or writes a
   * register while the register block is not mapped.
   */
  function Replay(held: set<Resource>, t: seq<Event>): Option<set<Resource>>
    decreases |t|
  {
    if t == [] then Some(held)
    else match Replay(held, t[..|t| - 1])
      case None => None
      case Some(h) => Step(h, t[|t| - 1])
  }

  lemma {:induction false} ReplayAppend(held: set<Resource>, a: seq<Event>, b: seq<Event>)
    ensures Replay(held, a + b) ==
      match Replay(held, a)
      case None => None
      case Some(h) => Replay(h, b)
    decreases |b|
  {
    if b == [] {
      assert a + b == a;
    } else {
      assert (a + b)[..|a + b| - 1] == a + b[..|b| - 1];
      ReplayAppend(held, a, b[..|b| - 1]);
    }
  }

  /** Register writes change no holding as long as the block stays mapped. */
  lemma {:induction false} ReplayRegWrites(held: set<Resource>, t: seq<Event>)
    requires RegMapping in held
    requires forall e :: e in t ==> e.RegWrite?
    ensures Replay(held, t) == Some(held)
    decreases |t|
  {
    if t != [] {
      assert forall e :: e in t[..|t| - 1] ==> e in t;
      assert t[|t| - 1] in t;
      ReplayRegWrites(held, t[..|t| - 1]);
    }
  }

  /** The acquisition calls of a log, in order. */
  function Attempts(t: seq<Event>): seq<InitStep>
    decreases |t|
  {
    if t == [] then []
    else Attempts(t[..|t| - 1]) + (if t[|t| - 1].Call? then [t[|t| - 1].step] else [])
  }

  /** The resources a log puts back, in order. */
  function Puts(t: seq<Event>): seq<Resource>
    decreases |t|
  {
    if t == [] then []
    else Puts(t[..|t| - 1]) + (if t[|t| - 1].Put? then [t[|t| - 1].res] else [])
  }

  lemma {:induction false} AttemptsPutsAppend(a: seq<Event>, b: seq<Event>)
    ensures Attempts(a + b) == Attempts(a) + Attempts(b)
    ensures Puts(a + b) == Puts(a) + Puts(b)
    decreases |b|
  {
    if b == [] {
      assert a + b == a;
    } else {
      assert (a + b)[..|a + b| - 1] == a + b[..|b| - 1];
      AttemptsPutsAppend(a, b[..|b| - 1]);
    }
  }

  /** A log of register writes makes no call and puts nothing back. */
  lemma {:induction false} AttemptsPutsRegWrites(t: seq<Event>)
    requires forall e :: e in t ==> e.RegWrite?
    ensures Attempts(t) == [] && Puts(t) == []
    decreases |t|
  {
    if t != [] {
      assert forall e :: e in t[..|t| - 1] ==> e in t;
      assert t[|t| - 1] in t;
      AttemptsPutsRegWrites(t[..|t| - 1]);
    }
  }

  // ---------------------------------------------------------------------
  // `init` as a specification.

  /**
   * The values `init` tests, one per step of ACQUIRE_ORDER, 0 meaning
   * success.  The clock handle is never tested; a pointer result is tested
   * with IS_ERR and turned into its error number with PTR_ERR.
   */
  function Outcomes(k: KernelCalls): (rets: seq<int>)
    ensures |rets| == |ACQUIRE_ORDER|
  {
    [0, k.prepare, k.setRate, k.enable, PtrOutcome(k.remap), PtrOutcome(k.gpio)]
  }

  /**
   * What the acquisition part of `init` logs from step `i` of ACQUIRE_ORDER
   * on, given the values the steps return: the call and the value tested,
   * then either the unwind of a failed step or the rest of the sequence.
   */
  function AcquireFrom(rets: seq<int>, i: nat): seq<Event>
    requires i <= |rets| == |ACQUIRE_ORDER|
    decreases |rets| - i
  {
    if i == |rets| then []
    else
      var s := ACQUIRE_ORDER[i];
      [Call(s, rets[i])] + (if rets[i] != 0 then Unwind(s) else AcquireFrom(rets, i + 1))
  }

  /** What the acquisition part of `init` returns from step `i` on. */
  function ResultFrom(rets: seq<int>, i: nat): int
    requires i <= |rets|
    decreases |rets| - i
  {
    if i == |rets| then 0
    else if rets[i] != 0 then rets[i]
    else ResultFrom(rets, i + 1)
  }

  /** One step of the acquisition sequence. */
  lemma AcquireStep(rets: seq<int>, i: nat)
    requires i < |rets| == |ACQUIRE_ORDER|
    ensures AcquireFrom(rets, i) ==
      [Call(ACQUIRE_ORDER[i], rets[i])] + (if rets[i] != 0 then Unwind(ACQUIRE_ORDER[i]) else AcquireFrom(rets, i + 1))
    ensures ResultFrom(rets, i) == if rets[i] != 0 then rets[i] else ResultFrom(rets, i + 1)
  {}

  /**
   * The releases after a failed step, as the goto labels of `init` chain
   * them: a GPIO failure unmaps the registers and falls through to putting
   * the clock, a remap failure puts the clock, and the clock failures
   * return at once.
   */
  function Unwind(s: InitStep): seq<Event>
  {
    match s
    case GpiodGet => [Put(RegMapping), Put(ClkHandle)]
    case Ioremap => [Put(ClkHandle)]
    case _ => []
  }

  /** The acquisition calls of `init` and the unwind after a failure. */
  function AcquireTrace(k: KernelCalls): seq<Event>
  {
    AcquireFrom(Outcomes(k), 0)
  }

  /** Whether every acquisition call succeeds. */
  predicate Acquired(k: KernelCalls)
  {
    ResultFrom(Outcomes(k), 0) == 0
  }

  /** Everything `init` does, for a controller with or without a device. */
  function InitTrace(hasDev: bool, k: KernelCalls): seq<Event>
  {
    if !hasDev then []
    else AcquireTrace(k) + (if Acquired(k) then DEFAULT_PROGRAMMING else [])
  }

  /** What `init` returns. */
  function InitResult(hasDev: bool, k: KernelCalls): int
  {
    if !hasDev then -ENODEV else ResultFrom(Outcomes(k), 0)
  }

  /** The clock calls of `init` all succeed, so the registers get mapped. */
  predicate ClockReady(k: KernelCalls)
  {
    k.prepare == 0 && k.setRate == 0 && k.enable == 0
  }

  // The same sequence described by its first failing step.

  /** The index of the first failing step from `i` on, |rets| if none fails. */
  function FirstFailureFrom(rets: seq<int>, i: nat): (f: nat)
    requires i <= |rets|
    ensures i <= f <= |rets|
    ensures forall j :: i <= j < f ==> rets[j] == 0
    ensures f < |rets| ==> rets[f] != 0
    decreases |rets| - i
  {
    if i == |rets| then i
    else if rets[i] != 0 then i
    else FirstFailureFrom(rets, i + 1)
  }

  /** The index of the step at which `init` stops, |ACQUIRE_ORDER| if none fails. */
  function FirstFailure(k: KernelCalls): (f: nat)
    ensures f <= |ACQUIRE_ORDER|
  {
    FirstFailureFrom(Outcomes(k), 0)
  }

  /** The calls of steps `i` to `n` - 1 with the values they return. */
  function Calls(rets: seq<int>, i: nat, n: nat): (t: seq<Event>)
    requires i <= n <= |rets| == |ACQUIRE_ORDER|
    ensures |t| == n - i
    decreases n - i
  {
    if i == n then [] else [Call(ACQUIRE_ORDER[i], rets[i])] + Calls(rets, i + 1, n)
  }

  lemma {:induction false} AcquireFromShape(rets: seq<int>, i: nat)
    requires i <= |rets| == |ACQUIRE_ORDER|
    ensures var f := FirstFailureFrom(rets, i);
      AcquireFrom(rets, i) == (if f == |rets| then Calls(rets, i, f)
                               else Calls(rets, i, f + 1) + Unwind(ACQUIRE_ORDER[f]))
    decreases |rets| - i
  {
    if i < |rets| {
      if rets[i] != 0 {
        assert Calls(rets, i, i + 1) == [Call(ACQUIRE_ORDER[i], rets[i])];
      } else {
        AcquireFromShape(rets, i + 1);
      }
    }
  }

  lemma {:induction false} ResultFromFirstFailure(rets: seq<int>, i: nat)
    requires i <= |rets|
    ensures var f := FirstFailureFrom(rets, i);
      ResultFrom(rets, i) == (if f == |rets| then 0 else rets[f])
    decreases |rets| - i
  {
    if i < |rets| && rets[i] == 0 {
      ResultFromFirstFailure(rets, i + 1);
    }
  }

  /**
   * `init` makes the calls of ACQUIRE_ORDER up to and including the first
   * that fails, then runs that step's unwind; it returns 0 when no step
   * fails and the failed step's value otherwise.
   */
  lemma AcquireTraceShape(k: KernelCalls)
    ensures var f := FirstFailure(k);
      && AcquireTrace(k) == (if f == |ACQUIRE_ORDER| then Calls(Outcomes(k), 0, f)
                             else Calls(Outcomes(k), 0, f + 1) + Unwind(ACQUIRE_ORDER[f]))
      && InitResult(true, k) == (if f == |ACQUIRE_ORDER| then 0 else Outcomes(k)[f])
      && (Acquired(k) <==> f == |ACQUIRE_ORDER|)
  {
    AcquireFromShape(Outcomes(k), 0);
    ResultFromFirstFailure(Outcomes(k), 0);
  }

  /** The acquisition part of `init` writes no register. */
  lemma {:induction false} AcquireFromNoWrites(rets: seq<int>, i: nat)
    requires i <= |rets| == |ACQUIRE_ORDER|
    ensures forall e :: e in AcquireFrom(rets, i) ==> e.Call? || e.Put?
    decreases |rets| - i
  {
    if i < |rets| {
      AcquireFromNoWrites(rets, i + 1);
    }
  }

  // ---------------------------------------------------------------------
  // The write engine as a specification.

  /**
   * The byte address of the last 16-bit word of a buffer of `len` words at
   * `data`: C's `data + len - 1` on a `const short *`, wrapping at 2^32.
   */
  function LastWordAddress(data: Ptr, len: bv32): Ptr
  {
    data + ((len - 1) << 1)
  }

  /** `write_addr`: disable LIDD DMA, then issue the address on CS0. */
  function AddrPhase(addr: bv16): seq<Event>
  {
    [SetLiddDmaEn(0), SetLiddAddr(Cs0, addr as Word)]
  }

  /** `write_data`: disable LIDD DMA, program FB0, then enable LIDD DMA. */
  function DataPhase(data: Ptr, len: bv32): seq<Event>
  {
    [SetLiddDmaEn(0), SetFbBaseAddr(Fb0, data), SetFbCeilAddr(Fb0, LastWordAddress(data, len)),
     SetLiddDmaEn(1)]
  }

  /** Everything `write` does. */
  function WriteTrace(addr: bv16, buf: Ptr, len: bv32): seq<Event>
  {
    AddrPhase(addr) + (if len > 0 && buf != NULL then DataPhase(buf, len) else [])
  }

  /** What `write` returns. */
  function WriteResult(buf: Ptr, len: bv32): int
  {
    if len == 0 then 0 else if buf == NULL then -ENODATA else Ssize(len)
  }

  /** The teardown of `am335x_release`. */
  const RELEASE_TRACE: seq<Event> := [Put(HrdyGpio), Put(RegMapping), Put(ClkHandle), Free]

  lemma ConcatAssoc(a: seq<Event>, b: seq<Event>, c: seq<Event>)
    ensures (a + b) + c == a + (b + c)
  {}

  // ---------------------------------------------------------------------
  // The controller object.

  /** Where a controller is in its life. */
  datatype Stage = Created | Ready | InitFailed | Released

  class Controller {
    /** The LCDC register block, one word per 4-byte offset. */
    var regs: seq<Word>
    /** Whether the controller has a device (`ctrl->dev` set). */
    const hasDev: bool
    var hwClk: Ptr
    var regBase: Ptr
    var hrdyGpio: Ptr
    ghost var log: seq<Event>
    ghost var stage: Stage

    /**
     * The register block has one word per register, and a controller whose
     * `init` succeeded holds a mapping and a GPIO descriptor that are not
     * error pointers.
     */
    ghost predicate Valid()
      reads this
    {
      && |regs| == REG_WORDS
      && (stage == Ready ==> !IsErr(regBase) && !IsErr(hrdyGpio))
    }

    /**
     * A controller object over the register block `initial`, with its pointers
     * zero-filled. `hasDev` stands for a `ctrl->dev` set by code outside the
     * modelled files: `am335x_ctrl_create` itself leaves it NULL.
     */
    constructor (hasDev: bool, initial: seq<Word>)
      requires |initial| == REG_WORDS
      ensures Valid() && regs == initial
      ensures this.hasDev == hasDev
      ensures hwClk == NULL && regBase == NULL && hrdyGpio == NULL
      ensures log == [] && stage == Created
    {
      regs := initial;
      this.hasDev := hasDev;
      hwClk, regBase, hrdyGpio := NULL, NULL, NULL;
      log, stage := [], Created;
    }

    /**
     * Performs one register access and records it, on the way to the log
     * `logGoal` and the register block `regsGoal` that `rest` still leads to.
     */
    method Perform(e: Event, ghost rest: seq<Event>, ghost logGoal: seq<Event>, ghost regsGoal: seq<Word>)
      requires Valid() && ValidWrite(e)
      requires logGoal == log + ([e] + rest)
      requires regsGoal == ApplyTrace(regs, [e] + rest)
      modifies this`regs, this`log
      ensures Valid()
      ensures log == old(log) + [e]
      ensures logGoal == log + rest
      ensures regsGoal == ApplyTrace(regs, rest)
    {
      var i := RegIndex(e.offs);
      assert ([e] + rest)[1..] == rest;
      regs := regs[i := SetAll(regs[i], e.ups)];
      log := log + [e];
      assert logGoal == log + rest;
    }

    /**
     * Records a kernel call or release on the way to the log `target`,
     * of which `rest` is still to come.
     */
    method Emit(e: Event, ghost target: seq<Event>, ghost rest: seq<Event>)
      requires target == log + ([e] + rest)
      modifies this`log
      ensures log == old(log) + [e]
      ensures target == log + rest
      ensures rest == [] ==> target == log
    {
      log := log + [e];
      assert target == log + rest;
    }

    /**
     * The acquisition sequence of `init` (ctrl/am335x_ctrl.c:470-506) and
     * its unwind labels (ctrl/am335x_ctrl.c:535-542).
     */
    method Acquire(k: KernelCalls) returns (ret: int)
      modifies this`hwClk, this`regBase, this`hrdyGpio, this`log
      ensures ret == InitResult(true, k)
      ensures log == old(log) + AcquireTrace(k)
      ensures hwClk == k.clk
      ensures regBase == if ClockReady(k) then k.remap else old(regBase)
      ensures hrdyGpio == if ClockReady(k) && !IsErr(k.remap) then k.gpio else old(hrdyGpio)
    {
      ghost var target := log + AcquireTrace(k);
      ret := AcquireClock(k, target);
      if ret != 0 {
        return;
      }
      ret := MapRegisters(k, target);
      if ret != 0 {
        return;
      }
      ret := GetHrdyGpio(k, target);
    }

    /** Getting, preparing, clocking and enabling the LCDC clock (ctrl/am335x_ctrl.c:470-490). */
    method AcquireClock(k: KernelCalls, ghost target: seq<Event>) returns (ret: int)
      requires target == log + AcquireFrom(Outcomes(k), 0)
      modifies this`hwClk, this`log
      ensures hwClk == k.clk
      ensures ret == 0 <==> ClockReady(k)
      ensures ResultFrom(Outcomes(k), 0) == if ret != 0 then ret else ResultFrom(Outcomes(k), 4)
      ensures target == log + if ret != 0 then [] else AcquireFrom(Outcomes(k), 4)
    {
      ghost var rets := Outcomes(k);
      hwClk := k.clk;
      AcquireStep(rets, 0);
      Emit(Call(ClkGet, 0), target, AcquireFrom(rets, 1));
      ret := k.prepare;
      AcquireStep(rets, 1);
      if ret != 0 {
        Emit(Call(ClkPrepare, ret), target, []);
        return;
      }
      Emit(Call(ClkPrepare, ret), target, AcquireFrom(rets, 2));
      ret := k.setRate;
      AcquireStep(rets, 2);
      if ret != 0 {
        Emit(Call(ClkSetRate(INIT_HW_CLK_FREQ), ret), target, []);
        return;
      }
      Emit(Call(ClkSetRate(INIT_HW_CLK_FREQ), ret), target, AcquireFrom(rets, 3));
      ret := k.enable;
      AcquireStep(rets, 3);
      if ret != 0 {
        Emit(Call(ClkEnable, ret), target, []);
        return;
      }
      Emit(Call(ClkEnable, ret), target, AcquireFrom(rets, 4));
    }

    /**
     * Mapping the register block (ctrl/am335x_ctrl.c:492-498); a failure
     * puts the clock (ctrl/am335x_ctrl.c:537-538).
     */
    method MapRegisters(k: KernelCalls, ghost target: seq<Event>) returns (ret: int)
      requires target == log + AcquireFrom(Outcomes(k), 4)
      modifies this`regBase, this`log
      ensures regBase == k.remap
      ensures ret == 0 <==> !IsErr(k.remap)
      ensures ResultFrom(Outcomes(k), 4) == if ret != 0 then ret else ResultFrom(Outcomes(k), 5)
      ensures target == log + if ret != 0 then [] else AcquireFrom(Outcomes(k), 5)
    {
      ghost var rets := Outcomes(k);
      regBase := k.remap;
      AcquireStep(rets, 4);
      if IsErr(regBase) {
        ret := PtrErr(regBase);
        Emit(Call(Ioremap, ret), target, [Put(ClkHandle)]);
        Emit(Put(ClkHandle), target, []);
        return;
      }
      ret := 0;
      Emit(Call(Ioremap, ret), target, AcquireFrom(rets, 5));
    }

    /**
     * Getting the HRDY GPIO (ctrl/am335x_ctrl.c:500-506); a failure unmaps
     * the registers and puts the clock (ctrl/am335x_ctrl.c:535-538).
     */
    method GetHrdyGpio(k: KernelCalls, ghost target: seq<Event>) returns (ret: int)
      requires target == log + AcquireFrom(Outcomes(k), 5)
      modifies this`hrdyGpio, this`log
      ensures hrdyGpio == k.gpio
      ensures ret == ResultFrom(Outcomes(k), 5)
      ensures target == log
    {
      ghost var rets := Outcomes(k);
      hrdyGpio := k.gpio;
      AcquireStep(rets, 5);
      if IsErr(hrdyGpio) {
        ret := PtrErr(hrdyGpio);
        Emit(Call(GpiodGet, ret), target, [Put(RegMapping), Put(ClkHandle)]);
        Emit(Put(RegMapping), target, [Put(ClkHandle)]);
        Emit(Put(ClkHandle), target, []);
        return;
      }
      ret := 0;
      Emit(Call(GpiodGet, ret), target, []);
    }

    /** Gating on the core, LIDD and DMA clocks (ctrl/am335x_ctrl.c:508-511). */
    method EnableClocks()
      requires Valid()
      modifies this`regs, this`log
      ensures Valid()
      ensures log == old(log) + CLOCK_ENABLES
      ensures regs == ApplyTrace(old(regs), CLOCK_ENABLES)
    {
      ghost var lg, rg := log + CLOCK_ENABLES, ApplyTrace(regs, CLOCK_ENABLES);
      Perform(SetCoreClkEn(1), [SetLiddClkEn(1), SetDmaClkEn(1)], lg, rg);
      Perform(SetLiddClkEn(1), [SetDmaClkEn(1)], lg, rg);
      Perform(SetDmaClkEn(1), [], lg, rg);
      assert log + [] == log;
    }

    /**
     * Clock divisor, signal polarities, bus protocol and the timings of both
     * chip selects (ctrl/am335x_ctrl.c:513-526).
     */
    method ProgramLidd()
      requires Valid()
      modifies this`regs, this`log
      ensures Valid()
      ensures log == old(log) + LIDD_DEFAULTS
      ensures regs == ApplyTrace(old(regs), LIDD_DEFAULTS)
    {
      ghost var r0, l0 := regs, log;
      ProgramLiddCtrl();
      ProgramTimings();
      ConcatAssoc(l0, LIDD_CTRL_DEFAULTS, TIMING_DEFAULTS);
      ApplyTraceAppend(r0, LIDD_CTRL_DEFAULTS, TIMING_DEFAULTS);
      assert LIDD_DEFAULTS == LIDD_CTRL_DEFAULTS + TIMING_DEFAULTS;
    }

    /** Clock divisor, signal polarities and bus protocol (ctrl/am335x_ctrl.c:513-522). */
    method ProgramLiddCtrl()
      requires Valid()
      modifies this`regs, this`log
      ensures Valid()
      ensures log == old(log) + LIDD_CTRL_DEFAULTS
      ensures regs == ApplyTrace(old(regs), LIDD_CTRL_DEFAULTS)
    {
      ghost var lg, rg := log + LIDD_CTRL_DEFAULTS, ApplyTrace(regs, LIDD_CTRL_DEFAULTS);
      Perform(SetClkdiv(2), [SetLiddPols(INIT_SIG_POLS), SetLiddMode(SyncMpu80)], lg, rg);
      Perform(SetLiddPols(INIT_SIG_POLS), [SetLiddMode(SyncMpu80)], lg, rg);
      Perform(SetLiddMode(SyncMpu80), [], lg, rg);
      assert log + [] == log;
    }

    /** The timings of both chip selects (ctrl/am335x_ctrl.c:524-526). */
    method ProgramTimings()
      requires Valid()
      modifies this`regs, this`log
      ensures Valid()
      ensures log == old(log) + TIMING_DEFAULTS
      ensures regs == ApplyTrace(old(regs), TIMING_DEFAULTS)
    {
      ghost var lg, rg := log + TIMING_DEFAULTS, ApplyTrace(regs, TIMING_DEFAULTS);
      Perform(SetLiddTimings(Cs0, INIT_TIMINGS), [SetLiddTimings(Cs1, INIT_TIMINGS)], lg, rg);
      Perform(SetLiddTimings(Cs1, INIT_TIMINGS), [], lg, rg);
      assert log + [] == log;
    }

    /** FIFO threshold, burst size and frame mode of the DMA engine (ctrl/am335x_ctrl.c:528-531). */
    method ProgramDma()
      requires Valid()
      modifies this`regs, this`log
      ensures Valid()
      ensures log == old(log) + DMA_DEFAULTS
      ensures regs == ApplyTrace(old(regs), DMA_DEFAULTS)
    {
      ghost var lg, rg := log + DMA_DEFAULTS, ApplyTrace(regs, DMA_DEFAULTS);
      Perform(SetFifoThreshold(FIFO_TH_16), [SetBurstSize(BURST_SIZE_16), SetFrameMode(ONE_FRAME)], lg, rg);
      Perform(SetBurstSize(BURST_SIZE_16), [SetFrameMode(ONE_FRAME)], lg, rg);
      Perform(SetFrameMode(ONE_FRAME), [], lg, rg);
      assert log + [] == log;
    }

    /** The default programming of `init` (ctrl/am335x_ctrl.c:508-531). */
    method ProgramDefaults()
      requires Valid()
      modifies this`regs, this`log
      ensures Valid()
      ensures log == old(log) + DEFAULT_PROGRAMMING
      ensures regs == ApplyTrace(old(regs), DEFAULT_PROGRAMMING)
    {
      ghost var r0, l0 := regs, log;
      EnableClocks();
      ProgramLidd();
      ApplyTraceAppend(r0, CLOCK_ENABLES, LIDD_DEFAULTS);
      ConcatAssoc(l0, CLOCK_ENABLES, LIDD_DEFAULTS);
      ProgramDma();
      ApplyTraceAppend(r0, CLOCK_ENABLES + LIDD_DEFAULTS, DMA_DEFAULTS);
      ConcatAssoc(l0, CLOCK_ENABLES + LIDD_DEFAULTS, DMA_DEFAULTS);
    }

    /** `init` (ctrl/am335x_ctrl.c:460-543). */
    method Init(k: KernelCalls) returns (r: int)
      requires Valid()
      modifies this`regs, this`log, this`hwClk, this`regBase, this`hrdyGpio, this`stage
      ensures Valid()
      ensures r == InitResult(hasDev, k)
      ensures log == old(log) + InitTrace(hasDev, k)
      ensures regs == ApplyTrace(old(regs), InitTrace(hasDev, k))
      ensures stage == if !hasDev then old(stage) else if r == 0 then Ready else InitFailed
      ensures hwClk == if hasDev then k.clk else old(hwClk)
      ensures regBase == if hasDev && ClockReady(k) then k.remap else old(regBase)
      ensures hrdyGpio == if hasDev && ClockReady(k) && !IsErr(k.remap) then k.gpio else old(hrdyGpio)
    {
      if !hasDev {
        assert log + [] == log;
        return -ENODEV;
      }
      ghost var r0 := regs;
      r := Acquire(k);
      AcquireFromNoWrites(Outcomes(k), 0);
      ApplyTraceNoWrites(r0, AcquireTrace(k));
      if r != 0 {
        stage := InitFailed;
        assert AcquireTrace(k) + [] == AcquireTrace(k);
        return;
      }
      ProgramDefaults();
      ApplyTraceAppend(r0, AcquireTrace(k), DEFAULT_PROGRAMMING);
      ConcatAssoc(old(log), AcquireTrace(k), DEFAULT_PROGRAMMING);
      stage := Ready;
    }

    /** `write_addr` (ctrl/am335x_ctrl.c:545-549). */
    method WriteAddr(addr: bv16)
      requires Valid()
      modifies this`regs, this`log
      ensures Valid()
      ensures log == old(log) + AddrPhase(addr)
      ensures regs == ApplyTrace(old(regs), AddrPhase(addr))
    {
      ghost var lg, rg := log + AddrPhase(addr), ApplyTrace(regs, AddrPhase(addr));
      Perform(SetLiddDmaEn(0), [SetLiddAddr(Cs0, addr as Word)], lg, rg);
      Perform(SetLiddAddr(Cs0, addr as Word), [], lg, rg);
      assert log + [] == log;
    }

    /** `write_data` (ctrl/am335x_ctrl.c:551-557). */
    method WriteData(data: Ptr, len: bv32)
      requires Valid()
      modifies this`regs, this`log
      ensures Valid()
      ensures log == old(log) + DataPhase(data, len)
      ensures regs == ApplyTrace(old(regs), DataPhase(data, len))
    {
      ghost var d := DataPhase(data, len);
      ghost var lg, rg := log + d, ApplyTrace(regs, d);
      Perform(SetLiddDmaEn(0), d[1..], lg, rg);
      Perform(SetFbBaseAddr(Fb0, data), d[2..], lg, rg);
      Perform(SetFbCeilAddr(Fb0, LastWordAddress(data, len)), d[3..], lg, rg);
      Perform(SetLiddDmaEn(1), [], lg, rg);
      assert log + [] == log;
    }

    /** `read` (ctrl/am335x_ctrl.c:559-562): not implemented, always -1. */
    method Read(addr: bv16, buf: Ptr, len: bv32) returns (r: int)
      ensures r == -1
    {
      r := -1;
    }

    /** `write` (ctrl/am335x_ctrl.c:564-577). */
    method Write(addr: bv16, buf: Ptr, len: bv32) returns (r: int)
      requires Valid()
      modifies this`regs, this`log
      ensures Valid()
      ensures r == WriteResult(buf, len)
      ensures log == old(log) + WriteTrace(addr, buf, len)
      ensures regs == ApplyTrace(old(regs), WriteTrace(addr, buf, len))
    {
      ghost var r0 := regs;
      WriteAddr(addr);
      if len > 0 {
        if buf == NULL {
          assert AddrPhase(addr) + [] == AddrPhase(addr);
          return -ENODATA;
        }
        WriteData(buf, len);
        ApplyTraceAppend(r0, AddrPhase(addr), DataPhase(buf, len));
        ConcatAssoc(old(log), AddrPhase(addr), DataPhase(buf, len));
        return Ssize(len);
      }
      assert AddrPhase(addr) + [] == AddrPhase(addr);
      return 0;
    }

    /** `am335x_release` (ctrl/am335x_ctrl.c:56-65). */
    method Release()
      requires Valid()
      modifies this`log, this`stage
      ensures Valid()
      ensures log == old(log) + RELEASE_TRACE
      ensures stage == Released
    {
      ghost var lg := log + RELEASE_TRACE;
      Emit(Put(HrdyGpio), lg, [Put(RegMapping), Put(ClkHandle), Free]);
      Emit(Put(RegMapping), lg, [Put(ClkHandle), Free]);
      Emit(Put(ClkHandle), lg, [Free]);
      Emit(Free, lg, []);
      stage := Released;
    }
  }
}
