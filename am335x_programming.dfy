/**
 * What the register writes of the controller leave in the LCDC register
 * block, read back field by field through the decoded register views:
 * the default programming of `init` and the address and data phases of
 * `write`.  Each statement also says that every other field and every
 * other register keeps its value.
 */
module Am335xProgramming {
  import opened Bits
  import opened Wrappers
  import opened Am335xRegs
  import opened Am335xCtrl

  // Word indices of the registers the driver programs.
  const CTRL: nat := RegIndex(CTRL_OFFS)
  const LIDD_CTRL: nat := RegIndex(LIDD_CTRL_OFFS)
  const CS0_CONF: nat := RegIndex(LIDD_CS0_CONF_OFFS)
  const CS0_ADDR: nat := RegIndex(LIDD_CS0_ADDR_OFFS)
  const CS1_CONF: nat := RegIndex(LIDD_CS1_CONF_OFFS)
  const LCDDMA_CTRL: nat := RegIndex(LCDDMA_CTRL_OFFS)
  const FB0_BASE: nat := RegIndex(LCDDMA_FB0_BASE_OFFS)
  const FB0_CEIL: nat := RegIndex(LCDDMA_FB0_CEIL_OFFS)
  const CLKC_ENABLE: nat := RegIndex(CLKC_ENABLE_OFFS)

  /** Two register files agree on every word except those at `except`. */
  predicate SameExcept(a: seq<Word>, b: seq<Word>, except: set<nat>)
  {
    |a| == |b| && forall i :: 0 <= i < |a| && i !in except ==> a[i] == b[i]
  }

  /** A log that starts with `e` applies `e` first. */
  lemma ApplyTraceCons(regs: seq<Word>, e: Event, t: seq<Event>)
    ensures ApplyTrace(regs, [e] + t) == ApplyTrace(Apply(regs, e), t)
  {
    assert ([e] + t)[1..] == t;
  }

  /** A register write that names a register of the block rewrites that word. */
  lemma ApplyWrite(regs: seq<Word>, offs: nat, ups: seq<Update>)
    requires RegIndex(offs) < |regs|
    ensures Apply(regs, RegWrite(offs, ups)) == regs[RegIndex(offs) := SetAll(regs[RegIndex(offs)], ups)]
  {}

  /** Field assignments that start with `u` assign `u` first. */
  lemma SetAllCons(w: Word, u: Update, us: seq<Update>)
    requires u.field.lo < 32
    ensures SetAll(w, [u] + us) == SetAll(Set(w, u.field, u.value), us)
  {
    assert ([u] + us)[1..] == us;
  }

  /** One field assignment to the register at `offs`. */
  lemma ApplySet(regs: seq<Word>, offs: nat, f: Field, v: Word)
    requires RegIndex(offs) < |regs| && f.lo < 32
    ensures Apply(regs, RegWrite(offs, [Update(f, v)]))
         == regs[RegIndex(offs) := Set(regs[RegIndex(offs)], f, v)]
  {
    var w := regs[RegIndex(offs)];
    assert [Update(f, v)][1..] == [];
    assert SetAll(Set(w, f, v), []) == Set(w, f, v);
    assert SetAll(w, [Update(f, v)]) == Set(w, f, v);
  }

  /** Two register writes in a row. */
  lemma ApplyTwo(regs: seq<Word>, e1: Event, e2: Event)
    ensures ApplyTrace(regs, [e1, e2]) == Apply(Apply(regs, e1), e2)
  {
    assert [e1, e2] == [e1] + ([e2] + []);
    ApplyTraceCons(regs, e1, [e2] + []);
    ApplyTraceCons(Apply(regs, e1), e2, []);
  }

  /** Three register writes in a row. */
  lemma ApplyThree(regs: seq<Word>, e1: Event, e2: Event, e3: Event)
    ensures ApplyTrace(regs, [e1, e2, e3]) == Apply(Apply(Apply(regs, e1), e2), e3)
  {
    assert [e1, e2, e3] == [e1] + [e2, e3];
    ApplyTraceCons(regs, e1, [e2, e3]);
    ApplyTwo(Apply(regs, e1), e2, e3);
  }

  // ---------------------------------------------------------------------
  // The default programming of `init`.

  /** The word the clock enables leave in CLKC_ENABLE. */
  function ClockEnablesWord(w: Word): Word
  {
    Set(Set(Set(w, CORE_CLK_EN, 1), LIDD_CLK_EN, 1), DMA_CLK_EN, 1)
  }

  lemma ClockEnablesTrace(regs: seq<Word>)
    requires |regs| == REG_WORDS
    ensures ApplyTrace(regs, CLOCK_ENABLES) == regs[CLKC_ENABLE := ClockEnablesWord(regs[CLKC_ENABLE])]
  {
    var w0 := regs[CLKC_ENABLE];
    var r1 := Apply(regs, SetCoreClkEn(1));
    var r2 := Apply(r1, SetLiddClkEn(1));
    ApplyThree(regs, SetCoreClkEn(1), SetLiddClkEn(1), SetDmaClkEn(1));
    ApplySet(regs, CLKC_ENABLE_OFFS, CORE_CLK_EN, 1);
    assert r1 == regs[CLKC_ENABLE := Set(w0, CORE_CLK_EN, 1)];
    ApplySet(r1, CLKC_ENABLE_OFFS, LIDD_CLK_EN, 1);
    assert r2 == regs[CLKC_ENABLE := Set(Set(w0, CORE_CLK_EN, 1), LIDD_CLK_EN, 1)];
    ApplySet(r2, CLKC_ENABLE_OFFS, DMA_CLK_EN, 1);
  }

  /** The core, LIDD and DMA clocks end up enabled; nothing else changes. */
  lemma ClockEnablesEffect(regs: seq<Word>)
    requires |regs| == REG_WORDS
    ensures var after := ApplyTrace(regs, CLOCK_ENABLES);
      && UnpackClkcEnable(after[CLKC_ENABLE])
         == UnpackClkcEnable(regs[CLKC_ENABLE]).(coreClkEn := 1, liddClkEn := 1, dmaClkEn := 1)
      && SameExcept(after, regs, {CLKC_ENABLE})
  {
    ClockEnablesTrace(regs);
    ClockEnablesWordFields(regs[CLKC_ENABLE]);
  }

  /** The word `am335x_set_lidd_pols` leaves in LIDD_CTRL. */
  function PolsWord(w: Word, p: SigPols): Word
  {
    var w1 := Set(w, ALEPOL, PolarityCode(p.alePol));
    var w2 := Set(w1, RS_EN_POL, PolarityCode(p.rsEnPol));
    var w3 := Set(w2, WS_DIR_POL, PolarityCode(p.wsDirPol));
    var w4 := Set(w3, CS0_E0_POL, PolarityCode(p.cs0E0Pol));
    Set(w4, CS1_E1_POL, PolarityCode(p.cs1E1Pol))
  }

  lemma PolsUpdates(w: Word, p: SigPols)
    ensures SetAll(w, SetLiddPols(p).ups) == PolsWord(w, p)
  {
    var u := SetLiddPols(p).ups;
    var w1 := Set(w, ALEPOL, PolarityCode(p.alePol));
    var w2 := Set(w1, RS_EN_POL, PolarityCode(p.rsEnPol));
    var w3 := Set(w2, WS_DIR_POL, PolarityCode(p.wsDirPol));
    var w4 := Set(w3, CS0_E0_POL, PolarityCode(p.cs0E0Pol));
    assert u == [u[0]] + ([u[1]] + ([u[2]] + ([u[3]] + ([u[4]] + []))));
    SetAllCons(w, u[0], [u[1]] + ([u[2]] + ([u[3]] + ([u[4]] + []))));
    SetAllCons(w1, u[1], [u[2]] + ([u[3]] + ([u[4]] + [])));
    SetAllCons(w2, u[2], [u[3]] + ([u[4]] + []));
    SetAllCons(w3, u[3], [u[4]] + []);
    SetAllCons(w4, u[4], []);
  }

  /** The word the LIDD control defaults leave in LIDD_CTRL. */
  function LiddCtrlWord(w: Word): Word
  {
    Set(PolsWord(w, INIT_SIG_POLS), LIDD_MODE_SEL, LiddProtocolCode(SyncMpu80))
  }

  lemma LiddCtrlDefaultsTrace(regs: seq<Word>)
    requires |regs| == REG_WORDS
    ensures ApplyTrace(regs, LIDD_CTRL_DEFAULTS)
         == regs[CTRL := Set(regs[CTRL], CLKDIV, 2)][LIDD_CTRL := LiddCtrlWord(regs[LIDD_CTRL])]
  {
    var r1 := Apply(regs, SetClkdiv(2));
    var r2 := Apply(r1, SetLiddPols(INIT_SIG_POLS));
    ApplyThree(regs, SetClkdiv(2), SetLiddPols(INIT_SIG_POLS), SetLiddMode(SyncMpu80));
    ApplySet(regs, CTRL_OFFS, CLKDIV, 2);
    assert r1 == regs[CTRL := Set(regs[CTRL], CLKDIV, 2)];
    ApplyWrite(r1, LIDD_CTRL_OFFS, SetLiddPols(INIT_SIG_POLS).ups);
    PolsUpdates(regs[LIDD_CTRL], INIT_SIG_POLS);
    assert r2 == r1[LIDD_CTRL := PolsWord(regs[LIDD_CTRL], INIT_SIG_POLS)];
    ApplySet(r2, LIDD_CTRL_OFFS, LIDD_MODE_SEL, LiddProtocolCode(SyncMpu80));
  }

  lemma LiddCtrlWordFields(w: Word)
    ensures UnpackLiddCtrl(LiddCtrlWord(w)) == UnpackLiddCtrl(w).(
      liddModeSel := LiddProtocolCode(SyncMpu80),
      alepol := 0, rsEnPol := 0, wsDirPol := 0, cs0E0Pol := 0, cs1E1Pol := 0)
  {
    var w1 := Set(w, ALEPOL, 0);
    var w2 := Set(w1, RS_EN_POL, 0);
    var w3 := Set(w2, WS_DIR_POL, 0);
    var w4 := Set(w3, CS0_E0_POL, 0);
    var w5 := Set(w4, CS1_E1_POL, 0);
    LiddCtrlSetAlepol(w, 0);
    LiddCtrlSetRsEnPol(w1, 0);
    LiddCtrlSetWsDirPol(w2, 0);
    LiddCtrlSetCs0E0Pol(w3, 0);
    LiddCtrlSetCs1E1Pol(w4, 0);
    LiddCtrlSetLiddModeSel(w5, LiddProtocolCode(SyncMpu80));
  }

  /**
   * The clock divisor ends up 2, every LIDD signal uninverted and the bus
   * protocol synchronous MPU80; nothing else changes.
   */
  lemma LiddCtrlDefaultsEffect(regs: seq<Word>)
    requires |regs| == REG_WORDS
    ensures var after := ApplyTrace(regs, LIDD_CTRL_DEFAULTS);
      && UnpackCtrl(after[CTRL]) == UnpackCtrl(regs[CTRL]).(clkdiv := 2)
      && UnpackLiddCtrl(after[LIDD_CTRL]) == UnpackLiddCtrl(regs[LIDD_CTRL]).(
           liddModeSel := LiddProtocolCode(SyncMpu80),
           alepol := 0, rsEnPol := 0, wsDirPol := 0, cs0E0Pol := 0, cs1E1Pol := 0)
      && LiddProtocolOf(UnpackLiddCtrl(after[LIDD_CTRL]).liddModeSel) == Some(SyncMpu80)
      && SameExcept(after, regs, {CTRL, LIDD_CTRL})
  {
    LiddCtrlDefaultsTrace(regs);
    CtrlSetClkdiv(regs[CTRL], 2);
    LiddCtrlWordFields(regs[LIDD_CTRL]);
  }

  /** The word `am335x_set_lidd_timings` leaves in a LIDD_CSx_CONF register. */
  function TimingsWord(w: Word, t: Timings): Word
  {
    var w1 := Set(w, W_SU, t.wSetup);
    var w2 := Set(w1, W_STROBE, t.wStrobe);
    var w3 := Set(w2, W_HOLD, t.wHold);
    var w4 := Set(w3, R_SU, t.rSetup);
    var w5 := Set(w4, R_STROBE, t.rStrobe);
    var w6 := Set(w5, R_HOLD, t.rHold);
    Set(w6, TA, t.ta)
  }

  lemma TimingsUpdates(w: Word, cs: ChipSelect, t: Timings)
    ensures SetAll(w, SetLiddTimings(cs, t).ups) == TimingsWord(w, t)
  {
    var u := SetLiddTimings(cs, t).ups;
    var w1 := Set(w, W_SU, t.wSetup);
    var w2 := Set(w1, W_STROBE, t.wStrobe);
    var w3 := Set(w2, W_HOLD, t.wHold);
    var w4 := Set(w3, R_SU, t.rSetup);
    var w5 := Set(w4, R_STROBE, t.rStrobe);
    var w6 := Set(w5, R_HOLD, t.rHold);
    var t6 := [u[6]] + [];
    var t5 := [u[5]] + t6;
    var t4 := [u[4]] + t5;
    var t3 := [u[3]] + t4;
    var t2 := [u[2]] + t3;
    var t1 := [u[1]] + t2;
    assert u == [u[0]] + t1;
    SetAllCons(w, u[0], t1);
    SetAllCons(w1, u[1], t2);
    SetAllCons(w2, u[2], t3);
    SetAllCons(w3, u[3], t4);
    SetAllCons(w4, u[4], t5);
    SetAllCons(w5, u[5], t6);
    SetAllCons(w6, u[6], []);
  }

  lemma TimingsWordFields(w: Word)
    ensures UnpackCsConf(TimingsWord(w, INIT_TIMINGS))
         == UnpackCsConf(w).(wSu := 1, wStrobe := 1, wHold := 1, rSu := 1, rStrobe := 1, rHold := 1, ta := 1)
  {
    var w1 := Set(w, W_SU, 1);
    var w2 := Set(w1, W_STROBE, 1);
    var w3 := Set(w2, W_HOLD, 1);
    var w4 := Set(w3, R_SU, 1);
    var w5 := Set(w4, R_STROBE, 1);
    var w6 := Set(w5, R_HOLD, 1);
    CsConfSetWSu(w, 1);
    CsConfSetWStrobe(w1, 1);
    CsConfSetWHold(w2, 1);
    CsConfSetRSu(w3, 1);
    CsConfSetRStrobe(w4, 1);
    CsConfSetRHold(w5, 1);
    CsConfSetTa(w6, 1);
  }

  lemma TimingDefaultsTrace(regs: seq<Word>)
    requires |regs| == REG_WORDS
    ensures ApplyTrace(regs, TIMING_DEFAULTS)
         == regs[CS0_CONF := TimingsWord(regs[CS0_CONF], INIT_TIMINGS)]
                [CS1_CONF := TimingsWord(regs[CS1_CONF], INIT_TIMINGS)]
  {
    var r1 := regs[CS0_CONF := TimingsWord(regs[CS0_CONF], INIT_TIMINGS)];
    ApplyTwo(regs, SetLiddTimings(Cs0, INIT_TIMINGS), SetLiddTimings(Cs1, INIT_TIMINGS));
    ApplyWrite(regs, LIDD_CS0_CONF_OFFS, SetLiddTimings(Cs0, INIT_TIMINGS).ups);
    TimingsUpdates(regs[CS0_CONF], Cs0, INIT_TIMINGS);
    ApplyWrite(r1, LIDD_CS1_CONF_OFFS, SetLiddTimings(Cs1, INIT_TIMINGS).ups);
    TimingsUpdates(regs[CS1_CONF], Cs1, INIT_TIMINGS);
  }

  /** Every timing of both chip selects ends up one cycle; nothing else changes. */
  lemma TimingDefaultsEffect(regs: seq<Word>)
    requires |regs| == REG_WORDS
    ensures var after := ApplyTrace(regs, TIMING_DEFAULTS);
      && UnpackCsConf(after[CS0_CONF]) == UnpackCsConf(regs[CS0_CONF]).(
           wSu := 1, wStrobe := 1, wHold := 1, rSu := 1, rStrobe := 1, rHold := 1, ta := 1)
      && UnpackCsConf(after[CS1_CONF]) == UnpackCsConf(regs[CS1_CONF]).(
           wSu := 1, wStrobe := 1, wHold := 1, rSu := 1, rStrobe := 1, rHold := 1, ta := 1)
      && SameExcept(after, regs, {CS0_CONF, CS1_CONF})
  {
    TimingDefaultsTrace(regs);
    TimingsWordFields(regs[CS0_CONF]);
    TimingsWordFields(regs[CS1_CONF]);
  }

  /** The word the DMA defaults leave in LCDDMA_CTRL. */
  function DmaWord(w: Word): Word
  {
    Set(Set(Set(w, TH_FIFO_READY, FIFO_TH_16), BURST_SIZE, BURST_SIZE_16), FRAME_MODE, ONE_FRAME)
  }

  lemma DmaDefaultsTrace(regs: seq<Word>)
    requires |regs| == REG_WORDS
    ensures ApplyTrace(regs, DMA_DEFAULTS) == regs[LCDDMA_CTRL := DmaWord(regs[LCDDMA_CTRL])]
  {
    var w0 := regs[LCDDMA_CTRL];
    var r1 := regs[LCDDMA_CTRL := Set(w0, TH_FIFO_READY, FIFO_TH_16)];
    var r2 := r1[LCDDMA_CTRL := Set(r1[LCDDMA_CTRL], BURST_SIZE, BURST_SIZE_16)];
    ApplyThree(regs, SetFifoThreshold(FIFO_TH_16), SetBurstSize(BURST_SIZE_16), SetFrameMode(ONE_FRAME));
    ApplySet(regs, LCDDMA_CTRL_OFFS, TH_FIFO_READY, FIFO_TH_16);
    ApplySet(r1, LCDDMA_CTRL_OFFS, BURST_SIZE, BURST_SIZE_16);
    ApplySet(r2, LCDDMA_CTRL_OFFS, FRAME_MODE, ONE_FRAME);
  }

  /**
   * The DMA engine ends up with a FIFO threshold of 16 double words, bursts
   * of 16 and a single frame buffer; nothing else changes.
   */
  lemma DmaDefaultsEffect(regs: seq<Word>)
    requires |regs| == REG_WORDS
    ensures var after := ApplyTrace(regs, DMA_DEFAULTS);
      && UnpackLcddmaCtrl(after[LCDDMA_CTRL]) == UnpackLcddmaCtrl(regs[LCDDMA_CTRL]).(
           thFifoReady := FIFO_TH_16, burstSize := BURST_SIZE_16, frameMode := ONE_FRAME)
      && SameExcept(after, regs, {LCDDMA_CTRL})
  {
    DmaDefaultsTrace(regs);
    DmaWordFields(regs[LCDDMA_CTRL]);
  }

  /**
   * Where the words of the default programming land in the register file,
   * one register group after the other.
   */
  lemma DefaultWords(regs: seq<Word>, cw: Word, c: Word, l: Word, t0: Word, t1: Word, d: Word)
    requires |regs| == REG_WORDS
    ensures var r1 := regs[CLKC_ENABLE := cw];
      var r2 := r1[CTRL := c][LIDD_CTRL := l];
      var r3 := r2[CS0_CONF := t0][CS1_CONF := t1];
      var r4 := r3[LCDDMA_CTRL := d];
      && |r1| == |r2| == |r3| == REG_WORDS
      && r1[CTRL] == regs[CTRL] && r1[LIDD_CTRL] == regs[LIDD_CTRL]
      && r2[CS0_CONF] == regs[CS0_CONF] && r2[CS1_CONF] == regs[CS1_CONF]
      && r3[LCDDMA_CTRL] == regs[LCDDMA_CTRL]
      && r4[CLKC_ENABLE] == cw && r4[CTRL] == c && r4[LIDD_CTRL] == l
      && r4[CS0_CONF] == t0 && r4[CS1_CONF] == t1 && r4[LCDDMA_CTRL] == d
      && SameExcept(r4, regs, {CLKC_ENABLE, CTRL, LIDD_CTRL, CS0_CONF, CS1_CONF, LCDDMA_CTRL})
  {
    assert CLKC_ENABLE == 27 && CTRL == 1 && LIDD_CTRL == 3 && CS0_CONF == 4 && CS1_CONF == 7 && LCDDMA_CTRL == 16;
  }

  /** The default programming as a whole, register group by register group. */
  lemma DefaultProgrammingTrace(regs: seq<Word>)
    requires |regs| == REG_WORDS
    ensures var r4 := ApplyTrace(regs, DEFAULT_PROGRAMMING);
      && r4[CLKC_ENABLE] == ClockEnablesWord(regs[CLKC_ENABLE])
      && r4[CTRL] == Set(regs[CTRL], CLKDIV, 2)
      && r4[LIDD_CTRL] == LiddCtrlWord(regs[LIDD_CTRL])
      && r4[CS0_CONF] == TimingsWord(regs[CS0_CONF], INIT_TIMINGS)
      && r4[CS1_CONF] == TimingsWord(regs[CS1_CONF], INIT_TIMINGS)
      && r4[LCDDMA_CTRL] == DmaWord(regs[LCDDMA_CTRL])
      && SameExcept(r4, regs, {CLKC_ENABLE, CTRL, LIDD_CTRL, CS0_CONF, CS1_CONF, LCDDMA_CTRL})
  {
    var cw, c, l := ClockEnablesWord(regs[CLKC_ENABLE]), Set(regs[CTRL], CLKDIV, 2), LiddCtrlWord(regs[LIDD_CTRL]);
    var t0, t1 := TimingsWord(regs[CS0_CONF], INIT_TIMINGS), TimingsWord(regs[CS1_CONF], INIT_TIMINGS);
    var d := DmaWord(regs[LCDDMA_CTRL]);
    var r1 := regs[CLKC_ENABLE := cw];
    var r2 := r1[CTRL := c][LIDD_CTRL := l];
    var r3 := r2[CS0_CONF := t0][CS1_CONF := t1];
    var r4 := r3[LCDDMA_CTRL := d];
    DefaultWords(regs, cw, c, l, t0, t1, d);
    assert ApplyTrace(regs, DEFAULT_PROGRAMMING)
        == ApplyTrace(ApplyTrace(ApplyTrace(ApplyTrace(regs, CLOCK_ENABLES), LIDD_CTRL_DEFAULTS), TIMING_DEFAULTS), DMA_DEFAULTS) by {
      ApplyTraceAppend(regs, CLOCK_ENABLES + LIDD_DEFAULTS, DMA_DEFAULTS);
      ApplyTraceAppend(regs, CLOCK_ENABLES, LIDD_DEFAULTS);
      ApplyTraceAppend(ApplyTrace(regs, CLOCK_ENABLES), LIDD_CTRL_DEFAULTS, TIMING_DEFAULTS);
    }
    assert ApplyTrace(regs, CLOCK_ENABLES) == r1 by {
      ClockEnablesTrace(regs);
    }
    assert ApplyTrace(r1, LIDD_CTRL_DEFAULTS) == r2 by {
      LiddCtrlDefaultsTrace(r1);
    }
    assert ApplyTrace(r2, TIMING_DEFAULTS) == r3 by {
      TimingDefaultsTrace(r2);
    }
    assert ApplyTrace(r3, DMA_DEFAULTS) == r4 by {
      DmaDefaultsTrace(r3);
    }
  }

  /** The fields the clock enables leave in CLKC_ENABLE. */
  lemma ClockEnablesWordFields(w: Word)
    ensures UnpackClkcEnable(ClockEnablesWord(w))
         == UnpackClkcEnable(w).(coreClkEn := 1, liddClkEn := 1, dmaClkEn := 1)
  {
    var w1 := Set(w, CORE_CLK_EN, 1);
    var w2 := Set(w1, LIDD_CLK_EN, 1);
    ClkcEnableSetCoreClkEn(w, 1);
    ClkcEnableSetLiddClkEn(w1, 1);
    ClkcEnableSetDmaClkEn(w2, 1);
  }

  /** The fields the DMA defaults leave in LCDDMA_CTRL. */
  lemma DmaWordFields(w: Word)
    ensures UnpackLcddmaCtrl(DmaWord(w)) == UnpackLcddmaCtrl(w).(
      thFifoReady := FIFO_TH_16, burstSize := BURST_SIZE_16, frameMode := ONE_FRAME)
  {
    var w1 := Set(w, TH_FIFO_READY, FIFO_TH_16);
    var w2 := Set(w1, BURST_SIZE, BURST_SIZE_16);
    LcddmaCtrlSetThFifoReady(w, FIFO_TH_16);
    LcddmaCtrlSetBurstSize(w1, BURST_SIZE_16);
    LcddmaCtrlSetFrameMode(w2, ONE_FRAME);
  }

  /**
   * A successful `init` leaves the defaults of every register it programs:
   * the three clocks enabled, divisor 2, uninverted signals, synchronous
   * MPU80, one-cycle timings on both chip selects and the DMA settings;
   * every other register and every other field keeps its value.
   */
  lemma InitProgramsDefaults(regs: seq<Word>, k: KernelCalls)
    requires |regs| == REG_WORDS
    requires Acquired(k)
    ensures var after := ApplyTrace(regs, InitTrace(true, k));
      && UnpackClkcEnable(after[CLKC_ENABLE])
         == UnpackClkcEnable(regs[CLKC_ENABLE]).(coreClkEn := 1, liddClkEn := 1, dmaClkEn := 1)
      && UnpackCtrl(after[CTRL]) == UnpackCtrl(regs[CTRL]).(clkdiv := 2)
      && UnpackLiddCtrl(after[LIDD_CTRL]) == UnpackLiddCtrl(regs[LIDD_CTRL]).(
           liddModeSel := LiddProtocolCode(SyncMpu80),
           alepol := 0, rsEnPol := 0, wsDirPol := 0, cs0E0Pol := 0, cs1E1Pol := 0)
      && UnpackCsConf(after[CS0_CONF]) == UnpackCsConf(regs[CS0_CONF]).(
           wSu := 1, wStrobe := 1, wHold := 1, rSu := 1, rStrobe := 1, rHold := 1, ta := 1)
      && UnpackCsConf(after[CS1_CONF]) == UnpackCsConf(regs[CS1_CONF]).(
           wSu := 1, wStrobe := 1, wHold := 1, rSu := 1, rStrobe := 1, rHold := 1, ta := 1)
      && UnpackLcddmaCtrl(after[LCDDMA_CTRL]) == UnpackLcddmaCtrl(regs[LCDDMA_CTRL]).(
           thFifoReady := FIFO_TH_16, burstSize := BURST_SIZE_16, frameMode := ONE_FRAME)
      && SameExcept(after, regs, {CLKC_ENABLE, CTRL, LIDD_CTRL, CS0_CONF, CS1_CONF, LCDDMA_CTRL})
  {
    assert ApplyTrace(regs, InitTrace(true, k)) == ApplyTrace(regs, DEFAULT_PROGRAMMING) by {
      AcquireFromNoWrites(Outcomes(k), 0);
      ApplyTraceNoWrites(regs, AcquireTrace(k));
      ApplyTraceAppend(regs, AcquireTrace(k), DEFAULT_PROGRAMMING);
    }
    DefaultProgrammingTrace(regs);
    ClockEnablesWordFields(regs[CLKC_ENABLE]);
    CtrlSetClkdiv(regs[CTRL], 2);
    LiddCtrlWordFields(regs[LIDD_CTRL]);
    TimingsWordFields(regs[CS0_CONF]);
    TimingsWordFields(regs[CS1_CONF]);
    DmaWordFields(regs[LCDDMA_CTRL]);
  }

  /** A failed `init` writes no register. */
  lemma InitFailureWritesNothing(regs: seq<Word>, k: KernelCalls)
    requires !Acquired(k)
    ensures ApplyTrace(regs, InitTrace(true, k)) == regs
    ensures forall e :: e in InitTrace(true, k) ==> !e.RegWrite?
  {
    AcquireFromNoWrites(Outcomes(k), 0);
    ApplyTraceNoWrites(regs, AcquireTrace(k));
    assert InitTrace(true, k) == AcquireTrace(k) + [] == AcquireTrace(k);
  }

  // ---------------------------------------------------------------------
  // The write engine.

  /** Where the address phase's new words land in the register file. */
  lemma AddrWords(regs: seq<Word>, xa: Word, ya: Word)
    requires |regs| == REG_WORDS
    ensures var r := regs[LIDD_CTRL := xa][CS0_ADDR := ya];
      && r[LIDD_CTRL] == xa && r[CS0_ADDR] == ya
      && SameExcept(r, regs, {LIDD_CTRL, CS0_ADDR})
  {
    assert LIDD_CTRL == 3 && CS0_ADDR == 5;
  }

  /**
   * The address phase clears lidd_dma_en and puts the low 16 bits of the
   * address into CS0's adr_indx; every other field and register is kept.
   */
  lemma AddrPhaseEffect(regs: seq<Word>, addr: bv16)
    requires |regs| == REG_WORDS
    ensures var after := ApplyTrace(regs, AddrPhase(addr));
      && UnpackLiddCtrl(after[LIDD_CTRL]) == UnpackLiddCtrl(regs[LIDD_CTRL]).(liddDmaEn := 0)
      && UnpackCsAddr(after[CS0_ADDR]) == UnpackCsAddr(regs[CS0_ADDR]).(adrIndx := addr as Word)
      && SameExcept(after, regs, {LIDD_CTRL, CS0_ADDR})
  {
    var xa := Set(regs[LIDD_CTRL], LIDD_DMA_EN, 0);
    var ya := Set(regs[CS0_ADDR], ADR_INDX, addr as Word);
    AddrPhaseTrace(regs, addr);
    AddrWords(regs, xa, ya);
    LiddCtrlSetLiddDmaEn(regs[LIDD_CTRL], 0);
    CsAddrSetAdrIndx(regs[CS0_ADDR], addr as Word);
    assert (addr as Word) % 65536 == addr as Word;
  }

  /** Four register writes in a row. */
  lemma ApplyFour(regs: seq<Word>, e1: Event, e2: Event, e3: Event, e4: Event)
    ensures ApplyTrace(regs, [e1, e2, e3, e4]) == Apply(Apply(Apply(Apply(regs, e1), e2), e3), e4)
  {
    assert [e1, e2, e3, e4] == [e1] + [e2, e3, e4];
    ApplyTraceCons(regs, e1, [e2, e3, e4]);
    ApplyThree(Apply(regs, e1), e2, e3, e4);
  }

  /** The word the data phase leaves in LIDD_CTRL: DMA disabled, then enabled. */
  function DmaToggleWord(w: Word): Word
  {
    Set(Set(w, LIDD_DMA_EN, 0), LIDD_DMA_EN, 1)
  }

  /** Disabling LIDD DMA, then setting FB0's base. */
  lemma Fb0BaseTrace(regs: seq<Word>, base: Ptr)
    requires |regs| == REG_WORDS
    ensures ApplyTrace(regs, [SetLiddDmaEn(0), SetFbBaseAddr(Fb0, base)])
         == regs[LIDD_CTRL := Set(regs[LIDD_CTRL], LIDD_DMA_EN, 0)]
                [FB0_BASE := Set(regs[FB0_BASE], FB_ADDR, FbField(base))]
  {
    var r1 := regs[LIDD_CTRL := Set(regs[LIDD_CTRL], LIDD_DMA_EN, 0)];
    ApplyTwo(regs, SetLiddDmaEn(0), SetFbBaseAddr(Fb0, base));
    ApplySet(regs, LIDD_CTRL_OFFS, LIDD_DMA_EN, 0);
    ApplySet(r1, LCDDMA_FB0_BASE_OFFS, FB_ADDR, FbField(base));
  }

  /** Setting FB0's ceiling, then enabling LIDD DMA. */
  lemma Fb0CeilTrace(regs: seq<Word>, ceil: Ptr)
    requires |regs| == REG_WORDS
    ensures ApplyTrace(regs, [SetFbCeilAddr(Fb0, ceil), SetLiddDmaEn(1)])
         == regs[FB0_CEIL := Set(regs[FB0_CEIL], FB_ADDR, FbField(ceil))]
                [LIDD_CTRL := Set(regs[LIDD_CTRL], LIDD_DMA_EN, 1)]
  {
    var r1 := regs[FB0_CEIL := Set(regs[FB0_CEIL], FB_ADDR, FbField(ceil))];
    ApplyTwo(regs, SetFbCeilAddr(Fb0, ceil), SetLiddDmaEn(1));
    ApplySet(regs, LCDDMA_FB0_CEIL_OFFS, FB_ADDR, FbField(ceil));
    ApplySet(r1, LIDD_CTRL_OFFS, LIDD_DMA_EN, 1);
  }

  /**
   * The register file after the data phase, regrouped: the two writes of
   * LIDD_CTRL collapse into the last one.
   */
  lemma Fb0Regroup(regs: seq<Word>, x0: Word, x1: Word, wb: Word, wc: Word)
    requires |regs| == REG_WORDS
    ensures regs[LIDD_CTRL := x0][FB0_BASE := wb][FB0_CEIL := wc][LIDD_CTRL := x1]
         == regs[LIDD_CTRL := x1][FB0_BASE := wb][FB0_CEIL := wc]
  {
    var a := regs[LIDD_CTRL := x0][FB0_BASE := wb][FB0_CEIL := wc][LIDD_CTRL := x1];
    var b := regs[LIDD_CTRL := x1][FB0_BASE := wb][FB0_CEIL := wc];
    assert LIDD_CTRL == 3 && FB0_BASE == 17 && FB0_CEIL == 18;
    forall i | 0 <= i < |a| ensures a[i] == b[i] {
    }
  }

  /** FB0 programmed to span `base` to `ceil` between a DMA disable and enable. */
  lemma Fb0ProgrammingTrace(regs: seq<Word>, base: Ptr, ceil: Ptr)
    requires |regs| == REG_WORDS
    ensures ApplyTrace(regs, [SetLiddDmaEn(0), SetFbBaseAddr(Fb0, base), SetFbCeilAddr(Fb0, ceil), SetLiddDmaEn(1)])
         == regs[LIDD_CTRL := DmaToggleWord(regs[LIDD_CTRL])]
                [FB0_BASE := Set(regs[FB0_BASE], FB_ADDR, FbField(base))]
                [FB0_CEIL := Set(regs[FB0_CEIL], FB_ADDR, FbField(ceil))]
  {
    var a := [SetLiddDmaEn(0), SetFbBaseAddr(Fb0, base)];
    var b := [SetFbCeilAddr(Fb0, ceil), SetLiddDmaEn(1)];
    var x0 := Set(regs[LIDD_CTRL], LIDD_DMA_EN, 0);
    var wb, wc := Set(regs[FB0_BASE], FB_ADDR, FbField(base)), Set(regs[FB0_CEIL], FB_ADDR, FbField(ceil));
    var r2 := regs[LIDD_CTRL := x0][FB0_BASE := wb];
    assert a + b == [SetLiddDmaEn(0), SetFbBaseAddr(Fb0, base), SetFbCeilAddr(Fb0, ceil), SetLiddDmaEn(1)];
    ApplyTraceAppend(regs, a, b);
    Fb0BaseTrace(regs, base);
    Fb0CeilTrace(r2, ceil);
    assert r2[LIDD_CTRL] == x0;
    Fb0Regroup(regs, x0, Set(x0, LIDD_DMA_EN, 1), wb, wc);
  }

  lemma DataPhaseTrace(regs: seq<Word>, data: Ptr, len: bv32)
    requires |regs| == REG_WORDS
    ensures ApplyTrace(regs, DataPhase(data, len))
         == regs[LIDD_CTRL := DmaToggleWord(regs[LIDD_CTRL])]
                [FB0_BASE := Set(regs[FB0_BASE], FB_ADDR, FbField(data))]
                [FB0_CEIL := Set(regs[FB0_CEIL], FB_ADDR, FbField(LastWordAddress(data, len)))]
  {
    Fb0ProgrammingTrace(regs, data, LastWordAddress(data, len));
  }

  /** Disabling and then enabling LIDD DMA leaves it enabled and every other field as it was. */
  lemma DmaToggleFields(w: Word)
    ensures UnpackLiddCtrl(DmaToggleWord(w)) == UnpackLiddCtrl(w).(liddDmaEn := 1)
  {
    LiddCtrlSetLiddDmaEn(w, 0);
    LiddCtrlSetLiddDmaEn(Set(w, LIDD_DMA_EN, 0), 1);
  }

  /** Where the data phase's new words land in the register file. */
  lemma Fb0Words(regs: seq<Word>, x: Word, wb: Word, wc: Word)
    requires |regs| == REG_WORDS
    ensures var r := regs[LIDD_CTRL := x][FB0_BASE := wb][FB0_CEIL := wc];
      && r[LIDD_CTRL] == x && r[FB0_BASE] == wb && r[FB0_CEIL] == wc
      && SameExcept(r, regs, {LIDD_CTRL, FB0_BASE, FB0_CEIL})
  {
    assert LIDD_CTRL == 3 && FB0_BASE == 17 && FB0_CEIL == 18;
  }

  /**
   * The data phase leaves LIDD DMA enabled with FB0 spanning the buffer:
   * fb_base holds the buffer's address and fb_ceil the address of its last
   * 16-bit word, each less bits 0-1; the reserved bits of the FB0
   * registers, the other LIDD_CTRL fields and every other register are kept.
   */
  lemma DataPhaseEffect(regs: seq<Word>, data: Ptr, len: bv32)
    requires |regs| == REG_WORDS
    ensures var after := ApplyTrace(regs, DataPhase(data, len));
      && UnpackLiddCtrl(after[LIDD_CTRL]) == UnpackLiddCtrl(regs[LIDD_CTRL]).(liddDmaEn := 1)
      && FbAddress(after[FB0_BASE]) == data & !3
      && FbAddress(after[FB0_CEIL]) == LastWordAddress(data, len) & !3
      && Get(after[FB0_BASE], FB_RESERVED) == Get(regs[FB0_BASE], FB_RESERVED)
      && Get(after[FB0_CEIL], FB_RESERVED) == Get(regs[FB0_CEIL], FB_RESERVED)
      && SameExcept(after, regs, {LIDD_CTRL, FB0_BASE, FB0_CEIL})
  {
    var ceil := LastWordAddress(data, len);
    var x := DmaToggleWord(regs[LIDD_CTRL]);
    var wb, wc := Set(regs[FB0_BASE], FB_ADDR, FbField(data)), Set(regs[FB0_CEIL], FB_ADDR, FbField(ceil));
    DataPhaseTrace(regs, data, len);
    Fb0Words(regs, x, wb, wc);
    DmaToggleFields(regs[LIDD_CTRL]);
    FbAddressRoundTrip(regs[FB0_BASE], data);
    FbAddressRoundTrip(regs[FB0_CEIL], ceil);
  }

  /** Changes confined to `s1` and then to `s2` are confined to both together. */
  lemma SameExceptTrans(a: seq<Word>, b: seq<Word>, c: seq<Word>, s1: set<nat>, s2: set<nat>)
    requires SameExcept(b, a, s1) && SameExcept(c, b, s2)
    ensures SameExcept(c, a, s1 + s2)
  {}

  /** A word outside the changed set keeps its value. */
  lemma SameExceptAt(a: seq<Word>, b: seq<Word>, s: set<nat>, i: nat)
    requires SameExcept(b, a, s) && i < |a| && i !in s
    ensures b[i] == a[i]
  {}

  /** The register file after the address phase. */
  lemma AddrPhaseTrace(regs: seq<Word>, addr: bv16)
    requires |regs| == REG_WORDS
    ensures ApplyTrace(regs, AddrPhase(addr))
         == regs[LIDD_CTRL := Set(regs[LIDD_CTRL], LIDD_DMA_EN, 0)]
                [CS0_ADDR := Set(regs[CS0_ADDR], ADR_INDX, addr as Word)]
  {
    var r1 := Apply(regs, SetLiddDmaEn(0));
    ApplyTwo(regs, SetLiddDmaEn(0), SetLiddAddr(Cs0, addr as Word));
    ApplySet(regs, LIDD_CTRL_OFFS, LIDD_DMA_EN, 0);
    ApplySet(r1, LIDD_CS0_ADDR_OFFS, ADR_INDX, addr as Word);
  }

  /** Where the words of a `write` with data land in the register file. */
  lemma WriteWords(regs: seq<Word>, xa: Word, ya: Word, x: Word, wb: Word, wc: Word)
    requires |regs| == REG_WORDS
    ensures var r1 := regs[LIDD_CTRL := xa][CS0_ADDR := ya];
      var r := r1[LIDD_CTRL := x][FB0_BASE := wb][FB0_CEIL := wc];
      && |r1| == REG_WORDS
      && r1[LIDD_CTRL] == xa && r1[FB0_BASE] == regs[FB0_BASE] && r1[FB0_CEIL] == regs[FB0_CEIL]
      && r[LIDD_CTRL] == x && r[CS0_ADDR] == ya && r[FB0_BASE] == wb && r[FB0_CEIL] == wc
      && SameExcept(r, regs, {LIDD_CTRL, CS0_ADDR, FB0_BASE, FB0_CEIL})
  {
    assert LIDD_CTRL == 3 && CS0_ADDR == 5 && FB0_BASE == 17 && FB0_CEIL == 18;
  }

  /** `write` with data: the address phase, then the data phase. */
  lemma WriteTransferEffect(regs: seq<Word>, addr: bv16, buf: Ptr, len: bv32)
    requires |regs| == REG_WORDS
    requires len > 0 && buf != NULL
    ensures var after := ApplyTrace(regs, WriteTrace(addr, buf, len));
      && UnpackCsAddr(after[CS0_ADDR]) == UnpackCsAddr(regs[CS0_ADDR]).(adrIndx := addr as Word)
      && UnpackLiddCtrl(after[LIDD_CTRL]) == UnpackLiddCtrl(regs[LIDD_CTRL]).(liddDmaEn := 1)
      && FbAddress(after[FB0_BASE]) == buf & !3
      && FbAddress(after[FB0_CEIL]) == LastWordAddress(buf, len) & !3
      && SameExcept(after, regs, {LIDD_CTRL, CS0_ADDR, FB0_BASE, FB0_CEIL})
  {
    var ceil := LastWordAddress(buf, len);
    var xa := Set(regs[LIDD_CTRL], LIDD_DMA_EN, 0);
    var ya := Set(regs[CS0_ADDR], ADR_INDX, addr as Word);
    var wb, wc := Set(regs[FB0_BASE], FB_ADDR, FbField(buf)), Set(regs[FB0_CEIL], FB_ADDR, FbField(ceil));
    var r1 := regs[LIDD_CTRL := xa][CS0_ADDR := ya];
    WriteWords(regs, xa, ya, DmaToggleWord(xa), wb, wc);
    assert ApplyTrace(regs, WriteTrace(addr, buf, len)) == ApplyTrace(r1, DataPhase(buf, len)) by {
      ApplyTraceAppend(regs, AddrPhase(addr), DataPhase(buf, len));
      AddrPhaseTrace(regs, addr);
    }
    DataPhaseTrace(r1, buf, len);
    CsAddrSetAdrIndx(regs[CS0_ADDR], addr as Word);
    assert (addr as Word) % 65536 == addr as Word;
    LiddCtrlSetLiddDmaEn(regs[LIDD_CTRL], 0);
    DmaToggleFields(xa);
    FbAddressRoundTrip(regs[FB0_BASE], buf);
    FbAddressRoundTrip(regs[FB0_CEIL], ceil);
  }

  /**
   * What `write` leaves in the register block.  The address always reaches
   * CS0.  With no data (len 0) or no buffer, LIDD DMA is left disabled and
   * nothing but LIDD_CTRL.lidd_dma_en and CS0's address changes; with data,
   * FB0 spans the buffer and LIDD DMA is left enabled.
   */
  lemma WriteEffect(regs: seq<Word>, addr: bv16, buf: Ptr, len: bv32)
    requires |regs| == REG_WORDS
    ensures var after := ApplyTrace(regs, WriteTrace(addr, buf, len));
      var transfer := len > 0 && buf != NULL;
      && UnpackCsAddr(after[CS0_ADDR]) == UnpackCsAddr(regs[CS0_ADDR]).(adrIndx := addr as Word)
      && UnpackLiddCtrl(after[LIDD_CTRL])
         == UnpackLiddCtrl(regs[LIDD_CTRL]).(liddDmaEn := if transfer then 1 else 0)
      && (!transfer ==> SameExcept(after, regs, {LIDD_CTRL, CS0_ADDR}))
      && (transfer ==>
            && FbAddress(after[FB0_BASE]) == buf & !3
            && FbAddress(after[FB0_CEIL]) == LastWordAddress(buf, len) & !3
            && SameExcept(after, regs, {LIDD_CTRL, CS0_ADDR, FB0_BASE, FB0_CEIL}))
  {
    if len > 0 && buf != NULL {
      WriteTransferEffect(regs, addr, buf, len);
    } else {
      assert WriteTrace(addr, buf, len) == AddrPhase(addr);
      AddrPhaseEffect(regs, addr);
    }
  }

  /**
   * The order of `write`'s register accesses: it first disables LIDD DMA
   * and then writes the address; when it transfers data, it enables LIDD
   * DMA in its last access and in no other, after programming FB0.
   */
  lemma WriteOrder(addr: bv16, buf: Ptr, len: bv32)
    ensures var t := WriteTrace(addr, buf, len);
      && t[0] == SetLiddDmaEn(0)
      && t[1] == SetLiddAddr(Cs0, addr as Word)
      && (len > 0 && buf != NULL <==> SetLiddDmaEn(1) in t)
      && (len > 0 && buf != NULL ==>
            && |t| == 6
            && t[5] == SetLiddDmaEn(1)
            && t[3] == SetFbBaseAddr(Fb0, buf)
            && t[4] == SetFbCeilAddr(Fb0, LastWordAddress(buf, len)))
      && (!(len > 0 && buf != NULL) ==> |t| == 2)
  {
    var t := WriteTrace(addr, buf, len);
    if len > 0 && buf != NULL {
      assert t[5] == SetLiddDmaEn(1);
    } else {
      assert t == AddrPhase(addr);
      assert SetLiddDmaEn(1) != t[0] && SetLiddDmaEn(1) != t[1];
    }
  }

  /**
   * `write` makes no kernel call and gives nothing back: on a controller
   * whose register block is mapped it leaves the resources as they are.
   */
  lemma WriteKeepsResources(held: set<Resource>, addr: bv16, buf: Ptr, len: bv32)
    requires RegMapping in held
    ensures Replay(held, WriteTrace(addr, buf, len)) == Some(held)
    ensures Attempts(WriteTrace(addr, buf, len)) == [] && Puts(WriteTrace(addr, buf, len)) == []
  {
    var t := WriteTrace(addr, buf, len);
    forall e | e in t
      ensures e.RegWrite?
    {
      var i :| 0 <= i < |t| && t[i] == e;
      assert i in {0, 1, 2, 3, 4, 5};
    }
    ReplayRegWrites(held, t);
    AttemptsPutsRegWrites(t);
  }

  /**
   * When the buffer does not run past the top of the 32-bit address space
   * (its last word lies at or above its first), FB0's ceiling, as stored
   * and read back, is not below its base.
   */
  lemma CeilingNotBelowBase(w1: Word, w2: Word, data: Ptr, len: bv32)
    requires data <= LastWordAddress(data, len)
    ensures FbAddress(Set(w1, FB_ADDR, FbField(data)))
         <= FbAddress(Set(w2, FB_ADDR, FbField(LastWordAddress(data, len))))
  {
    FbAddressMonotone(w1, w2, data, LastWordAddress(data, len));
  }
}
