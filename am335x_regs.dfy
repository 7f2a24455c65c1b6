/**
 * Register map of the AM335x LCD controller (LCDC) as the LIDD driver sees it:
 * the byte offsets of the registers inside the memory-mapped block and the
 * bit-field layout of each 32-bit register.
 *
 * Every layout is a list of fields allocated from bit 0 upwards, in
 * declaration order, as C bit-fields are on little-endian ARM.  For each
 * layout a lemma proves that its fields tile the word exactly.  For the
 * registers the driver programs, a record type gives the decoded view with
 * `Unpack` and `Pack` and a lemma per field says that assigning the field
 * changes that field alone.
 */
module Am335xRegs {
  import opened Bits
  import opened Wrappers

  // Byte offsets of the registers inside the LCDC register block.
  const PID_OFFS: nat := 0x00
  const CTRL_OFFS: nat := 0x04
  const LIDD_CTRL_OFFS: nat := 0x0C
  const LIDD_CS0_CONF_OFFS: nat := 0x10
  const LIDD_CS0_ADDR_OFFS: nat := 0x14
  const LIDD_CS0_DATA_OFFS: nat := 0x18
  const LIDD_CS1_CONF_OFFS: nat := 0x1C
  const LIDD_CS1_ADDR_OFFS: nat := 0x20
  const LIDD_CS1_DATA_OFFS: nat := 0x24
  const LCDDMA_CTRL_OFFS: nat := 0x40
  const LCDDMA_FB0_BASE_OFFS: nat := 0x44
  const LCDDMA_FB0_CEIL_OFFS: nat := 0x48
  const LCDDMA_FB1_BASE_OFFS: nat := 0x4C
  const LCDDMA_FB1_CEIL_OFFS: nat := 0x50
  const SYSCONFIG_OFFS: nat := 0x54
  const IRQSTATUS_RAW_OFFS: nat := 0x58
  const IRQSTATUS_OFFS: nat := 0x5C
  const IRQENABLE_SET_OFFS: nat := 0x60
  const IRQENABLE_CLEAR_OFFS: nat := 0x64
  const CLKC_ENABLE_OFFS: nat := 0x6C
  const CLKC_RESET_OFFS: nat := 0x70

  const REGISTER_OFFSETS: seq<nat> := [
    PID_OFFS, CTRL_OFFS, LIDD_CTRL_OFFS, LIDD_CS0_CONF_OFFS, LIDD_CS0_ADDR_OFFS,
    LIDD_CS0_DATA_OFFS, LIDD_CS1_CONF_OFFS, LIDD_CS1_ADDR_OFFS, LIDD_CS1_DATA_OFFS,
    LCDDMA_CTRL_OFFS, LCDDMA_FB0_BASE_OFFS, LCDDMA_FB0_CEIL_OFFS, LCDDMA_FB1_BASE_OFFS,
    LCDDMA_FB1_CEIL_OFFS, SYSCONFIG_OFFS, IRQSTATUS_RAW_OFFS, IRQSTATUS_OFFS,
    IRQENABLE_SET_OFFS, IRQENABLE_CLEAR_OFFS, CLKC_ENABLE_OFFS, CLKC_RESET_OFFS]

  /** Number of 32-bit words from offset 0 up to and including CLKC_RESET. */
  const REG_WORDS: nat := 29

  /** Index of the 32-bit word at byte offset `offs` in the register file. */
  function RegIndex(offs: nat): nat
  {
    offs / 4
  }

  /**
   * The offsets name distinct, word-aligned registers inside the block, so
   * the register file can be indexed by `RegIndex` without two registers
   * sharing a word.
   */
  lemma OffsetsDistinctWords()
    ensures forall i :: 0 <= i < |REGISTER_OFFSETS| ==>
      REGISTER_OFFSETS[i] % 4 == 0 && RegIndex(REGISTER_OFFSETS[i]) < REG_WORDS
    ensures forall i, j :: 0 <= i < j < |REGISTER_OFFSETS| ==>
      RegIndex(REGISTER_OFFSETS[i]) < RegIndex(REGISTER_OFFSETS[j])
  {}

  /** The two LIDD chip selects. */
  datatype ChipSelect = Cs0 | Cs1

  function ConfOffset(cs: ChipSelect): nat
  {
    match cs
    case Cs0 => LIDD_CS0_CONF_OFFS
    case Cs1 => LIDD_CS1_CONF_OFFS
  }

  function AddrOffset(cs: ChipSelect): nat
  {
    match cs
    case Cs0 => LIDD_CS0_ADDR_OFFS
    case Cs1 => LIDD_CS1_ADDR_OFFS
  }

  function DataOffset(cs: ChipSelect): nat
  {
    match cs
    case Cs0 => LIDD_CS0_DATA_OFFS
    case Cs1 => LIDD_CS1_DATA_OFFS
  }

  /** The two DMA frame buffers. */
  datatype FrameBuffer = Fb0 | Fb1

  function BaseOffset(fb: FrameBuffer): nat
  {
    match fb
    case Fb0 => LCDDMA_FB0_BASE_OFFS
    case Fb1 => LCDDMA_FB1_BASE_OFFS
  }

  function CeilOffset(fb: FrameBuffer): nat
  {
    match fb
    case Fb0 => LCDDMA_FB0_CEIL_OFFS
    case Fb1 => LCDDMA_FB1_CEIL_OFFS
  }

  // Peripheral identification register (read only).
  const PID_MINOR := Field(0, 0x3F)
  const PID_CUSTOM := Field(6, 0x3)
  const PID_MAJOR := Field(8, 0x7)
  const PID_RTL := Field(11, 0x1F)
  const PID_FUNC := Field(16, 0xFFF)
  const PID_RESERVED := Field(28, 0x3)
  const PID_SCHEME := Field(30, 0x3)
  const PID_LAYOUT := [PID_MINOR, PID_CUSTOM, PID_MAJOR, PID_RTL, PID_FUNC, PID_RESERVED, PID_SCHEME]

  /** Each field of the layout in its place, low field first. */
  const PID_PLACED: seq<Word> := [0x3F, 0xC0, 0x700, 0xF800, 0xFFF_0000, 0x3000_0000, 0xC000_0000]

  lemma PidPlaced()
    ensures AllWellFormed(PID_LAYOUT) && Placements(PID_LAYOUT) == PID_PLACED
  {
    var l := PID_LAYOUT;
    forall i | 0 <= i < |l| ensures WellFormed(l[i]) {
      assert i in {0, 1, 2, 3, 4, 5, 6};
    }
  }

  /** The fields cover the word without overlap and without gap. */
  lemma PidTiling()
    ensures Tiling(PID_LAYOUT)
  {
    var ws := PID_PLACED;
    assert OrFrom(ws, 0) == 0xFFFF_FFFF && DisjointFrom(ws, 0);
    PidPlaced();
    TilingOf(PID_LAYOUT, ws);
  }

  // LCDC control register: raster/LIDD selection and the pixel-clock divisor.
  const MODESEL := Field(0, 0x1)
  const AUTO_UFLOW_RESTART := Field(1, 0x1)
  const CTRL_RESERVED := Field(2, 0x3F)
  const CLKDIV := Field(8, 0xFF)
  const CTRL_RESERVED2 := Field(16, 0xFFFF)
  const CTRL_LAYOUT := [MODESEL, AUTO_UFLOW_RESTART, CTRL_RESERVED, CLKDIV, CTRL_RESERVED2]

  /** Each field of the layout in its place, low field first. */
  const CTRL_PLACED: seq<Word> := [0x1, 0x2, 0xFC, 0xFF00, 0xFFFF_0000]

  lemma CtrlPlaced()
    ensures AllWellFormed(CTRL_LAYOUT) && Placements(CTRL_LAYOUT) == CTRL_PLACED
  {
    var l := CTRL_LAYOUT;
    forall i | 0 <= i < |l| ensures WellFormed(l[i]) {
      assert i in {0, 1, 2, 3, 4};
    }
  }

  /** The fields cover the word without overlap and without gap. */
  lemma CtrlTiling()
    ensures Tiling(CTRL_LAYOUT)
  {
    var ws := CTRL_PLACED;
    assert OrFrom(ws, 0) == 0xFFFF_FFFF && DisjointFrom(ws, 0);
    CtrlPlaced();
    TilingOf(CTRL_LAYOUT, ws);
  }

  datatype Ctrl = Ctrl(modesel: Word, autoUflowRestart: Word, reserved: Word, clkdiv: Word, reserved2: Word)

  predicate CtrlFits(r: Ctrl)
  {
    r.modesel <= MODESEL.mask
    && r.autoUflowRestart <= AUTO_UFLOW_RESTART.mask
    && r.reserved <= CTRL_RESERVED.mask
    && r.clkdiv <= CLKDIV.mask
    && r.reserved2 <= CTRL_RESERVED2.mask
  }

  function UnpackCtrl(w: Word): (r: Ctrl)
    ensures CtrlFits(r)
  {
    Ctrl(Get(w, MODESEL), Get(w, AUTO_UFLOW_RESTART), Get(w, CTRL_RESERVED), Get(w, CLKDIV), Get(w, CTRL_RESERVED2))
  }

  function PackCtrl(r: Ctrl): (w: Word)
    requires CtrlFits(r)
    ensures UnpackCtrl(w) == r
  {
    Set(Set(Set(Set(Set(0, MODESEL, r.modesel), AUTO_UFLOW_RESTART, r.autoUflowRestart), CTRL_RESERVED, r.reserved), CLKDIV, r.clkdiv), CTRL_RESERVED2, r.reserved2)
  }

  lemma CtrlPackUnpack(w: Word)
    ensures PackCtrl(UnpackCtrl(w)) == w
  {}

  lemma CtrlSetModesel(w: Word, v: Word)
    ensures UnpackCtrl(Set(w, MODESEL, v)) == UnpackCtrl(w).(modesel := v % 2)
  {}

  lemma CtrlSetAutoUflowRestart(w: Word, v: Word)
    ensures UnpackCtrl(Set(w, AUTO_UFLOW_RESTART, v)) == UnpackCtrl(w).(autoUflowRestart := v % 2)
  {}

  lemma CtrlSetClkdiv(w: Word, v: Word)
    ensures UnpackCtrl(Set(w, CLKDIV, v)) == UnpackCtrl(w).(clkdiv := v % 256)
  {}

  // System configuration register: idle and standby modes.
  const SYSCONFIG_RESERVED := Field(0, 0x3)
  const IDLEMODE := Field(2, 0x3)
  const STANDBYMODE := Field(4, 0x3)
  const SYSCONFIG_RESERVED2 := Field(6, 0x3FF_FFFF)
  const SYSCONFIG_LAYOUT := [SYSCONFIG_RESERVED, IDLEMODE, STANDBYMODE, SYSCONFIG_RESERVED2]

  /** Each field of the layout in its place, low field first. */
  const SYSCONFIG_PLACED: seq<Word> := [0x3, 0xC, 0x30, 0xFFFF_FFC0]

  lemma SysconfigPlaced()
    ensures AllWellFormed(SYSCONFIG_LAYOUT) && Placements(SYSCONFIG_LAYOUT) == SYSCONFIG_PLACED
  {
    var l := SYSCONFIG_LAYOUT;
    forall i | 0 <= i < |l| ensures WellFormed(l[i]) {
      assert i in {0, 1, 2, 3};
    }
  }

  /** The fields cover the word without overlap and without gap. */
  lemma SysconfigTiling()
    ensures Tiling(SYSCONFIG_LAYOUT)
  {
    var ws := SYSCONFIG_PLACED;
    assert OrFrom(ws, 0) == 0xFFFF_FFFF && DisjointFrom(ws, 0);
    SysconfigPlaced();
    TilingOf(SYSCONFIG_LAYOUT, ws);
  }

  // Raw interrupt status register.
  const DONW_RAW_SET := Field(0, 0x1)
  const RECURRENT_RASTER_DONE_RAW_SET := Field(1, 0x1)
  const SYNC_RAW_SET := Field(2, 0x1)
  const ACB_RAW_SET := Field(3, 0x1)
  const IRQSTATUS_RAW_RESERVED := Field(4, 0x1)
  const FUF_RAW_SET := Field(5, 0x1)
  const PL_RAW_SET := Field(6, 0x1)
  const IRQSTATUS_RAW_RESERVED2 := Field(7, 0x1)
  const EOF0_RAW_SET := Field(8, 0x1)
  const EOF1_RAW_SET := Field(9, 0x1)
  const IRQSTATUS_RAW_RESERVED3 := Field(10, 0x3F_FFFF)
  const IRQSTATUS_RAW_LAYOUT := [DONW_RAW_SET, RECURRENT_RASTER_DONE_RAW_SET, SYNC_RAW_SET, ACB_RAW_SET, IRQSTATUS_RAW_RESERVED, FUF_RAW_SET, PL_RAW_SET, IRQSTATUS_RAW_RESERVED2, EOF0_RAW_SET, EOF1_RAW_SET, IRQSTATUS_RAW_RESERVED3]

  /** Each field of the layout in its place, low field first. */
  const IRQSTATUS_RAW_PLACED: seq<Word> := [0x1, 0x2, 0x4, 0x8, 0x10, 0x20, 0x40, 0x80, 0x100, 0x200, 0xFFFF_FC00]

  lemma IrqstatusRawPlaced()
    ensures AllWellFormed(IRQSTATUS_RAW_LAYOUT) && Placements(IRQSTATUS_RAW_LAYOUT) == IRQSTATUS_RAW_PLACED
  {
    var l := IRQSTATUS_RAW_LAYOUT;
    forall i | 0 <= i < |l| ensures WellFormed(l[i]) {
      assert i in {0, 1, 2, 3, 4, 5, 6, 7, 8, 9, 10};
    }
  }

  /** The fields cover the word without overlap and without gap. */
  lemma IrqstatusRawTiling()
    ensures Tiling(IRQSTATUS_RAW_LAYOUT)
  {
    var ws := IRQSTATUS_RAW_PLACED;
    assert OrFrom(ws, 0) == 0xFFFF_FFFF && DisjointFrom(ws, 0);
    IrqstatusRawPlaced();
    TilingOf(IRQSTATUS_RAW_LAYOUT, ws);
  }

  // Clock enable register: core, LIDD and DMA clock gates.
  const CORE_CLK_EN := Field(0, 0x1)
  const LIDD_CLK_EN := Field(1, 0x1)
  const DMA_CLK_EN := Field(2, 0x1)
  const CLKC_ENABLE_RESERVED := Field(3, 0x1FFF_FFFF)
  const CLKC_ENABLE_LAYOUT := [CORE_CLK_EN, LIDD_CLK_EN, DMA_CLK_EN, CLKC_ENABLE_RESERVED]

  /** Each field of the layout in its place, low field first. */
  const CLKC_ENABLE_PLACED: seq<Word> := [0x1, 0x2, 0x4, 0xFFFF_FFF8]

  lemma ClkcEnablePlaced()
    ensures AllWellFormed(CLKC_ENABLE_LAYOUT) && Placements(CLKC_ENABLE_LAYOUT) == CLKC_ENABLE_PLACED
  {
    var l := CLKC_ENABLE_LAYOUT;
    forall i | 0 <= i < |l| ensures WellFormed(l[i]) {
      assert i in {0, 1, 2, 3};
    }
  }

  /** The fields cover the word without overlap and without gap. */
  lemma ClkcEnableTiling()
    ensures Tiling(CLKC_ENABLE_LAYOUT)
  {
    var ws := CLKC_ENABLE_PLACED;
    assert OrFrom(ws, 0) == 0xFFFF_FFFF && DisjointFrom(ws, 0);
    ClkcEnablePlaced();
    TilingOf(CLKC_ENABLE_LAYOUT, ws);
  }

  datatype ClkcEnable = ClkcEnable(coreClkEn: Word, liddClkEn: Word, dmaClkEn: Word, reserved: Word)

  predicate ClkcEnableFits(r: ClkcEnable)
  {
    r.coreClkEn <= CORE_CLK_EN.mask
    && r.liddClkEn <= LIDD_CLK_EN.mask
    && r.dmaClkEn <= DMA_CLK_EN.mask
    && r.reserved <= CLKC_ENABLE_RESERVED.mask
  }

  function UnpackClkcEnable(w: Word): (r: ClkcEnable)
    ensures ClkcEnableFits(r)
  {
    ClkcEnable(Get(w, CORE_CLK_EN), Get(w, LIDD_CLK_EN), Get(w, DMA_CLK_EN), Get(w, CLKC_ENABLE_RESERVED))
  }

  function PackClkcEnable(r: ClkcEnable): (w: Word)
    requires ClkcEnableFits(r)
    ensures UnpackClkcEnable(w) == r
  {
    Set(Set(Set(Set(0, CORE_CLK_EN, r.coreClkEn), LIDD_CLK_EN, r.liddClkEn), DMA_CLK_EN, r.dmaClkEn), CLKC_ENABLE_RESERVED, r.reserved)
  }

  lemma ClkcEnablePackUnpack(w: Word)
    ensures PackClkcEnable(UnpackClkcEnable(w)) == w
  {}

  lemma ClkcEnableSetCoreClkEn(w: Word, v: Word)
    ensures UnpackClkcEnable(Set(w, CORE_CLK_EN, v)) == UnpackClkcEnable(w).(coreClkEn := v % 2)
  {}

  lemma ClkcEnableSetLiddClkEn(w: Word, v: Word)
    ensures UnpackClkcEnable(Set(w, LIDD_CLK_EN, v)) == UnpackClkcEnable(w).(liddClkEn := v % 2)
  {}

  lemma ClkcEnableSetDmaClkEn(w: Word, v: Word)
    ensures UnpackClkcEnable(Set(w, DMA_CLK_EN, v)) == UnpackClkcEnable(w).(dmaClkEn := v % 2)
  {}

  // Clock reset register: software resets of the sub-modules.
  const CORE_RST := Field(0, 0x1)
  const LIDD_RST := Field(1, 0x1)
  const DMA_RST := Field(2, 0x1)
  const MAIN_RST := Field(3, 0x1)
  const CLKC_RESET_RESERVED := Field(4, 0xFFF_FFFF)
  const CLKC_RESET_LAYOUT := [CORE_RST, LIDD_RST, DMA_RST, MAIN_RST, CLKC_RESET_RESERVED]

  /** Each field of the layout in its place, low field first. */
  const CLKC_RESET_PLACED: seq<Word> := [0x1, 0x2, 0x4, 0x8, 0xFFFF_FFF0]

  lemma ClkcResetPlaced()
    ensures AllWellFormed(CLKC_RESET_LAYOUT) && Placements(CLKC_RESET_LAYOUT) == CLKC_RESET_PLACED
  {
    var l := CLKC_RESET_LAYOUT;
    forall i | 0 <= i < |l| ensures WellFormed(l[i]) {
      assert i in {0, 1, 2, 3, 4};
    }
  }

  /** The fields cover the word without overlap and without gap. */
  lemma ClkcResetTiling()
    ensures Tiling(CLKC_RESET_LAYOUT)
  {
    var ws := CLKC_RESET_PLACED;
    assert OrFrom(ws, 0) == 0xFFFF_FFFF && DisjointFrom(ws, 0);
    ClkcResetPlaced();
    TilingOf(CLKC_RESET_LAYOUT, ws);
  }

  // LIDD control register: bus protocol, signal polarities and DMA enable.
  const LIDD_MODE_SEL := Field(0, 0x7)
  const ALEPOL := Field(3, 0x1)
  const RS_EN_POL := Field(4, 0x1)
  const WS_DIR_POL := Field(5, 0x1)
  const CS0_E0_POL := Field(6, 0x1)
  const CS1_E1_POL := Field(7, 0x1)
  const LIDD_DMA_EN := Field(8, 0x1)
  const DMA_CS0_CS1 := Field(9, 0x1)
  const LIDD_CTRL_RESERVED := Field(10, 0x3F_FFFF)
  const LIDD_CTRL_LAYOUT := [LIDD_MODE_SEL, ALEPOL, RS_EN_POL, WS_DIR_POL, CS0_E0_POL, CS1_E1_POL, LIDD_DMA_EN, DMA_CS0_CS1, LIDD_CTRL_RESERVED]

  /** Each field of the layout in its place, low field first. */
  const LIDD_CTRL_PLACED: seq<Word> := [0x7, 0x8, 0x10, 0x20, 0x40, 0x80, 0x100, 0x200, 0xFFFF_FC00]

  lemma LiddCtrlPlaced()
    ensures AllWellFormed(LIDD_CTRL_LAYOUT) && Placements(LIDD_CTRL_LAYOUT) == LIDD_CTRL_PLACED
  {
    var l := LIDD_CTRL_LAYOUT;
    forall i | 0 <= i < |l| ensures WellFormed(l[i]) {
      assert i in {0, 1, 2, 3, 4, 5, 6, 7, 8};
    }
  }

  /** The fields cover the word without overlap and without gap. */
  lemma LiddCtrlTiling()
    ensures Tiling(LIDD_CTRL_LAYOUT)
  {
    var ws := LIDD_CTRL_PLACED;
    assert OrFrom(ws, 0) == 0xFFFF_FFFF && DisjointFrom(ws, 0);
    LiddCtrlPlaced();
    TilingOf(LIDD_CTRL_LAYOUT, ws);
  }

  datatype LiddCtrl = LiddCtrl(liddModeSel: Word, alepol: Word, rsEnPol: Word, wsDirPol: Word, cs0E0Pol: Word, cs1E1Pol: Word, liddDmaEn: Word, dmaCs0Cs1: Word, reserved: Word)

  predicate LiddCtrlFits(r: LiddCtrl)
  {
    r.liddModeSel <= LIDD_MODE_SEL.mask
    && r.alepol <= ALEPOL.mask
    && r.rsEnPol <= RS_EN_POL.mask
    && r.wsDirPol <= WS_DIR_POL.mask
    && r.cs0E0Pol <= CS0_E0_POL.mask
    && r.cs1E1Pol <= CS1_E1_POL.mask
    && r.liddDmaEn <= LIDD_DMA_EN.mask
    && r.dmaCs0Cs1 <= DMA_CS0_CS1.mask
    && r.reserved <= LIDD_CTRL_RESERVED.mask
  }

  function UnpackLiddCtrl(w: Word): (r: LiddCtrl)
    ensures LiddCtrlFits(r)
  {
    LiddCtrl(Get(w, LIDD_MODE_SEL), Get(w, ALEPOL), Get(w, RS_EN_POL), Get(w, WS_DIR_POL), Get(w, CS0_E0_POL), Get(w, CS1_E1_POL), Get(w, LIDD_DMA_EN), Get(w, DMA_CS0_CS1), Get(w, LIDD_CTRL_RESERVED))
  }

  function PackLiddCtrl(r: LiddCtrl): (w: Word)
    requires LiddCtrlFits(r)
    ensures UnpackLiddCtrl(w) == r
  {
    Set(Set(Set(Set(Set(Set(Set(Set(Set(0, LIDD_MODE_SEL, r.liddModeSel), ALEPOL, r.alepol), RS_EN_POL, r.rsEnPol), WS_DIR_POL, r.wsDirPol), CS0_E0_POL, r.cs0E0Pol), CS1_E1_POL, r.cs1E1Pol), LIDD_DMA_EN, r.liddDmaEn), DMA_CS0_CS1, r.dmaCs0Cs1), LIDD_CTRL_RESERVED, r.reserved)
  }

  lemma LiddCtrlPackUnpack(w: Word)
    ensures PackLiddCtrl(UnpackLiddCtrl(w)) == w
  {}

  lemma LiddCtrlSetLiddModeSel(w: Word, v: Word)
    ensures UnpackLiddCtrl(Set(w, LIDD_MODE_SEL, v)) == UnpackLiddCtrl(w).(liddModeSel := v % 8)
  {}

  lemma LiddCtrlSetAlepol(w: Word, v: Word)
    ensures UnpackLiddCtrl(Set(w, ALEPOL, v)) == UnpackLiddCtrl(w).(alepol := v % 2)
  {}

  lemma LiddCtrlSetRsEnPol(w: Word, v: Word)
    ensures UnpackLiddCtrl(Set(w, RS_EN_POL, v)) == UnpackLiddCtrl(w).(rsEnPol := v % 2)
  {}

  lemma LiddCtrlSetWsDirPol(w: Word, v: Word)
    ensures UnpackLiddCtrl(Set(w, WS_DIR_POL, v)) == UnpackLiddCtrl(w).(wsDirPol := v % 2)
  {}

  lemma LiddCtrlSetCs0E0Pol(w: Word, v: Word)
    ensures UnpackLiddCtrl(Set(w, CS0_E0_POL, v)) == UnpackLiddCtrl(w).(cs0E0Pol := v % 2)
  {}

  lemma LiddCtrlSetCs1E1Pol(w: Word, v: Word)
    ensures UnpackLiddCtrl(Set(w, CS1_E1_POL, v)) == UnpackLiddCtrl(w).(cs1E1Pol := v % 2)
  {}

  lemma LiddCtrlSetLiddDmaEn(w: Word, v: Word)
    ensures UnpackLiddCtrl(Set(w, LIDD_DMA_EN, v)) == UnpackLiddCtrl(w).(liddDmaEn := v % 2)
  {}

  lemma LiddCtrlSetDmaCs0Cs1(w: Word, v: Word)
    ensures UnpackLiddCtrl(Set(w, DMA_CS0_CS1, v)) == UnpackLiddCtrl(w).(dmaCs0Cs1 := v % 2)
  {}

  // Per-chip-select bus timing register (LIDD_CS0_CONF, LIDD_CS1_CONF).
  const TA := Field(0, 0x3)
  const R_HOLD := Field(2, 0xF)
  const R_STROBE := Field(6, 0x3F)
  const R_SU := Field(12, 0x1F)
  const W_HOLD := Field(17, 0xF)
  const W_STROBE := Field(21, 0x3F)
  const W_SU := Field(27, 0x1F)
  const CS_CONF_LAYOUT := [TA, R_HOLD, R_STROBE, R_SU, W_HOLD, W_STROBE, W_SU]

  /** Each field of the layout in its place, low field first. */
  const CS_CONF_PLACED: seq<Word> := [0x3, 0x3C, 0xFC0, 0x1_F000, 0x1E_0000, 0x7E0_0000, 0xF800_0000]

  lemma CsConfPlaced()
    ensures AllWellFormed(CS_CONF_LAYOUT) && Placements(CS_CONF_LAYOUT) == CS_CONF_PLACED
  {
    var l := CS_CONF_LAYOUT;
    forall i | 0 <= i < |l| ensures WellFormed(l[i]) {
      assert i in {0, 1, 2, 3, 4, 5, 6};
    }
  }

  /** The fields cover the word without overlap and without gap. */
  lemma CsConfTiling()
    ensures Tiling(CS_CONF_LAYOUT)
  {
    var ws := CS_CONF_PLACED;
    assert OrFrom(ws, 0) == 0xFFFF_FFFF && DisjointFrom(ws, 0);
    CsConfPlaced();
    TilingOf(CS_CONF_LAYOUT, ws);
  }

  datatype CsConf = CsConf(ta: Word, rHold: Word, rStrobe: Word, rSu: Word, wHold: Word, wStrobe: Word, wSu: Word)

  predicate CsConfFits(r: CsConf)
  {
    r.ta <= TA.mask
    && r.rHold <= R_HOLD.mask
    && r.rStrobe <= R_STROBE.mask
    && r.rSu <= R_SU.mask
    && r.wHold <= W_HOLD.mask
    && r.wStrobe <= W_STROBE.mask
    && r.wSu <= W_SU.mask
  }

  function UnpackCsConf(w: Word): (r: CsConf)
    ensures CsConfFits(r)
  {
    CsConf(Get(w, TA), Get(w, R_HOLD), Get(w, R_STROBE), Get(w, R_SU), Get(w, W_HOLD), Get(w, W_STROBE), Get(w, W_SU))
  }

  function PackCsConf(r: CsConf): (w: Word)
    requires CsConfFits(r)
    ensures UnpackCsConf(w) == r
  {
    Set(Set(Set(Set(Set(Set(Set(0, TA, r.ta), R_HOLD, r.rHold), R_STROBE, r.rStrobe), R_SU, r.rSu), W_HOLD, r.wHold), W_STROBE, r.wStrobe), W_SU, r.wSu)
  }

  lemma CsConfPackUnpack(w: Word)
    ensures PackCsConf(UnpackCsConf(w)) == w
  {}

  lemma CsConfSetTa(w: Word, v: Word)
    ensures UnpackCsConf(Set(w, TA, v)) == UnpackCsConf(w).(ta := v % 4)
  {}

  lemma CsConfSetRHold(w: Word, v: Word)
    ensures UnpackCsConf(Set(w, R_HOLD, v)) == UnpackCsConf(w).(rHold := v % 16)
  {}

  lemma CsConfSetRStrobe(w: Word, v: Word)
    ensures UnpackCsConf(Set(w, R_STROBE, v)) == UnpackCsConf(w).(rStrobe := v % 64)
  {}

  lemma CsConfSetRSu(w: Word, v: Word)
    ensures UnpackCsConf(Set(w, R_SU, v)) == UnpackCsConf(w).(rSu := v % 32)
  {}

  lemma CsConfSetWHold(w: Word, v: Word)
    ensures UnpackCsConf(Set(w, W_HOLD, v)) == UnpackCsConf(w).(wHold := v % 16)
  {}

  lemma CsConfSetWStrobe(w: Word, v: Word)
    ensures UnpackCsConf(Set(w, W_STROBE, v)) == UnpackCsConf(w).(wStrobe := v % 64)
  {}

  lemma CsConfSetWSu(w: Word, v: Word)
    ensures UnpackCsConf(Set(w, W_SU, v)) == UnpackCsConf(w).(wSu := v % 32)
  {}

  // Per-chip-select address register: a write issues an address cycle.
  const ADR_INDX := Field(0, 0xFFFF)
  const CS_ADDR_RESERVED := Field(16, 0xFFFF)
  const CS_ADDR_LAYOUT := [ADR_INDX, CS_ADDR_RESERVED]

  /** Each field of the layout in its place, low field first. */
  const CS_ADDR_PLACED: seq<Word> := [0xFFFF, 0xFFFF_0000]

  lemma CsAddrPlaced()
    ensures AllWellFormed(CS_ADDR_LAYOUT) && Placements(CS_ADDR_LAYOUT) == CS_ADDR_PLACED
  {
    var l := CS_ADDR_LAYOUT;
    forall i | 0 <= i < |l| ensures WellFormed(l[i]) {
      assert i in {0, 1};
    }
  }

  /** The fields cover the word without overlap and without gap. */
  lemma CsAddrTiling()
    ensures Tiling(CS_ADDR_LAYOUT)
  {
    var ws := CS_ADDR_PLACED;
    assert OrFrom(ws, 0) == 0xFFFF_FFFF && DisjointFrom(ws, 0);
    CsAddrPlaced();
    TilingOf(CS_ADDR_LAYOUT, ws);
  }

  datatype CsAddr = CsAddr(adrIndx: Word, reserved: Word)

  predicate CsAddrFits(r: CsAddr)
  {
    r.adrIndx <= ADR_INDX.mask
    && r.reserved <= CS_ADDR_RESERVED.mask
  }

  function UnpackCsAddr(w: Word): (r: CsAddr)
    ensures CsAddrFits(r)
  {
    CsAddr(Get(w, ADR_INDX), Get(w, CS_ADDR_RESERVED))
  }

  function PackCsAddr(r: CsAddr): (w: Word)
    requires CsAddrFits(r)
    ensures UnpackCsAddr(w) == r
  {
    Set(Set(0, ADR_INDX, r.adrIndx), CS_ADDR_RESERVED, r.reserved)
  }

  lemma CsAddrPackUnpack(w: Word)
    ensures PackCsAddr(UnpackCsAddr(w)) == w
  {}

  lemma CsAddrSetAdrIndx(w: Word, v: Word)
    ensures UnpackCsAddr(Set(w, ADR_INDX, v)) == UnpackCsAddr(w).(adrIndx := v % 65536)
  {}

  // Per-chip-select data register: a write issues a data cycle.
  const CS_DATA := Field(0, 0xFFFF)
  const CS_DATA_RESERVED := Field(16, 0xFFFF)
  const CS_DATA_LAYOUT := [CS_DATA, CS_DATA_RESERVED]

  /** Each field of the layout in its place, low field first. */
  const CS_DATA_PLACED: seq<Word> := [0xFFFF, 0xFFFF_0000]

  lemma CsDataPlaced()
    ensures AllWellFormed(CS_DATA_LAYOUT) && Placements(CS_DATA_LAYOUT) == CS_DATA_PLACED
  {
    var l := CS_DATA_LAYOUT;
    forall i | 0 <= i < |l| ensures WellFormed(l[i]) {
      assert i in {0, 1};
    }
  }

  /** The fields cover the word without overlap and without gap. */
  lemma CsDataTiling()
    ensures Tiling(CS_DATA_LAYOUT)
  {
    var ws := CS_DATA_PLACED;
    assert OrFrom(ws, 0) == 0xFFFF_FFFF && DisjointFrom(ws, 0);
    CsDataPlaced();
    TilingOf(CS_DATA_LAYOUT, ws);
  }

  // DMA control register.
  const FRAME_MODE := Field(0, 0x1)
  const BIGENDIAN := Field(1, 0x1)
  const LCDDMA_CTRL_RESERVED := Field(2, 0x1)
  const BYTE_SWAP := Field(3, 0x1)
  const BURST_SIZE := Field(4, 0x7)
  const LCDDMA_CTRL_RESERVED2 := Field(7, 0x1)
  const TH_FIFO_READY := Field(8, 0x7)
  const LCDDMA_CTRL_RESERVED3 := Field(11, 0x1F)
  const DMA_MASTER_PRIO := Field(16, 0x7)
  const LCDDMA_CTRL_RESERVED4 := Field(19, 0x1FFF)
  const LCDDMA_CTRL_LAYOUT := [FRAME_MODE, BIGENDIAN, LCDDMA_CTRL_RESERVED, BYTE_SWAP, BURST_SIZE, LCDDMA_CTRL_RESERVED2, TH_FIFO_READY, LCDDMA_CTRL_RESERVED3, DMA_MASTER_PRIO, LCDDMA_CTRL_RESERVED4]

  /** Each field of the layout in its place, low field first. */
  const LCDDMA_CTRL_PLACED: seq<Word> := [0x1, 0x2, 0x4, 0x8, 0x70, 0x80, 0x700, 0xF800, 0x7_0000, 0xFFF8_0000]

  lemma LcddmaCtrlPlaced()
    ensures AllWellFormed(LCDDMA_CTRL_LAYOUT) && Placements(LCDDMA_CTRL_LAYOUT) == LCDDMA_CTRL_PLACED
  {
    var l := LCDDMA_CTRL_LAYOUT;
    forall i | 0 <= i < |l| ensures WellFormed(l[i]) {
      assert i in {0, 1, 2, 3, 4, 5, 6, 7, 8, 9};
    }
  }

  /** The fields cover the word without overlap and without gap. */
  lemma LcddmaCtrlTiling()
    ensures Tiling(LCDDMA_CTRL_LAYOUT)
  {
    var ws := LCDDMA_CTRL_PLACED;
    assert OrFrom(ws, 0) == 0xFFFF_FFFF && DisjointFrom(ws, 0);
    LcddmaCtrlPlaced();
    TilingOf(LCDDMA_CTRL_LAYOUT, ws);
  }

  datatype LcddmaCtrl = LcddmaCtrl(frameMode: Word, bigendian: Word, reserved: Word, byteSwap: Word, burstSize: Word, reserved2: Word, thFifoReady: Word, reserved3: Word, dmaMasterPrio: Word, reserved4: Word)

  predicate LcddmaCtrlFits(r: LcddmaCtrl)
  {
    r.frameMode <= FRAME_MODE.mask
    && r.bigendian <= BIGENDIAN.mask
    && r.reserved <= LCDDMA_CTRL_RESERVED.mask
    && r.byteSwap <= BYTE_SWAP.mask
    && r.burstSize <= BURST_SIZE.mask
    && r.reserved2 <= LCDDMA_CTRL_RESERVED2.mask
    && r.thFifoReady <= TH_FIFO_READY.mask
    && r.reserved3 <= LCDDMA_CTRL_RESERVED3.mask
    && r.dmaMasterPrio <= DMA_MASTER_PRIO.mask
    && r.reserved4 <= LCDDMA_CTRL_RESERVED4.mask
  }

  function UnpackLcddmaCtrl(w: Word): (r: LcddmaCtrl)
    ensures LcddmaCtrlFits(r)
  {
    LcddmaCtrl(Get(w, FRAME_MODE), Get(w, BIGENDIAN), Get(w, LCDDMA_CTRL_RESERVED), Get(w, BYTE_SWAP), Get(w, BURST_SIZE), Get(w, LCDDMA_CTRL_RESERVED2), Get(w, TH_FIFO_READY), Get(w, LCDDMA_CTRL_RESERVED3), Get(w, DMA_MASTER_PRIO), Get(w, LCDDMA_CTRL_RESERVED4))
  }

  function PackLcddmaCtrl(r: LcddmaCtrl): (w: Word)
    requires LcddmaCtrlFits(r)
    ensures UnpackLcddmaCtrl(w) == r
  {
    Set(Set(Set(Set(Set(Set(Set(Set(Set(Set(0, FRAME_MODE, r.frameMode), BIGENDIAN, r.bigendian), LCDDMA_CTRL_RESERVED, r.reserved), BYTE_SWAP, r.byteSwap), BURST_SIZE, r.burstSize), LCDDMA_CTRL_RESERVED2, r.reserved2), TH_FIFO_READY, r.thFifoReady), LCDDMA_CTRL_RESERVED3, r.reserved3), DMA_MASTER_PRIO, r.dmaMasterPrio), LCDDMA_CTRL_RESERVED4, r.reserved4)
  }

  lemma LcddmaCtrlPackUnpack(w: Word)
    ensures PackLcddmaCtrl(UnpackLcddmaCtrl(w)) == w
  {}

  lemma LcddmaCtrlSetFrameMode(w: Word, v: Word)
    ensures UnpackLcddmaCtrl(Set(w, FRAME_MODE, v)) == UnpackLcddmaCtrl(w).(frameMode := v % 2)
  {}

  lemma LcddmaCtrlSetBigendian(w: Word, v: Word)
    ensures UnpackLcddmaCtrl(Set(w, BIGENDIAN, v)) == UnpackLcddmaCtrl(w).(bigendian := v % 2)
  {}

  lemma LcddmaCtrlSetByteSwap(w: Word, v: Word)
    ensures UnpackLcddmaCtrl(Set(w, BYTE_SWAP, v)) == UnpackLcddmaCtrl(w).(byteSwap := v % 2)
  {}

  lemma LcddmaCtrlSetBurstSize(w: Word, v: Word)
    ensures UnpackLcddmaCtrl(Set(w, BURST_SIZE, v)) == UnpackLcddmaCtrl(w).(burstSize := v % 8)
  {}

  lemma LcddmaCtrlSetThFifoReady(w: Word, v: Word)
    ensures UnpackLcddmaCtrl(Set(w, TH_FIFO_READY, v)) == UnpackLcddmaCtrl(w).(thFifoReady := v % 8)
  {}

  lemma LcddmaCtrlSetDmaMasterPrio(w: Word, v: Word)
    ensures UnpackLcddmaCtrl(Set(w, DMA_MASTER_PRIO, v)) == UnpackLcddmaCtrl(w).(dmaMasterPrio := v % 8)
  {}

  // Frame-buffer base and ceiling registers (FB0_BASE, FB0_CEIL, FB1_BASE, FB1_CEIL): a word address.
  const FB_RESERVED := Field(0, 0x3)
  const FB_ADDR := Field(2, 0x3FFF_FFFF)
  const FB_LAYOUT := [FB_RESERVED, FB_ADDR]

  /** Each field of the layout in its place, low field first. */
  const FB_PLACED: seq<Word> := [0x3, 0xFFFF_FFFC]

  lemma FbPlaced()
    ensures AllWellFormed(FB_LAYOUT) && Placements(FB_LAYOUT) == FB_PLACED
  {
    var l := FB_LAYOUT;
    forall i | 0 <= i < |l| ensures WellFormed(l[i]) {
      assert i in {0, 1};
    }
  }

  /** The fields cover the word without overlap and without gap. */
  lemma FbTiling()
    ensures Tiling(FB_LAYOUT)
  {
    var ws := FB_PLACED;
    assert OrFrom(ws, 0) == 0xFFFF_FFFF && DisjointFrom(ws, 0);
    FbPlaced();
    TilingOf(FB_LAYOUT, ws);
  }

  datatype FbReg = FbReg(reserved: Word, addr: Word)

  predicate FbRegFits(r: FbReg)
  {
    r.reserved <= FB_RESERVED.mask
    && r.addr <= FB_ADDR.mask
  }

  function UnpackFbReg(w: Word): (r: FbReg)
    ensures FbRegFits(r)
  {
    FbReg(Get(w, FB_RESERVED), Get(w, FB_ADDR))
  }

  function PackFbReg(r: FbReg): (w: Word)
    requires FbRegFits(r)
    ensures UnpackFbReg(w) == r
  {
    Set(Set(0, FB_RESERVED, r.reserved), FB_ADDR, r.addr)
  }

  lemma FbRegPackUnpack(w: Word)
    ensures PackFbReg(UnpackFbReg(w)) == w
  {}

  lemma FbRegSetAddr(w: Word, v: Word)
    ensures UnpackFbReg(Set(w, FB_ADDR, v)) == UnpackFbReg(w).(addr := v % 1073741824)
  {}
  // Enumerations stored in register fields.

  /** Values of CTRL.modesel. */
  datatype LcdMode = LiddMode | RasterMode

  function LcdModeCode(m: LcdMode): (c: Word)
    ensures c <= MODESEL.mask
  {
    match m
    case LiddMode => 0
    case RasterMode => 1
  }

  /** Values of SYSCONFIG.standbymode; code 3 has no name. */
  datatype StandbyMode = ForceStandby | MoStandby | SmartStandby

  function StandbyModeCode(m: StandbyMode): (c: Word)
    ensures c <= STANDBYMODE.mask
  {
    match m
    case ForceStandby => 0
    case MoStandby => 1
    case SmartStandby => 2
  }

  /** Values of SYSCONFIG.idlemode; code 3 has no name. */
  datatype IdleMode = ForceIdle | NoIdle | SmartIdle

  function IdleModeCode(m: IdleMode): (c: Word)
    ensures c <= IDLEMODE.mask
  {
    match m
    case ForceIdle => 0
    case NoIdle => 1
    case SmartIdle => 2
  }

  /** The LIDD bus protocols selectable in LIDD_CTRL.lidd_mode_sel. */
  datatype LiddProtocol = SyncMpu68 | AsyncMpu68 | SyncMpu80 | AsyncMpu80 | Hitachi

  function LiddProtocolCode(m: LiddProtocol): (c: Word)
    ensures c <= LIDD_MODE_SEL.mask
  {
    match m
    case SyncMpu68 => 0
    case AsyncMpu68 => 1
    case SyncMpu80 => 2
    case AsyncMpu80 => 3
    case Hitachi => 4
  }

  /** Decodes lidd_mode_sel; the codes 5 to 7 name no protocol. */
  function LiddProtocolOf(c: Word): (m: Option<LiddProtocol>)
    ensures m.Some? <==> c <= 4
  {
    if c == 0 then Some(SyncMpu68)
    else if c == 1 then Some(AsyncMpu68)
    else if c == 2 then Some(SyncMpu80)
    else if c == 3 then Some(AsyncMpu80)
    else if c == 4 then Some(Hitachi)
    else None
  }

  /**
   * Every protocol fits the 3-bit lidd_mode_sel field: stored into any
   * LIDD_CTRL word it reads back as the same protocol, and decoding a code
   * gives back the protocol exactly when that protocol has this code.
   */
  lemma LiddProtocolRoundTrip(m: LiddProtocol, w: Word, c: Word)
    ensures LiddProtocolOf(Get(Set(w, LIDD_MODE_SEL, LiddProtocolCode(m)), LIDD_MODE_SEL)) == Some(m)
    ensures LiddProtocolOf(c) == Some(m) <==> LiddProtocolCode(m) == c
  {}

  // Frame-buffer addresses.

  /**
   * The byte address held in an FBx_BASE or FBx_CEIL word: the 30-bit
   * fb_base/fb_ceil field is the address of a 32-bit word.
   */
  function FbAddress(w: Word): (a: Word)
    ensures a & 3 == 0
    ensures a >> 2 == Get(w, FB_ADDR)
  {
    Get(w, FB_ADDR) << 2
  }

  /** The fb_base/fb_ceil field value that addresses byte address `a`. */
  function FbField(a: Word): (v: Word)
    ensures v <= FB_ADDR.mask
  {
    a >> 2
  }

  /**
   * Storing an address and reading it back drops bits 0-1 only; the
   * reserved bits of the register are kept.
   */
  lemma FbAddressRoundTrip(w: Word, a: Word)
    ensures FbAddress(Set(w, FB_ADDR, FbField(a))) == a & !3
    ensures Get(Set(w, FB_ADDR, FbField(a)), FB_RESERVED) == Get(w, FB_RESERVED)
  {}

  /** An address round-trips through the register exactly when it is 4-aligned. */
  lemma FbAddressExact(w: Word, a: Word)
    ensures FbAddress(Set(w, FB_ADDR, FbField(a))) == a <==> a & 3 == 0
  {
    FbAddressRoundTrip(w, a);
  }

  /** Addresses keep their order through the register encoding. */
  lemma FbAddressMonotone(w1: Word, w2: Word, a1: Word, a2: Word)
    requires a1 <= a2
    ensures FbAddress(Set(w1, FB_ADDR, FbField(a1))) <= FbAddress(Set(w2, FB_ADDR, FbField(a2)))
  {}
}
