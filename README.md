# AM335x LCDC parallel-bus controller, modelled in Dafny

This project models the controller back end of the `pl_parallel` kernel
module. The back end drives the LCD controller (LCDC) of a TI AM335x SoC in
LIDD mode ("LCD interface display driver": an MPU-style parallel bus). It
covers two source files.

- `include/ctrl/am335x_regs.h` defines the register offsets of the LCDC block
  and one bit-field struct per register. Module `Bits` gives the
  generic meaning of a C bit field: a shifted mask, read with `Get` and
  written with `Set` (a read-modify-write that leaves every other bit alone).
  Module `Am335xRegs` places each declared field and proves that every
  register's fields tile the 32-bit word. It gives each register a record
  with `Unpack`/`Pack` round trips and proves a "set one field" lemma per
  field. It also has the enums (`lcd_mode`, `standby_mode`, `idle_mode`,
  `lidd_mode`) and the frame-buffer address encoding (a 30-bit word address in
  bits 2-31).
- `ctrl/am335x_ctrl.c` holds the controller object and its operations
  (module `Am335xCtrl`). `Controller` is a class. Its fields are the pointers
  `init` stores (`hw_clk`, `reg_base_addr`, `hrdy_gpio`, read as one object's
  fields; see "Left out") and the register file `regs` (29 words, indexed by byte offset / 4). A ghost `log`
  records every kernel call, every resource release and every register
  write, in order.
  - `Init` models `init`: a guard for a missing device, then six
    acquisition calls with the goto-based unwind, then the default register
    programming.
  - `Write` models `write` together with `write_addr` and `write_data`.
  - `Read` models the `read` stub.
  - `Release` models `am335x_release`.
  - Every method is proved against a specification function on the log
    (`InitTrace`, `WriteTrace`, `RELEASE_TRACE`).
- Module `Am335xLifecycle` reads a log as resource bookkeeping (`Replay`):
  which clock, mapping and GPIO references are held after each path through
  `init` and after `release`.
- Module `Am335xProgramming` reads a log as register contents (`ApplyTrace`).
  It proves which fields `init` and `write` leave in which registers, and
  that they touch no other register.

The results of kernel services (`devm_clk_get`, `clk_prepare`,
`clk_set_rate`, `clk_enable`, `devm_ioremap_resource`, `gpiod_get`) are not
computed. They come in as a `KernelCalls` parameter, one value per call, so
every failure path can be stated.

The model follows the code as written; in particular:

- Timing values are not clamped.
- There is no HRDY polling and no timeout.
- `read` always returns -1.
- The result of `devm_clk_get` is never tested.
- A failure after `clk_prepare` does not unprepare or disable the clock.
  `am335x_release` does not do so either, so after a successful `init` and a
  release the clock is still prepared and enabled (`ReleaseAfterReady`).
- `write_data` passes `data + len - 1` on a `const short *` as the ceiling.
  That is the byte address `buf + 2*(len - 1)` modulo 2^32
  (`LastWordAddress`). It is the first byte of the last 16-bit word, not the
  last byte of the buffer.

## Model

| member | source | states |
|---|---|---|
| Am335xRegs.OffsetsDistinctWords | include/ctrl/am335x_regs.h:13-33 | every register offset is word aligned, lies inside the 29-word block, and the offsets name strictly increasing, hence distinct, words |
| Am335xRegs.PidTiling | include/ctrl/am335x_regs.h:38-46 | the seven PID fields are well formed, pairwise disjoint and together cover all 32 bits |
| Am335xRegs.LcdModeCode | include/ctrl/am335x_regs.h:48-51 | each `lcd_mode` value fits the 1-bit `modesel` field |
| Am335xRegs.CtrlTiling | include/ctrl/am335x_regs.h:53-59 | the CTRL fields tile the 32-bit word |
| Am335xRegs.UnpackCtrl | include/ctrl/am335x_regs.h:53-59 | every decoded CTRL field is within its width, so `clkdiv` is 0..255 |
| Am335xRegs.PackCtrl | include/ctrl/am335x_regs.h:53-59 | packing a CTRL record whose fields fit and unpacking it gives the record back |
| Am335xRegs.CtrlPackUnpack | include/ctrl/am335x_regs.h:53-59 | unpacking a CTRL word and packing it again gives the same word |
| Am335xRegs.CtrlSetModesel | include/ctrl/am335x_regs.h:54 | writing `modesel` stores the value modulo 2 and leaves every other CTRL field unchanged |
| Am335xRegs.CtrlSetAutoUflowRestart | include/ctrl/am335x_regs.h:55 | writing `auto_uflow_restart` stores the value modulo 2 and leaves the other fields unchanged |
| Am335xRegs.CtrlSetClkdiv | include/ctrl/am335x_regs.h:57 | writing `clkdiv` stores the value modulo 256 and leaves `modesel`, `auto_uflow_restart` and the reserved bits unchanged |
| Am335xRegs.StandbyModeCode | include/ctrl/am335x_regs.h:61-65 | each `standby_mode` value fits the 2-bit `standbymode` field |
| Am335xRegs.IdleModeCode | include/ctrl/am335x_regs.h:67-71 | each `idle_mode` value fits the 2-bit `idlemode` field |
| Am335xRegs.SysconfigTiling | include/ctrl/am335x_regs.h:73-78 | the SYSCONFIG fields tile the 32-bit word |
| Am335xRegs.IrqstatusRawTiling | include/ctrl/am335x_regs.h:80-92 | the IRQSTATUS_RAW fields tile the 32-bit word |
| Am335xRegs.ClkcEnableTiling | include/ctrl/am335x_regs.h:136-141 | the CLKC_ENABLE fields tile the 32-bit word |
| Am335xRegs.UnpackClkcEnable | include/ctrl/am335x_regs.h:136-141 | every decoded CLKC_ENABLE field is within its width |
| Am335xRegs.PackClkcEnable | include/ctrl/am335x_regs.h:136-141 | pack then unpack is the identity on fitting CLKC_ENABLE records |
| Am335xRegs.ClkcEnablePackUnpack | include/ctrl/am335x_regs.h:136-141 | unpack then pack is the identity on CLKC_ENABLE words |
| Am335xRegs.ClkcEnableSetCoreClkEn | include/ctrl/am335x_regs.h:137 | writing `core_clk_en` stores one bit and leaves the other CLKC_ENABLE fields unchanged |
| Am335xRegs.ClkcEnableSetLiddClkEn | include/ctrl/am335x_regs.h:138 | writing `lidd_clk_en` stores one bit and leaves the other fields unchanged |
| Am335xRegs.ClkcEnableSetDmaClkEn | include/ctrl/am335x_regs.h:139 | writing `dma_clk_en` stores one bit and leaves the other fields unchanged |
| Am335xRegs.ClkcResetTiling | include/ctrl/am335x_regs.h:143-149 | the CLKC_RESET fields tile the 32-bit word |
| Am335xRegs.LiddProtocolCode | include/ctrl/am335x_regs.h:154-160 | each `lidd_mode` value fits the 3-bit `lidd_mode_sel` field |
| Am335xRegs.LiddProtocolOf | include/ctrl/am335x_regs.h:154-160 | a code decodes to a protocol exactly when it is at most 4 |
| Am335xRegs.LiddProtocolRoundTrip | include/ctrl/am335x_regs.h:154-163 | a protocol written into `lidd_mode_sel` of any LIDD_CTRL word reads back as the same protocol, and a code decodes to a protocol exactly when it is that protocol's code |
| Am335xRegs.LiddCtrlTiling | include/ctrl/am335x_regs.h:162-172 | the LIDD_CTRL fields tile the 32-bit word |
| Am335xRegs.UnpackLiddCtrl | include/ctrl/am335x_regs.h:162-172 | every decoded LIDD_CTRL field is within its width |
| Am335xRegs.PackLiddCtrl | include/ctrl/am335x_regs.h:162-172 | pack then unpack is the identity on fitting LIDD_CTRL records |
| Am335xRegs.LiddCtrlPackUnpack | include/ctrl/am335x_regs.h:162-172 | unpack then pack is the identity on LIDD_CTRL words |
| Am335xRegs.LiddCtrlSetLiddModeSel | include/ctrl/am335x_regs.h:163 | writing `lidd_mode_sel` stores the value modulo 8 and leaves the other fields unchanged |
| Am335xRegs.LiddCtrlSetAlepol | include/ctrl/am335x_regs.h:164 | writing `alepol` changes only that bit |
| Am335xRegs.LiddCtrlSetRsEnPol | include/ctrl/am335x_regs.h:165 | writing `rs_en_pol` changes only that bit |
| Am335xRegs.LiddCtrlSetWsDirPol | include/ctrl/am335x_regs.h:166 | writing `ws_dir_pol` changes only that bit |
| Am335xRegs.LiddCtrlSetCs0E0Pol | include/ctrl/am335x_regs.h:167 | writing `cs0_e0_pol` changes only that bit |
| Am335xRegs.LiddCtrlSetCs1E1Pol | include/ctrl/am335x_regs.h:168 | writing `cs1_e1_pol` changes only that bit |
| Am335xRegs.LiddCtrlSetLiddDmaEn | include/ctrl/am335x_regs.h:169 | writing `lidd_dma_en` changes only that bit: mode and polarities are kept |
| Am335xRegs.LiddCtrlSetDmaCs0Cs1 | include/ctrl/am335x_regs.h:170 | writing `dma_cs0_cs1` changes only that bit |
| Am335xRegs.CsConfTiling | include/ctrl/am335x_regs.h:174-182 | the CSx_CONF timing fields tile the 32-bit word |
| Am335xRegs.UnpackCsConf | include/ctrl/am335x_regs.h:174-182 | every decoded timing field is within its width |
| Am335xRegs.PackCsConf | include/ctrl/am335x_regs.h:174-182 | pack then unpack is the identity on fitting CSx_CONF records |
| Am335xRegs.CsConfPackUnpack | include/ctrl/am335x_regs.h:174-182 | unpack then pack is the identity on CSx_CONF words |
| Am335xRegs.CsConfSetTa | include/ctrl/am335x_regs.h:175 | writing `ta` stores the value modulo 4 and leaves the other timings unchanged |
| Am335xRegs.CsConfSetRHold | include/ctrl/am335x_regs.h:176 | writing `r_hold` stores the value modulo 16 and leaves the other timings unchanged |
| Am335xRegs.CsConfSetRStrobe | include/ctrl/am335x_regs.h:177 | writing `r_strobe` stores the value modulo 64 and leaves the other timings unchanged |
| Am335xRegs.CsConfSetRSu | include/ctrl/am335x_regs.h:178 | writing `r_su` stores the value modulo 32 and leaves the other timings unchanged |
| Am335xRegs.CsConfSetWHold | include/ctrl/am335x_regs.h:179 | writing `w_hold` stores the value modulo 16 and leaves the other timings unchanged |
| Am335xRegs.CsConfSetWStrobe | include/ctrl/am335x_regs.h:180 | writing `w_strobe` stores the value modulo 64 and leaves the other timings unchanged |
| Am335xRegs.CsConfSetWSu | include/ctrl/am335x_regs.h:181 | writing `w_su` stores the value modulo 32 and leaves the other timings unchanged |
| Am335xRegs.CsAddrTiling | include/ctrl/am335x_regs.h:184-187 | the CSx_ADDR fields tile the 32-bit word |
| Am335xRegs.UnpackCsAddr | include/ctrl/am335x_regs.h:184-187 | every decoded CSx_ADDR field is within its width |
| Am335xRegs.PackCsAddr | include/ctrl/am335x_regs.h:184-187 | pack then unpack is the identity on fitting CSx_ADDR records |
| Am335xRegs.CsAddrPackUnpack | include/ctrl/am335x_regs.h:184-187 | unpack then pack is the identity on CSx_ADDR words |
| Am335xRegs.CsAddrSetAdrIndx | include/ctrl/am335x_regs.h:185 | writing `adr_indx` stores the value modulo 2^16 and keeps the reserved half |
| Am335xRegs.CsDataTiling | include/ctrl/am335x_regs.h:189-192 | the CSx_DATA fields tile the 32-bit word |
| Am335xRegs.LcddmaCtrlTiling | include/ctrl/am335x_regs.h:197-208 | the LCDDMA_CTRL fields tile the 32-bit word |
| Am335xRegs.UnpackLcddmaCtrl | include/ctrl/am335x_regs.h:197-208 | every decoded LCDDMA_CTRL field is within its width |
| Am335xRegs.PackLcddmaCtrl | include/ctrl/am335x_regs.h:197-208 | pack then unpack is the identity on fitting LCDDMA_CTRL records |
| Am335xRegs.LcddmaCtrlPackUnpack | include/ctrl/am335x_regs.h:197-208 | unpack then pack is the identity on LCDDMA_CTRL words |
| Am335xRegs.LcddmaCtrlSetFrameMode | include/ctrl/am335x_regs.h:198 | writing `frame_mode` changes only that bit |
| Am335xRegs.LcddmaCtrlSetBigendian | include/ctrl/am335x_regs.h:199 | writing `bigendian` changes only that bit |
| Am335xRegs.LcddmaCtrlSetByteSwap | include/ctrl/am335x_regs.h:200 | writing `byte_swap` changes only that bit |
| Am335xRegs.LcddmaCtrlSetBurstSize | include/ctrl/am335x_regs.h:202 | writing `burst_size` stores the value modulo 8 and leaves the other fields unchanged |
| Am335xRegs.LcddmaCtrlSetThFifoReady | include/ctrl/am335x_regs.h:203 | writing `th_fifo_ready` stores the value modulo 8 and leaves the other fields unchanged |
| Am335xRegs.LcddmaCtrlSetDmaMasterPrio | include/ctrl/am335x_regs.h:205 | writing `dma_master_prio` stores the value modulo 8 and leaves the other fields unchanged |
| Am335xRegs.FbTiling | include/ctrl/am335x_regs.h:210-218 | the FBx_BASE/FBx_CEIL fields (2 reserved bits, 30 address bits) tile the 32-bit word |
| Am335xRegs.UnpackFbReg | include/ctrl/am335x_regs.h:210-218 | every decoded FBx field is within its width |
| Am335xRegs.PackFbReg | include/ctrl/am335x_regs.h:210-218 | pack then unpack is the identity on fitting FBx records |
| Am335xRegs.FbRegPackUnpack | include/ctrl/am335x_regs.h:210-218 | unpack then pack is the identity on FBx words |
| Am335xRegs.FbRegSetAddr | include/ctrl/am335x_regs.h:212 | writing the address field stores the value modulo 2^30 and keeps the reserved bits |
| Am335xRegs.FbAddress | include/ctrl/am335x_regs.h:210-218 | the byte address held in an FBx word is 4-aligned and its bits 2-31 are the address field |
| Am335xRegs.FbField | include/ctrl/am335x_regs.h:210-218 | the field value for a byte address fits 30 bits |
| Am335xRegs.FbAddressRoundTrip | include/ctrl/am335x_regs.h:210-218 | storing a byte address and reading it back clears bits 0-1 and nothing else, and keeps the reserved bits |
| Am335xRegs.FbAddressExact | include/ctrl/am335x_regs.h:210-218 | an address reads back unchanged exactly when it is 4-aligned |
| Am335xRegs.FbAddressMonotone | include/ctrl/am335x_regs.h:210-218 | the encoding keeps the order of addresses |
| Am335xCtrl.PtrErr | ctrl/am335x_ctrl.c:494-497 | the error code carried by an error pointer is negative, between -4095 and -1 |
| Am335xCtrl.Ssize | ctrl/am335x_ctrl.c:574 | `len` returned as `ssize_t` keeps its value when below 2^31 and is negative otherwise |
| Am335xCtrl.PtrOutcome | ctrl/am335x_ctrl.c:492-506 | the value `init` tests for a pointer-returning call is nonzero exactly when the pointer is an error pointer |
| Am335xCtrl.AcquireTraceShape | ctrl/am335x_ctrl.c:470-542 | the acquisition log is the calls up to and including the first failing one, followed by that step's unwind; the result is 0 exactly when no step fails, and otherwise the failing step's value |
| Am335xCtrl.Controller.constructor | ctrl/am335x_ctrl.c:590 | a new controller has null `hw_clk`, `reg_base_addr` and `hrdy_gpio`, the given register contents and an empty log; whether `dev` is set is a parameter, because the code that sets it is outside the modelled files |
| Am335xCtrl.Controller.AcquireClock | ctrl/am335x_ctrl.c:470-490 | stores the clock handle; logs the get, prepare, set-rate (at 20000000 Hz) and enable calls in that order up to the first failure; returns 0 exactly when prepare, set-rate and enable all return 0, otherwise the first nonzero one, with nothing given back |
| Am335xCtrl.Controller.MapRegisters | ctrl/am335x_ctrl.c:492-498 | stores the mapping; on an error pointer returns its error code after putting the clock |
| Am335xCtrl.Controller.GetHrdyGpio | ctrl/am335x_ctrl.c:500-506 | stores the GPIO descriptor; on an error pointer returns its code after unmapping and putting the clock |
| Am335xCtrl.Controller.Acquire | ctrl/am335x_ctrl.c:470-542 | the acquisition half of `init`: result, log and the three stored pointers |
| Am335xCtrl.Controller.EnableClocks | ctrl/am335x_ctrl.c:508-511 | logs the core, LIDD and DMA clock-enable writes in that order and applies them to the register file |
| Am335xCtrl.Controller.ProgramLiddCtrl | ctrl/am335x_ctrl.c:513-522 | logs and applies the clock divisor 2, the five `NO_INVERT` polarities and the SYNC_MPU80 mode, in that order |
| Am335xCtrl.Controller.ProgramTimings | ctrl/am335x_ctrl.c:524-526 | logs and applies `init_timings` to CS0 and then to CS1 |
| Am335xCtrl.Controller.ProgramLidd | ctrl/am335x_ctrl.c:513-526 | the LIDD_CTRL writes followed by the two timing writes |
| Am335xCtrl.Controller.ProgramDma | ctrl/am335x_ctrl.c:528-531 | logs and applies FIFO threshold 16, burst size 16 and one-frame mode, in that order |
| Am335xCtrl.Controller.ProgramDefaults | ctrl/am335x_ctrl.c:508-531 | the whole default programming as one log segment applied to the register file |
| Am335xCtrl.Controller.Init | ctrl/am335x_ctrl.c:460-543 | returns -ENODEV and changes nothing without a device; otherwise returns `InitResult`, appends `InitTrace` to the log, updates the registers by that trace, and records Ready on 0 and InitFailed otherwise; a Ready controller holds a mapping and a GPIO descriptor that are not error pointers (`Valid`) |
| Am335xCtrl.Controller.WriteAddr | ctrl/am335x_ctrl.c:545-549 | logs and applies "LIDD DMA off" and then "CS0 address := addr" |
| Am335xCtrl.Controller.WriteData | ctrl/am335x_ctrl.c:551-557 | logs and applies DMA off, FB0 base := data, FB0 ceiling := the address of the last 16-bit word, DMA on |
| Am335xCtrl.Controller.Read | ctrl/am335x_ctrl.c:559-562 | always returns -1 |
| Am335xCtrl.Controller.Write | ctrl/am335x_ctrl.c:564-577 | always writes the address; returns 0 for `len` 0, -ENODATA for a null buffer, and otherwise `len` after programming the transfer; log and registers follow `WriteTrace` |
| Am335xCtrl.Controller.Release | ctrl/am335x_ctrl.c:56-65 | logs the GPIO put, the unmap, the clock put and the free, in that order, and records Released |
| Am335xLifecycle.GainedBeforeValues | ctrl/am335x_ctrl.c:470-506 | the resources held after each prefix of successful acquisition steps |
| Am335xLifecycle.ReplayCalls | ctrl/am335x_ctrl.c:470-506 | successful calls obtain exactly the resources of their steps, never one already held |
| Am335xLifecycle.ReplayUnwind | ctrl/am335x_ctrl.c:535-542 | each failure label gives back only resources that are held |
| Am335xLifecycle.UnwoundByValues | ctrl/am335x_ctrl.c:535-542 | a remap failure puts the clock; a GPIO failure unmaps and puts the clock; the earlier labels give back nothing |
| Am335xLifecycle.DefaultProgrammingWrites | ctrl/am335x_ctrl.c:508-531 | the default programming only writes registers |
| Am335xLifecycle.InitHeld | ctrl/am335x_ctrl.c:460-543 | replaying `init`'s log never puts an unheld resource, and ends with the resources of `HeldAfterInit` |
| Am335xLifecycle.HeldAfterInitCases | ctrl/am335x_ctrl.c:470-542 | the clock handle step never fails. Success holds everything. A failed prepare, set-rate or enable keeps the handle, and after prepare also the prepare count. A failed remap or GPIO request keeps the clock prepared and enabled |
| Am335xLifecycle.ReleaseAfterReady | ctrl/am335x_ctrl.c:56-65 | release after a successful `init` gives back the GPIO, the mapping and the handle, and leaves the clock prepared and enabled |
| Am335xLifecycle.ReleaseAfterFailure | ctrl/am335x_ctrl.c:56-65 | release without a GPIO descriptor puts a resource that is not held |
| Am335xLifecycle.InitThenRelease | ctrl/am335x_ctrl.c:56-65 | `init` followed by release is balanced except for the clock enable and prepare exactly when `init` succeeded, and puts an unheld resource otherwise |
| Am335xLifecycle.InitAttempts | ctrl/am335x_ctrl.c:470-506 | `init` attempts the acquisition steps in source order, up to and including the first failing one; once `clk_prepare` succeeds the third call is `clk_set_rate` with 20000000 Hz |
| Am335xLifecycle.AttemptsUnwind | ctrl/am335x_ctrl.c:535-542 | the unwind attempts no acquisition |
| Am335xProgramming.ClockEnablesWordFields | ctrl/am335x_ctrl.c:509-511 | the three enable writes set core, LIDD and DMA clock enable to 1 and keep the other CLKC_ENABLE fields |
| Am335xProgramming.ClockEnablesEffect | ctrl/am335x_ctrl.c:508-511 | the clock-enable writes change only CLKC_ENABLE, and there only the three enable bits |
| Am335xProgramming.LiddCtrlWordFields | ctrl/am335x_ctrl.c:517-522 | the polarity and mode writes leave LIDD_CTRL with mode SYNC_MPU80, all five polarities 0 and the other fields kept |
| Am335xProgramming.LiddCtrlDefaultsEffect | ctrl/am335x_ctrl.c:513-522 | after the clock-divisor, polarity and mode writes, CTRL.clkdiv is 2, LIDD_CTRL decodes to SYNC_MPU80 with polarities 0, and no other register or field changes |
| Am335xProgramming.TimingsWordFields | ctrl/am335x_ctrl.c:419-427 | writing `init_timings` sets all seven CSx_CONF timings to 1 |
| Am335xProgramming.TimingDefaultsEffect | ctrl/am335x_ctrl.c:524-526 | both CS0_CONF and CS1_CONF end with all timings 1; nothing else changes |
| Am335xProgramming.DmaWordFields | ctrl/am335x_ctrl.c:529-531 | the DMA writes set the FIFO threshold, burst size and frame mode and keep the other LCDDMA_CTRL fields |
| Am335xProgramming.DmaDefaultsEffect | ctrl/am335x_ctrl.c:528-531 | only LCDDMA_CTRL changes, and there only those three fields |
| Am335xProgramming.InitProgramsDefaults | ctrl/am335x_ctrl.c:508-533 | after a successful `init` the six programmed registers hold every default field, all their other fields are kept, and the other registers are untouched |
| Am335xProgramming.InitFailureWritesNothing | ctrl/am335x_ctrl.c:535-542 | a failed `init` writes no register |
| Am335xProgramming.AddrPhaseEffect | ctrl/am335x_ctrl.c:545-549 | `write_addr` clears `lidd_dma_en`, puts `addr` in CS0_ADDR.adr_indx, and changes nothing else |
| Am335xProgramming.DataPhaseEffect | ctrl/am335x_ctrl.c:551-557 | `write_data` ends with DMA enabled, FB0 base = `data` and FB0 ceiling = the address of the last 16-bit word (both aligned down to 4 bytes), reserved bits kept, and nothing else changed |
| Am335xProgramming.WriteTransferEffect | ctrl/am335x_ctrl.c:564-575 | a transfer leaves the address latched, DMA enabled and FB0 spanning the buffer |
| Am335xProgramming.WriteEffect | ctrl/am335x_ctrl.c:564-577 | in every case `write` latches the address; DMA ends enabled exactly when a transfer is programmed; without one only LIDD_CTRL and CS0_ADDR change |
| Am335xProgramming.WriteOrder | ctrl/am335x_ctrl.c:545-577 | DMA is disabled before the address write, and the FB0 base and ceiling are written before DMA is re-enabled, which happens exactly when a transfer is programmed |
| Am335xProgramming.WriteKeepsResources | ctrl/am335x_ctrl.c:564-577 | `write` neither acquires nor gives back any resource |
| Am335xProgramming.CeilingNotBelowBase | ctrl/am335x_ctrl.c:554-555 | when the ceiling computation does not wrap, the programmed FB0 ceiling is not below the programmed base |

## Left out

- The sysfs attribute glue (`*_show`/`*_store`, `am335x_sysfs_ops`, the attribute tables, `clk_freq_show`, lines 20-54 and 66-458 of `ctrl/am335x_ctrl.c`) is left out. It is text formatting and parsing on kernel buffers.
- `am335x_ctrl_create` and `destroy` are left out: allocation, kobject registration, uevents and reference counting. Only the object with zero-filled pointers (`Controller` constructor) and the release callback are modelled. `create` also never sets a `read` hook and returns 0 on success; neither is modelled.
- `pl_parallel_module.c` and the other headers are not part of this model. They are the callers and the character-device and ioctl front end.
- The register accessors (`am335x_lcdc_set_*`, `am335x_set_lidd_*`, `am335x_set_lcddma_*`) are not defined in the modelled files. Each is modelled as one read-modify-write of the fields its name designates, with no clamping. The FB accessors store address bits 2-31.
- Some accessor calls receive `c->hw_res` and others `c->reg_base_addr`. Both are treated as the same mapped register block.
- Register contents are a plain sequence that reads back what was written. Hardware side effects are not modelled: a bus cycle on an address write, a DMA transfer that runs, read-only or self-clearing bits.
- The IRQSTATUS, IRQENABLE_SET and IRQENABLE_CLEAR layouts (include/ctrl/am335x_regs.h:94-134) are not modelled: each declares an `eof0_*` field twice, so no single bit layout follows from the text.
- Kernel services (clock framework, `devm_ioremap_resource`, `gpiod_get`) are parameters: their results are inputs. `dev_err` logging and devm auto-release on device detach are left out.
- Waiting for DMA completion, HRDY polling, timeouts and a real read path are not in the code and so not in the model.
- Concurrency and locking are left out; the source has none around these operations.
- CeilingNotBelowBase: the no-wrap hypothesis is stated as `data <= LastWordAddress(data, len)` on 32-bit words, not as a bound on `len`. It is weaker than an arithmetic bound and says nothing about buffers that wrap the address space.
- The field codes `NO_INVERT` (0), `FIFO_TH_16` (1), `BURST_SIZE_16` (4) and `ONE_FRAME` (0) that `init` programs are not defined in the modelled files. Their values are assumed from the LCDC hardware encoding, not taken from the code. The field values that InitProgramsDefaults, LiddCtrlDefaultsEffect, LiddCtrlWordFields, DmaWordFields and DmaDefaultsEffect state rest on these assumed codes.
- `init` stores the clock in `ctrl->hw_clk` of the generic controller (ctrl/am335x_ctrl.c:471) but prepares, sets and enables `c->hw_clk` of the AM335x object (472-486), and release puts that one (63). The model reads the two as one field. It also assumes the members `dev`, `hw_clk`, `hrdy_gpio` and `reg_base_addr`, which the headers shown do not declare. Read literally with two separate fields, the clock calls would all receive the zero-filled NULL.
- The `write` hook that include/ctrl/controller.h declares takes `(ctrl, const char *buf, size_t len)`. ctrl/am335x_ctrl.c:564 defines `write(ctrl, short addr, const short *buf, size_t len)`, and the model follows the .c file. The `standby_mode` value `MO_STANDBY` keeps the header's spelling as `MoStandby`.
- Controller.constructor: `hasDev` is a free parameter, but `am335x_ctrl_create` (ctrl/am335x_ctrl.c:584-610) never sets `dev` or `hw_res` after `kzalloc`. So in the code as written `init` always returns -ENODEV at lines 465-468. The acquisition and programming paths that the lifecycle and programming lemmas cover are reachable only through a `dev` set by code outside the modelled files.
- The IRQSTATUS_RAW bit 0 field keeps the header's spelling `donw_raw_set` as `DONW_RAW_SET`.
