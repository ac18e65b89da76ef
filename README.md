# PSRAM teardown and first-stage boot loader, modelled in Dafny

This project models two pieces of boot-stage firmware for an STM32N6 board with an
AP Memory PSRAM on the XSPI1 controller.

- **The PSRAM/XSPI1 teardown** (`PSRAM_Shutdown`, `PSRAM_ShutdownAndReset`).
  - Class `PsramShutdown.Xspi1Platform` holds the hardware state the sequence touches:
    - the RCC clock and reset bits;
    - the XSPI1 CR/SR/CCR/TCR/DLR/IR fields;
    - the pin modes of GPIOP and GPIOO;
    - the interrupt mask.
  - A ghost trace records every software write, in order.
  - The hardware's own reactions are small methods whose postconditions are the environment assumptions: ABORT clears itself (and sets TCF when it cancels a transfer), BUSY drops, and TCF rises when the command completes.
  - XSPI1 registers take writes only while the controller is clocked and out of reset (`RegistersWritable`).
  - The six commented phases of the C function map onto five methods:
    - `BringUp` covers phases 1 and 2, and calls `AbortMemoryMapped` for phase 2;
    - phase 3 is `SendGlobalReset` (the command and the wait for TCF) followed by `ResetRecoveryDelay` (the tRST spin);
    - `Teardown` covers phases 4 to 6.
  - `Shutdown` composes them and is proved to leave `ShutdownFinal` of whatever state it started from, provided the XSPI1 reset line is released.
  - The wait for TCF in phase 3 can end before the Global Reset has completed; see "## Findings".
- **The first-stage boot loader** (`main.c`).
  - Module `Mpu` holds the MPU region and attribute table for both board variants (`DK_BOARD`) and its invariants.
  - Class `Fsbl.Processor` models the following as methods over its state and ghost trace:
    - `MPU_Config`, which reuses one region record;
    - `PSRAM_GlobalReset`;
    - `BOOT_GetApplicationVectorTable`;
    - `Error_Handler`;
    - the call order of `main`.
  - HAL and library calls whose code is not part of this model are trace events. Their results are parameters.
- **Shared modules.**
  - `XspiCcr`: the CCR bit-field encoding.
  - `Gpio`: pin masks and pin modes.
  - `ResetTiming`: the tRST ≥ 2 µs arithmetic at 400 MHz.
  - `Traces`: the repeated-event helper and "occurs only at" helper.

"Never returns" is modelled by a terminal state. In that state no operation can run: every method requires `!resetRequested` (teardown) or `run == Running` (boot loader).

## Model

| member | source | states |
|---|---|---|
| XspiCcr.EncodeCcr | Shared/Src/psram_shutdown.c:20-28 | the CCR word built from IMODE/IDTR/ISIZE/ADMODE/ABMODE/DMODE has no bit outside those fields and decodes back to the same fields |
| XspiCcr.EncodeDecode | Shared/Src/psram_shutdown.c:20-28 | a word is re-encoded exactly from its decoded fields if and only if no bit outside the six fields is set |
| XspiCcr.GresetCcrEncoding | Shared/Src/psram_shutdown.c:28 | PSRAM_GRESET_CCR decodes to IMODE = 4 (eight lines) with IDTR, ISIZE, ADMODE, ABMODE and DMODE zero, and those fields encode back to it |
| Gpio.PinMask | Shared/Src/psram_shutdown.c:31-36 | the OR of GPIO_PIN_p over a list of pins holds pin p exactly when p is listed |
| Gpio.DeInitPinsEffect | Shared/Src/psram_shutdown.c:82-83 | HAL_GPIO_DeInit returns every masked pin to analog, leaves every other pin as it was, and repeating it changes nothing |
| Gpio.DeInitPinsAgree | Shared/Src/psram_shutdown.c:82-83 | two ports that agree on every pin outside the mask are identical after HAL_GPIO_DeInit of that mask |
| PsramShutdown.GpiopPins | Shared/Src/psram_shutdown.c:31-34 | XSPI1_GPIOP_PINS (0xFFFF) is the mask of pins 0..15 and holds every pin of the port |
| PsramShutdown.GpiooPins | Shared/Src/psram_shutdown.c:36 | XSPI1_GPIOO_PINS (0x001D) is the mask of pins 0, 2, 3, 4 and holds exactly those |
| PsramShutdown.Xspi1Platform.EnableClock | Shared/Src/psram_shutdown.c:42-44 | enables one RCC clock; nothing else changes |
| PsramShutdown.Xspi1Platform.SetEnable | Shared/Src/psram_shutdown.c:47 | sets CR.EN; nothing else changes |
| PsramShutdown.Xspi1Platform.RequestAbort | Shared/Src/psram_shutdown.c:51 | sets CR.ABORT; nothing else changes |
| PsramShutdown.Xspi1Platform.AbortCompletes | Shared/Src/psram_shutdown.c:52 | hardware assumption: ABORT clears itself, with no software write, and TCF is set when the abort cancelled a transfer |
| PsramShutdown.Xspi1Platform.SelectIndirectMode | Shared/Src/psram_shutdown.c:54 | clears CR.FMODE (indirect write); nothing else changes |
| PsramShutdown.Xspi1Platform.BusyDrops | Shared/Src/psram_shutdown.c:55 | hardware assumption: SR.BUSY drops |
| PsramShutdown.Xspi1Platform.WriteCcr | Shared/Src/psram_shutdown.c:59 | writes CCR; nothing else changes |
| PsramShutdown.Xspi1Platform.WriteTcr | Shared/Src/psram_shutdown.c:60 | writes TCR; nothing else changes |
| PsramShutdown.Xspi1Platform.WriteDlr | Shared/Src/psram_shutdown.c:61 | writes DLR; nothing else changes |
| PsramShutdown.Xspi1Platform.WriteIr | Shared/Src/psram_shutdown.c:62 | the IR write starts a command only when the controller is clocked, out of reset, enabled, not aborting, in indirect mode and idle; it logs the CCR/TCR/DLR then in force, leaves the transfer in flight and does not touch TCF |
| PsramShutdown.Xspi1Platform.TransferCompletes | Shared/Src/psram_shutdown.c:64 | hardware assumption: TCF rises and BUSY drops when the command completes |
| PsramShutdown.Xspi1Platform.ClearTransferComplete | Shared/Src/psram_shutdown.c:65 | FCR.CTCF clears TCF; nothing else changes |
| PsramShutdown.Xspi1Platform.ClearEnable | Shared/Src/psram_shutdown.c:73 | clears CR.EN; nothing else changes |
| PsramShutdown.Xspi1Platform.ForceReset | Shared/Src/psram_shutdown.c:76 | holds the reset line and returns every XSPI1 register to its power-on value |
| PsramShutdown.Xspi1Platform.ReleaseReset | Shared/Src/psram_shutdown.c:77 | releases the reset line; nothing else changes |
| PsramShutdown.Xspi1Platform.GpioDeInit | Shared/Src/psram_shutdown.c:82-83 | with the port clock on, de-initialises the masked pins of that port only |
| PsramShutdown.Xspi1Platform.DisableXspi1Clock | Shared/Src/psram_shutdown.c:87 | turns the XSPI1 clock off; nothing else changes |
| PsramShutdown.Xspi1Platform.DisableInterrupts | Shared/Src/psram_shutdown.c:92 | masks interrupts |
| PsramShutdown.Xspi1Platform.SystemReset | Shared/Src/psram_shutdown.c:94 | requests the system reset, a terminal state from which no operation runs |
| PsramShutdown.Xspi1Platform.BringUp | Shared/Src/psram_shutdown.c:40-55 | from any state with the reset line released: clocks on, EN set, abort finished, indirect write, idle, so that a command may start; TCF as before or set by the abort; the six bring-up writes in order |
| PsramShutdown.Xspi1Platform.AbortMemoryMapped | Shared/Src/psram_shutdown.c:49-55 | ABORT set and awaited, then FMODE cleared and BUSY awaited; the registers end not aborting, indirect, idle, with TCF set if the abort set it |
| PsramShutdown.Xspi1Platform.SendGlobalReset | Shared/Src/psram_shutdown.c:57-65 | CCR = PSRAM_GRESET_CCR, TCR = 0, DLR = 0, then IR = 0xFF, wait for TCF and clear it; ends with TCF clear, and still busy exactly when TCF was already set on entry (as written) |
| PsramShutdown.Xspi1Platform.ResetRecoveryDelay | Shared/Src/psram_shutdown.c:67-68 | exactly 2000 delay iterations, no register touched |
| PsramShutdown.Xspi1Platform.Teardown | Shared/Src/psram_shutdown.c:70-87 | EN cleared, force-reset and release, both pin sets de-initialised, XSPI1 clock off: the state becomes ShutdownFinal of the state before |
| PsramShutdown.Xspi1Platform.Shutdown | Shared/Src/psram_shutdown.c:38-88 | from any state with the XSPI1 reset line released, and whether or not the abort sets TCF, performs exactly ShutdownEvents() and leaves ShutdownFinal of the start state |
| PsramShutdown.Xspi1Platform.ShutdownAndReset | Shared/Src/psram_shutdown.c:90-95 | from a state with the XSPI1 reset line released: interrupts masked before the first shutdown write, the reset requested after the last, and the reset state is terminal |
| PsramShutdown.ShutdownFinalState | Shared/Src/psram_shutdown.c:72-87 | after the teardown the XSPI1 registers are at power-on values (EN = 0), reset released, XSPI1 clock off, port clocks on, GPIOP and GPIOO pins 0, 2, 3, 4 analog, other GPIOO pins and the interrupt mask unchanged |
| PsramShutdown.ShutdownConverges | Shared/Src/psram_shutdown.c:38-88 | two start states agreeing on GPIOO pins 1 and 5..15, the interrupt mask and the reset request end in the same state, whatever their clocks, registers or other pins (Shutdown itself needs the reset line released) |
| PsramShutdown.ShutdownIdempotent | Shared/Src/psram_shutdown.c:38-88 | a shutdown from a post-shutdown state (clock off, EN = 0) ends in the same state: twice equals once |
| PsramShutdown.CommandWrittenLast | Shared/Src/psram_shutdown.c:59-62 | the CCR, TCR = 0 and DLR = 0 writes directly precede the IR = 0xFF write, which is the only command trigger and runs with PSRAM_GRESET_CCR, 0, 0 |
| PsramShutdown.DelayBeforeDisable | Shared/Src/psram_shutdown.c:64-73 | TCF is cleared exactly once; the delay iterations are exactly the 2000 positions after it, and the next write clears EN |
| PsramShutdown.TeardownOrder | Shared/Src/psram_shutdown.c:70-87 | the last six writes are EN cleared, force-reset, release-reset, GPIOP de-init, GPIOO de-init, clock off, and each of them occurs only at its position |
| PsramShutdown.ShutdownDelayCoversRecovery | Shared/Src/psram_shutdown.c:67-68 | 2000 iterations of at least one cycle last at least tRST = 2 µs at any clock up to 400 MHz |
| PsramShutdown.GlobalResetWaitCompletes | Shared/Src/psram_shutdown.c:51-65 | as written, the controller is idle after phase 3 (the Global Reset completed) if and only if TCF was clear before phase 2 and the abort did not set it |
| PsramShutdown.AbortedAccessLeavesCommandInFlight | Shared/Src/psram_shutdown.c:51-65 | from memory-mapped mode with an access that the abort cancels, phase 3 as written ends with the Global Reset still in flight |
| PsramShutdown.Xspi1Platform.SendGlobalResetClearingFirst | Shared/Src/psram_shutdown.c:57-65 | corrected phase 3: CTCF before the command, so the wait ends only when the Global Reset has completed; ends idle with TCF clear |
| PsramShutdown.ClearingFirstCompletes | Shared/Src/psram_shutdown.c:57-65 | corrected phase 3 leaves the controller idle from every state, whatever the abort did, and otherwise agrees with phase 3 as written |
| PsramShutdown.Xspi1Platform.ShutdownClearingFirst | Shared/Src/psram_shutdown.c:38-88 | PSRAM_Shutdown with the corrected phase 3: the same final state ShutdownFinal, one more CTCF write before the command |
| ResetTiming.CyclesFor | FSBL/Core/Src/main.c:474 | the rounded-up cycle count lasts at least the given time and one cycle fewer does not |
| ResetTiming.RecoveryAtMaxClock | FSBL/Core/Src/main.c:474 | 2 µs at 400 MHz is 800 cycles |
| ResetTiming.SpinCoversRecovery | FSBL/Core/Src/main.c:474-475 | a spin of at least 800 iterations, each of at least one cycle, lasts at least 2 µs at any clock up to 400 MHz |
| Mpu.InnerOuter | FSBL/Core/Src/main.c:562-563 | INNER_OUTER(x) puts the nibble x in both halves of the attribute byte: the inner (low) and the outer (high) nibble both read back as x |
| Mpu.InnerOuterDecodes | FSBL/Core/Src/main.c:562-569 | INNER_OUTER of a normal-memory nibble means normal memory with that nibble's cache attributes at the inner and the outer level alike |
| Mpu.RegionOf | FSBL/Core/Src/main.c:513-557 | the MPU's address lookup, which the table is written for, not code of main.c: it finds an enabled region containing the address, or reports that none does. ARMv8-M faults on an address in two enabled regions instead of taking one; RegionOfUnique shows that in this table no address is in two |
| Mpu.RegionOfUnique | FSBL/Core/Src/main.c:513-557 | in a table of disjoint regions, an address in region i is found in region i and no other |
| Mpu.RegionTableWellFormed | FSBL/Core/Src/main.c:513-557 | for both boards the three regions have base ≤ limit on 32-byte granules, are numbered 0, 1, 2 and are pairwise disjoint |
| Mpu.RegionAttributes | FSBL/Core/Src/main.c:521-580 | region i uses attribute entry i; the entries are the bytes 0x77, 0x33 and 0x00, which mean write-back, write-through and Device-nGnRnE memory for i = 0, 1, 2 |
| Mpu.DeviceRegion | FSBL/Core/Src/main.c:543-580 | region 2 spans 0x342E0000..0x3434FFFF (0x70000 bytes), is Device-nGnRnE, outer-shareable, and execute-never for both privilege levels |
| Mpu.DeviceRegionNotExecutable | FSBL/Core/Src/main.c:553-554 | no address of region 2 is executable, privileged or not |
| Mpu.Region1Inherits | FSBL/Core/Src/main.c:529-541 | region 1 is region 0 with only Number, BaseAddress, LimitAddress, AttributesIndex and AccessPermission (PRIV_RW) changed: enabled, executable, not shareable |
| Fsbl.GlobalResetDescriptorMatchesCcr | FSBL/Core/Src/main.c:459-470 | the command descriptor selects the CCR fields that encode to PSRAM_GRESET_CCR, and sends the instruction 0xFF |
| Fsbl.GlobalResetDelayCoversRecovery | FSBL/Core/Src/main.c:474-475 | 1000 iterations of at least one cycle last at least 2 µs at any clock up to 400 MHz |
| Fsbl.VectorTableAddress | FSBL/Core/Src/main.c:494 | the 32-bit sum: the plain sum when it fits, the sum less 2^32 when it overflows |
| Fsbl.FirstFailure | FSBL/Core/Src/main.c:81-126 | the first failing step of main from a given step on: every step before it succeeds and it fails, or none fails |
| Fsbl.StepsRun | FSBL/Core/Src/main.c:81-126 | main makes between 1 and 13 calls of its init order; every call before the last succeeds, and the last fails unless all 13 ran |
| Fsbl.MainOutcome | FSBL/Core/Src/main.c:81-126 | the calls main makes are the steps up to and including the first failing one, and it halts exactly when some step fails |
| Fsbl.MpuConfigOrder | FSBL/Core/Src/main.c:505-588 | interrupts masked and the MPU off before any region or attribute write; each region and attribute entry written exactly once; MPU enabled with the privileged default only after all six writes; PRIMASK restored last |
| Fsbl.GlobalResetOrder | FSBL/Core/Src/main.c:472-475 | the descriptor is sent once, first, and exactly 1000 delay iterations follow |
| Fsbl.Processor.DisableIrq | FSBL/Core/Src/main.c:506 | masks interrupts |
| Fsbl.Processor.SetPrimask | FSBL/Core/Src/main.c:588 | sets PRIMASK to the given value |
| Fsbl.Processor.MpuDisable | FSBL/Core/Src/main.c:509 | turns the MPU off |
| Fsbl.Processor.MpuConfigRegion | FSBL/Core/Src/main.c:527 | programs the region entry the record names |
| Fsbl.Processor.MpuConfigMemoryAttributes | FSBL/Core/Src/main.c:565 | programs the attribute entry the record names |
| Fsbl.Processor.MpuEnable | FSBL/Core/Src/main.c:585 | turns the MPU on with the given control |
| Fsbl.Processor.XspiCommand | FSBL/Core/Src/main.c:472 | sends the descriptor on the handle and reports the driver's status; no modelled state changes |
| Fsbl.Processor.DisableMemoryMapped | FSBL/Core/Src/main.c:488 | takes EXTMEMORY_2 out of memory-mapped mode |
| Fsbl.Processor.MpuConfig | FSBL/Core/Src/main.c:501-590 | programs the region and attribute tables of the board, leaves the MPU on with the privileged default map, restores PRIMASK, and performs exactly MpuConfigEvents |
| Fsbl.Processor.ConfigureRegions | FSBL/Core/Src/main.c:503-557 | the field-by-field updates of one reused record program exactly RegionTable(board) |
| Fsbl.Processor.ConfigureAttributes | FSBL/Core/Src/main.c:559-582 | the three updates of one reused record, with INNER_OUTER computed on the HAL codes, program exactly the attribute bytes of AttributeTable() |
| Fsbl.Processor.PsramGlobalReset | FSBL/Core/Src/main.c:457-476 | sends the Global Reset descriptor on hxspi1 and spins 1000 iterations, whatever the HAL status; no state changes |
| Fsbl.Processor.BootGetApplicationVectorTable | FSBL/Core/Src/main.c:485-495 | memory-mapped mode of EXTMEMORY_2 off, then the Global Reset, then returns the 32-bit sum of the two addresses |
| Fsbl.Processor.ErrorHandler | FSBL/Core/Src/main.c:596-605 | masks interrupts and halts; nothing runs after it |
| Fsbl.Processor.OpaqueStep | FSBL/Core/Src/main.c:86-112 | logs a call whose code is not modelled; a failing one ends in Error_Handler |
| Fsbl.Processor.ConfigureCore | FSBL/Core/Src/main.c:81-99 | MPU_Config, both caches, HAL_Init, SystemClock_Config in order; halted if the clock configuration fails |
| Fsbl.Processor.InitPeripherals | FSBL/Core/Src/main.c:106-110 | GPIO, HPDMA1, GPDMA1, XSPI2, XSPI1 initialisers in order, stopping at a failing XSPI initialiser |
| Fsbl.Processor.Launch | FSBL/Core/Src/main.c:111-135 | Global Reset, EXTMEM manager init, BOOT_Application; Error_Handler if it fails, the idle loop if it succeeds |
| Fsbl.Processor.BootMain | FSBL/Core/Src/main.c:73-137 | main makes the calls of its init order up to the first failure, ends halted exactly when one fails and parked otherwise, and leaves the MPU table installed either way |

## Left out

- SystemClock_Config, MX_GPIO_Init, the DMA initialisers and the XSPI1/XSPI2 initialisers (FSBL/Core/Src/main.c:145-447) are steps with an outcome; the HAL structures they fill and their effect on the clock tree and pins are not modelled.
- The LED blink loop and HAL_Delay (FSBL/Core/Src/main.c:114-120) are diagnostics only and are left out.
- The HAL, CMSIS and extmem library internals are not part of this model. This covers HAL_XSPI_Command, EXTMEM_MemoryMappedMode, MX_EXTMEM_MANAGER_Init and BOOT_Application, and also the MPU register layout (RBAR, RLAR, MAIR) that HAL_MPU_ConfigRegion and HAL_MPU_ConfigMemoryAttributes write.
- The HAL attribute codes (MPU_WRITE_THROUGH 0x00, MPU_WRITE_BACK 0x04, MPU_TRANSIENT 0x00, MPU_NON_TRANSIENT 0x08, MPU_RW_ALLOCATE 0x03, MPU_DEVICE_NGNRNE 0x00) are taken from the ARMv8-M MAIR nibble encoding, since the HAL header is not part of this model. Device types other than nGnRnE decode to None.
- Which controller EXTMEMORY_2 maps to is not shown in the source, so the model does not tie it to XSPI1.
- The values of EXTMEM_LRUN_DESTINATION_ADDRESS and EXTMEM_HEADER_OFFSET are constructor parameters of Fsbl.Processor.
- BOOT_Application itself calls BOOT_GetApplicationVectorTable. That call is inside the library, so Fsbl.Processor.BootMain does not perform it.
- The numeric codes of the HAL enumerations are datatype constructors. The `{0}` initialisers are taken to mean the following, since the HAL headers are not part of this model: region disabled, privileged read/write, execution allowed, not shareable, and instruction-only common configuration.
- Real time is left out: wall-clock time, cycles per loop iteration, and whether the ABORT/BUSY/TCF spin-waits terminate. The hardware reactions are assumptions, stated as postconditions of the hardware methods, and the delay loops are counted iterations (1000 and 2000 as written).
- The effects of NVIC_SystemReset, of the cache enables and of the infinite loops are terminal states or trace events, not behaviour.
- assert_failed is an empty stub and is left out.
- PsramShutdown.Xspi1Platform.Shutdown: requires the XSPI1 reset line released, and so does ShutdownAndReset. With the line held the controller ignores every write, TCF never rises, and the source waits forever at Shared/Src/psram_shutdown.c:64. A terminating method cannot express that hang, so the model excludes that start state.
- Whether the abort at Shared/Src/psram_shutdown.c:51 cancels a transfer, and so sets TCF, is a parameter (`abortSetsTcf`). It depends on whether a memory-mapped access is in progress, which the model does not track.
- After the wait at Shared/Src/psram_shutdown.c:64 ends early, the Global Reset completes while the spin runs. That later completion is not modelled: the force-reset returns every register to its power-on value either way.
- Interrupts and concurrency are left out. Both sequences run with interrupts masked where it matters, or run single-threaded before the application starts.

## Findings

| source | as written | input that shows it | evidently intended | confidence | as-written member | corrected member |
|---|---|---|---|---|---|---|
| Shared/Src/psram_shutdown.c:51-65 | TCF is never cleared before the Global Reset is triggered. The XSPI sets TCF when an abort cancels a transfer, so the wait at line 64 can end at once. CTCF at line 65 then clears the abort's flag, and the tRST spin starts with the Global Reset still in flight. | XSPI1 in memory-mapped mode with an access in progress when ABORT is set (`AbortedAccessLeavesCommandInFlight`) | the wait ends only after the Global Reset completed: write FCR.CTCF before IR (before line 59) | medium: rests on the XSPI setting TCF for an aborted transfer; not executed | PsramShutdown.Xspi1Platform.SendGlobalReset | PsramShutdown.Xspi1Platform.SendGlobalResetClearingFirst |

For the code as written, `GlobalResetWaitCompletes` says exactly when the wait proves completion, and `AbortedAccessLeavesCommandInFlight` exhibits an input where it does not. For the correction, `ClearingFirstCompletes` proves that the controller is idle after phase 3 from every state. `Shutdown` keeps modelling the code as written, because its promised final state does not depend on this flaw: the force-reset in phase 4 clears every register either way. `ShutdownClearingFirst` is the corrected sequence. It reaches the same final state, and it runs the spin only after `SendGlobalResetClearingFirst`, whose contract leaves the controller idle with the Global Reset complete.
