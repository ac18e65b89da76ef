/** Register-level teardown of the XSPI1 controller and the AP Memory PSRAM behind it
    (PSRAM_Shutdown and PSRAM_ShutdownAndReset). The class holds the abstract
    hardware state the sequence touches: the RCC clock and reset bits of XSPI1 and
    of its two GPIO ports, the XSPI1 CR/SR/CCR/TCR/DLR/IR fields, the pin modes of
    GPIOP and GPIOO, and the CPU interrupt mask. A ghost trace records every write
    the software performs, in order. The hardware's own reactions (ABORT clearing
    itself and setting TCF when it cancels a transfer, BUSY dropping, TCF rising
    when the command completes) are small methods whose postconditions are the
    environment assumptions. */
module PsramShutdown {
  import opened Traces
  import opened Gpio
  import opened XspiCcr
  import ResetTiming

  /** XSPI1_GPIOP_PINS: PP0..PP15, the sixteen data lines (the OR of GPIO_PIN_0 to
      GPIO_PIN_15, see PinMasks). */
  const Xspi1GpiopPins: bv16 := 0xFFFF

  /** XSPI1_GPIOO_PINS: PO0 (chip select) and PO2..PO4 (the OR of GPIO_PIN_0, 2, 3
      and 4, see PinMasks). */
  const Xspi1GpiooPins: bv16 := 0x001D

  /** The PSRAM Global Reset opcode written to IR. */
  const GlobalResetInstruction: bv32 := 0xFF

  /** Iterations of the tRST spin after the command completes. */
  const ShutdownDelayIterations: nat := 2000

  /** FMODE codes of CR: 00 indirect write, 01 indirect read, 10 automatic status
      polling, 11 memory-mapped. */
  const FmodeIndirectWrite: bv2 := 0
  const FmodeMemoryMapped: bv2 := 3

  datatype Clock = Xspi1Clock | GpiopClock | GpiooClock

  datatype Port = GPIOP | GPIOO

  /** The software's observable operations. */
  datatype Event =
    | ClockEnabled(clock: Clock)
    | ClockDisabled(clock: Clock)
    | EnableSet                       // CR.EN := 1
    | AbortRequested                  // CR.ABORT := 1
    | IndirectModeSelected            // CR.FMODE := 00
    | CcrWritten(value: bv32)
    | TcrWritten(value: bv32)
    | DlrWritten(value: bv32)
      /** The write of IR, which starts the command; it records the command
          configuration in force at that moment. */
    | CommandTriggered(instruction: bv32, ccr: bv32, tcr: bv32, dlr: bv32)
    | TransferCompleteCleared         // FCR.CTCF := 1
    | DelayIteration
    | EnableCleared                   // CR.EN := 0
    | ResetForced                     // RCC force-reset of XSPI1
    | ResetReleased                   // RCC release-reset of XSPI1
    | PinsDeInit(port: Port, mask: bv16)
    | InterruptsDisabled
    | SystemResetRequested

  /** The XSPI1 register fields the sequence reads or writes. */
  datatype Registers = Registers(
    en: bool, abort: bool, fmode: bv2, busy: bool, tcf: bool,
    ccr: bv32, tcr: bv32, dlr: bv32, ir: bv32)

  /** Power-on (and post force-reset) values of those fields. */
  const PowerOnRegisters: Registers := Registers(false, false, 0, false, false, 0, 0, 0, 0)

  datatype Mode = Disabled | Indirect | StatusPolling | MemoryMapped

  function ModeOf(r: Registers): Mode
  {
    if !r.en then Disabled
    else if r.fmode == FmodeMemoryMapped then MemoryMapped
    else if r.fmode == 2 then StatusPolling
    else Indirect
  }

  /** The RCC bits of XSPI1 and of its pin banks. */
  datatype Rcc = Rcc(xspi1Clock: bool, gpiopClock: bool, gpiooClock: bool, xspi1ResetHeld: bool)

  /** Everything the platform holds apart from the trace. */
  datatype SystemState = SystemState(
    rcc: Rcc, regs: Registers, gpiop: PortModes, gpioo: PortModes,
    irqMasked: bool, resetRequested: bool)

  /** The registers after phases 1 and 2: enabled, abort finished, indirect write,
      idle; TCF as before, or set when the abort cancelled a transfer. */
  function BringUpRegisters(r: Registers, abortSetsTcf: bool): Registers
  {
    r.(en := true, abort := false, fmode := FmodeIndirectWrite, busy := false, tcf := r.tcf || abortSetsTcf)
  }

  /** The registers after phase 3 as written: the command configured, TCF cleared,
      and the controller still busy exactly when TCF was already set before the
      command, so that the wait for it ended at once. */
  function GlobalResetRegisters(r: Registers): Registers
  {
    r.(ccr := PsramGresetCcr, tcr := 0, dlr := 0, ir := GlobalResetInstruction, busy := r.tcf, tcf := false)
  }

  /** The registers after phase 3 with TCF cleared before the command: the command
      has completed and TCF is clear. */
  function GlobalResetRegistersClearingFirst(r: Registers): Registers
  {
    r.(ccr := PsramGresetCcr, tcr := 0, dlr := 0, ir := GlobalResetInstruction, busy := false, tcf := false)
  }

  /** The state PSRAM_Shutdown leaves behind, from state s. */
  function ShutdownFinal(s: SystemState): SystemState
  {
    s.(rcc := Rcc(xspi1Clock := false, gpiopClock := true, gpiooClock := true, xspi1ResetHeld := false),
       regs := PowerOnRegisters,
       gpiop := DeInitPins(s.gpiop, Xspi1GpiopPins),
       gpioo := DeInitPins(s.gpioo, Xspi1GpiooPins))
  }

  function BringUpEvents(): seq<Event>
  {
    [ClockEnabled(Xspi1Clock), ClockEnabled(GpiopClock), ClockEnabled(GpiooClock),
     EnableSet, AbortRequested, IndirectModeSelected]
  }

  function CommandEvents(): seq<Event>
  {
    [CcrWritten(PsramGresetCcr), TcrWritten(0), DlrWritten(0),
     CommandTriggered(GlobalResetInstruction, PsramGresetCcr, 0, 0),
     TransferCompleteCleared]
  }

  function TeardownEvents(): seq<Event>
  {
    [EnableCleared, ResetForced, ResetReleased,
     PinsDeInit(GPIOP, Xspi1GpiopPins), PinsDeInit(GPIOO, Xspi1GpiooPins),
     ClockDisabled(Xspi1Clock)]
  }

  /** The writes of one PSRAM_Shutdown, in order. */
  function ShutdownEvents(): seq<Event>
  {
    BringUpEvents() + CommandEvents() + Repeat(DelayIteration, ShutdownDelayIterations) + TeardownEvents()
  }

  /** The writes of the corrected sequence: TCF cleared once more, before the
      command is configured. */
  function ShutdownEventsClearingFirst(): seq<Event>
  {
    BringUpEvents() + [TransferCompleteCleared] + CommandEvents()
      + Repeat(DelayIteration, ShutdownDelayIterations) + TeardownEvents()
  }

  class Xspi1Platform {
    var rcc: Rcc
    var regs: Registers
    var gpiop: PortModes
    var gpioo: PortModes
    var irqMasked: bool
    var resetRequested: bool

    ghost var trace: seq<Event>

    function State(): SystemState
      reads this
    {
      SystemState(rcc, regs, gpiop, gpioo, irqMasked, resetRequested)
    }

    /** A platform in an arbitrary state: any clock, reset, register, pin and
        interrupt configuration that a previous boot stage or application left. */
    constructor (s: SystemState)
      requires !s.resetRequested
      ensures State() == s && trace == []
    {
      rcc, regs, gpiop, gpioo := s.rcc, s.regs, s.gpiop, s.gpioo;
      irqMasked, resetRequested := s.irqMasked, s.resetRequested;
      trace := [];
    }

    /** The XSPI1 registers take writes only while the controller is clocked and
        its RCC reset line is released; otherwise a write is lost. */
    predicate RegistersWritable()
      reads this
    {
      rcc.xspi1Clock && !rcc.xspi1ResetHeld
    }

    /** The controller may start a command: its registers writable, enabled, no
        abort pending, in indirect mode and not busy. */
    predicate CommandReady()
      reads this
    {
      RegistersWritable() && regs.en && !regs.abort && regs.fmode == FmodeIndirectWrite && !regs.busy
    }

    // ---- RCC ------------------------------------------------------------------

    method EnableClock(c: Clock)
      requires !resetRequested
      modifies this
      ensures State() == old(State()).(rcc := match c
        case Xspi1Clock => old(rcc).(xspi1Clock := true)
        case GpiopClock => old(rcc).(gpiopClock := true)
        case GpiooClock => old(rcc).(gpiooClock := true))
      ensures trace == old(trace) + [ClockEnabled(c)]
    {
      match c {
        case Xspi1Clock => rcc := rcc.(xspi1Clock := true);
        case GpiopClock => rcc := rcc.(gpiopClock := true);
        case GpiooClock => rcc := rcc.(gpiooClock := true);
      }
      trace := trace + [ClockEnabled(c)];
    }

    method DisableXspi1Clock()
      requires !resetRequested
      modifies this
      ensures State() == old(State()).(rcc := old(rcc).(xspi1Clock := false))
      ensures trace == old(trace) + [ClockDisabled(Xspi1Clock)]
    {
      rcc := rcc.(xspi1Clock := false);
      trace := trace + [ClockDisabled(Xspi1Clock)];
    }

    /** Force-reset: the reset line is held and every XSPI1 register returns to its
        power-on value. */
    method ForceReset()
      requires !resetRequested
      modifies this
      ensures State() == old(State()).(rcc := old(rcc).(xspi1ResetHeld := true), regs := PowerOnRegisters)
      ensures trace == old(trace) + [ResetForced]
    {
      rcc := rcc.(xspi1ResetHeld := true);
      regs := PowerOnRegisters;
      trace := trace + [ResetForced];
    }

    method ReleaseReset()
      requires !resetRequested
      modifies this
      ensures State() == old(State()).(rcc := old(rcc).(xspi1ResetHeld := false))
      ensures trace == old(trace) + [ResetReleased]
    {
      rcc := rcc.(xspi1ResetHeld := false);
      trace := trace + [ResetReleased];
    }

    // ---- XSPI1 registers (software writes need RegistersWritable) ---------------

    method SetEnable()
      requires !resetRequested && RegistersWritable()
      modifies this
      ensures State() == old(State()).(regs := old(regs).(en := true))
      ensures trace == old(trace) + [EnableSet]
    {
      regs := regs.(en := true);
      trace := trace + [EnableSet];
    }

    method ClearEnable()
      requires !resetRequested && RegistersWritable()
      modifies this
      ensures State() == old(State()).(regs := old(regs).(en := false))
      ensures trace == old(trace) + [EnableCleared]
    {
      regs := regs.(en := false);
      trace := trace + [EnableCleared];
    }

    method RequestAbort()
      requires !resetRequested && RegistersWritable()
      modifies this
      ensures State() == old(State()).(regs := old(regs).(abort := true))
      ensures trace == old(trace) + [AbortRequested]
    {
      regs := regs.(abort := true);
      trace := trace + [AbortRequested];
    }

    method SelectIndirectMode()
      requires !resetRequested && RegistersWritable()
      modifies this
      ensures State() == old(State()).(regs := old(regs).(fmode := FmodeIndirectWrite))
      ensures trace == old(trace) + [IndirectModeSelected]
    {
      regs := regs.(fmode := FmodeIndirectWrite);
      trace := trace + [IndirectModeSelected];
    }

    method WriteCcr(v: bv32)
      requires !resetRequested && RegistersWritable()
      modifies this
      ensures State() == old(State()).(regs := old(regs).(ccr := v))
      ensures trace == old(trace) + [CcrWritten(v)]
    {
      regs := regs.(ccr := v);
      trace := trace + [CcrWritten(v)];
    }

    method WriteTcr(v: bv32)
      requires !resetRequested && RegistersWritable()
      modifies this
      ensures State() == old(State()).(regs := old(regs).(tcr := v))
      ensures trace == old(trace) + [TcrWritten(v)]
    {
      regs := regs.(tcr := v);
      trace := trace + [TcrWritten(v)];
    }

    method WriteDlr(v: bv32)
      requires !resetRequested && RegistersWritable()
      modifies this
      ensures State() == old(State()).(regs := old(regs).(dlr := v))
      ensures trace == old(trace) + [DlrWritten(v)]
    {
      regs := regs.(dlr := v);
      trace := trace + [DlrWritten(v)];
    }

    /** Writing IR starts the command configured by CCR/TCR/DLR, which the
        controller accepts only when CommandReady() holds. The transfer is then in
        flight: BUSY is set. TCF is not touched: only FCR.CTCF clears it. */
    method WriteIr(v: bv32)
      requires !resetRequested && CommandReady()
      modifies this
      ensures State() == old(State()).(regs := old(regs).(ir := v, busy := true))
      ensures trace == old(trace) + [CommandTriggered(v, old(regs).ccr, old(regs).tcr, old(regs).dlr)]
    {
      trace := trace + [CommandTriggered(v, regs.ccr, regs.tcr, regs.dlr)];
      regs := regs.(ir := v, busy := true);
    }

    method ClearTransferComplete()
      requires !resetRequested && RegistersWritable()
      modifies this
      ensures State() == old(State()).(regs := old(regs).(tcf := false))
      ensures trace == old(trace) + [TransferCompleteCleared]
    {
      regs := regs.(tcf := false);
      trace := trace + [TransferCompleteCleared];
    }

    // ---- Hardware reactions (environment assumptions) --------------------------

    /** The controller finishes the abort and clears CR.ABORT itself. An abort that
        cancels a transfer (a memory-mapped access, say) also sets SR.TCF;
        `transferAborted` says whether this one did. */
    method AbortCompletes(transferAborted: bool)
      requires !resetRequested
      modifies this
      ensures State() == old(State()).(regs := old(regs).(abort := false, tcf := old(regs).tcf || transferAborted))
      ensures trace == old(trace)
    {
      regs := regs.(abort := false, tcf := regs.tcf || transferAborted);
    }

    /** The controller goes idle: SR.BUSY drops. */
    method BusyDrops()
      requires !resetRequested
      modifies this
      ensures State() == old(State()).(regs := old(regs).(busy := false))
      ensures trace == old(trace)
    {
      regs := regs.(busy := false);
    }

    /** The command in flight completes: SR.TCF is set and SR.BUSY drops. */
    method TransferCompletes()
      requires !resetRequested
      modifies this
      ensures State() == old(State()).(regs := old(regs).(busy := false, tcf := true))
      ensures trace == old(trace)
    {
      regs := regs.(busy := false, tcf := true);
    }

    // ---- GPIO and CPU ---------------------------------------------------------

    /** HAL_GPIO_DeInit(port, mask); the port's clock must be on. */
    method GpioDeInit(port: Port, mask: bv16)
      requires !resetRequested
      requires if port == GPIOP then rcc.gpiopClock else rcc.gpiooClock
      modifies this
      ensures State() == if port == GPIOP then old(State()).(gpiop := DeInitPins(old(gpiop), mask))
                         else old(State()).(gpioo := DeInitPins(old(gpioo), mask))
      ensures trace == old(trace) + [PinsDeInit(port, mask)]
    {
      if port == GPIOP {
        gpiop := DeInitPins(gpiop, mask);
      } else {
        gpioo := DeInitPins(gpioo, mask);
      }
      trace := trace + [PinsDeInit(port, mask)];
    }

    /** __disable_irq(). */
    method DisableInterrupts()
      requires !resetRequested
      modifies this
      ensures State() == old(State()).(irqMasked := true)
      ensures trace == old(trace) + [InterruptsDisabled]
    {
      irqMasked := true;
      trace := trace + [InterruptsDisabled];
    }

    /** NVIC_SystemReset(): the reset request is terminal: no operation of this
        model can run once it is set. */
    method SystemReset()
      requires !resetRequested
      modifies this
      ensures State() == old(State()).(resetRequested := true)
      ensures trace == old(trace) + [SystemResetRequested]
    {
      resetRequested := true;
      trace := trace + [SystemResetRequested];
    }

    // ---- The sequence, phase by phase --------------------------------------------

    /** Phases 1 and 2: clocks on, EN set, memory-mapped mode aborted, indirect write
        selected, controller idle. The reset line must be released: while it is held
        the controller ignores every write, TCF never rises and the wait for it in
        phase 3 never ends. */
    method BringUp(abortSetsTcf: bool)
      requires !resetRequested && !rcc.xspi1ResetHeld
      modifies this
      ensures State() == old(State()).(
        rcc := old(rcc).(xspi1Clock := true, gpiopClock := true, gpiooClock := true),
        regs := BringUpRegisters(old(regs), abortSetsTcf))
      ensures CommandReady()
      ensures trace == old(trace) + BringUpEvents()
    {
      EnableClock(Xspi1Clock);
      EnableClock(GpiopClock);
      EnableClock(GpiooClock);
      SetEnable();
      AbortMemoryMapped(abortSetsTcf);
    }

    /** Phase 2: abort memory-mapped mode and wait for the abort to finish, then
        select indirect write and wait for the controller to go idle. */
    method AbortMemoryMapped(abortSetsTcf: bool)
      requires !resetRequested && RegistersWritable()
      modifies this
      ensures State() == old(State()).(
        regs := old(regs).(abort := false, fmode := FmodeIndirectWrite, busy := false,
                           tcf := old(regs).tcf || abortSetsTcf))
      ensures trace == old(trace) + [AbortRequested, IndirectModeSelected]
    {
      RequestAbort();
      ghost var aborting := State();
      while regs.abort
        invariant State() == aborting.(regs := aborting.regs.(abort := regs.abort, tcf := regs.tcf))
        invariant regs.tcf == if regs.abort then aborting.regs.tcf else aborting.regs.tcf || abortSetsTcf
        invariant trace == old(trace) + [AbortRequested]
        decreases regs.abort
      {
        AbortCompletes(abortSetsTcf);
      }
      SelectIndirectMode();
      ghost var draining := State();
      while regs.busy
        invariant State() == draining.(regs := draining.regs.(busy := regs.busy))
        invariant trace == old(trace) + [AbortRequested, IndirectModeSelected]
        decreases regs.busy
      {
        BusyDrops();
      }
    }

    /** Phase 3 as written: the Global Reset command, IR written last, then the wait
        for TCF and its clearing. A TCF already set when IR is written ends the wait
        at once, and CTCF is then written while the command is still in flight. */
    method SendGlobalReset()
      requires !resetRequested && CommandReady()
      modifies this
      ensures State() == old(State()).(regs := GlobalResetRegisters(old(regs)))
      ensures regs.busy <==> old(regs).tcf
      ensures trace == old(trace) + CommandEvents()
    {
      WriteCcr(PsramGresetCcr);
      WriteTcr(0);
      WriteDlr(0);
      WriteIr(GlobalResetInstruction);
      ghost var sending := State();
      while !regs.tcf
        invariant State() == sending || State() == sending.(regs := sending.regs.(busy := false, tcf := true))
        invariant sending.regs.tcf ==> State() == sending
        invariant trace == old(trace) + CommandEvents()[..4]
        decreases !regs.tcf
      {
        TransferCompletes();
      }
      ClearTransferComplete();
    }

    /** Phase 3 with a stale TCF cleared before the command starts: the wait then
        ends only when the Global Reset itself has completed. */
    method SendGlobalResetClearingFirst()
      requires !resetRequested && CommandReady()
      modifies this
      ensures State() == old(State()).(regs := GlobalResetRegistersClearingFirst(old(regs)))
      ensures !regs.busy && !regs.tcf
      ensures trace == old(trace) + [TransferCompleteCleared] + CommandEvents()
    {
      ClearTransferComplete();
      WriteCcr(PsramGresetCcr);
      WriteTcr(0);
      WriteDlr(0);
      WriteIr(GlobalResetInstruction);
      ghost var sending := State();
      while !regs.tcf
        invariant State() == sending || State() == sending.(regs := sending.regs.(busy := false, tcf := true))
        invariant trace == old(trace) + [TransferCompleteCleared] + CommandEvents()[..4]
        decreases !regs.tcf
      {
        TransferCompletes();
      }
      ClearTransferComplete();
    }

    /** The tRST spin: ShutdownDelayIterations iterations that touch no register. */
    method ResetRecoveryDelay()
      requires !resetRequested
      modifies this
      ensures State() == old(State())
      ensures trace == old(trace) + Repeat(DelayIteration, ShutdownDelayIterations)
    {
      for d := 0 to ShutdownDelayIterations
        invariant State() == old(State())
        invariant trace == old(trace) + Repeat(DelayIteration, d)
      {
        RepeatSnoc(DelayIteration, d);
        trace := trace + [DelayIteration];
      }
    }

    /** Phases 4 to 6: EN cleared, force-reset and release, pins de-initialised, XSPI1
        clock off. */
    method Teardown()
      requires !resetRequested && RegistersWritable() && rcc.gpiopClock && rcc.gpiooClock
      modifies this
      ensures State() == ShutdownFinal(old(State()))
      ensures trace == old(trace) + TeardownEvents()
    {
      ClearEnable();
      ForceReset();
      ReleaseReset();
      GpioDeInit(GPIOP, Xspi1GpiopPins);
      GpioDeInit(GPIOO, Xspi1GpiooPins);
      DisableXspi1Clock();
    }

    /** PSRAM_Shutdown, from any state with the XSPI1 reset line released: it
        performs exactly ShutdownEvents() and leaves ShutdownFinal of the state it
        started from, whether or not the abort of phase 2 set TCF. */
    method Shutdown(abortSetsTcf: bool)
      requires !resetRequested && !rcc.xspi1ResetHeld
      modifies this
      ensures State() == ShutdownFinal(old(State()))
      ensures trace == old(trace) + ShutdownEvents()
    {
      ghost var t0, s0 := trace, State();
      BringUp(abortSetsTcf);
      SendGlobalReset();
      ResetRecoveryDelay();
      Teardown();
      assert State() == ShutdownFinal(s0);
      assert trace == t0 + ShutdownEvents();
    }

    /** PSRAM_ShutdownAndReset: interrupts masked before the first step of the
        teardown, the reset requested after the last, and nothing can run after. */
    method ShutdownAndReset(abortSetsTcf: bool)
      requires !resetRequested && !rcc.xspi1ResetHeld
      modifies this
      ensures State() == ShutdownFinal(old(State()).(irqMasked := true)).(resetRequested := true)
      ensures trace == old(trace) + [InterruptsDisabled] + ShutdownEvents() + [SystemResetRequested]
    {
      DisableInterrupts();
      Shutdown(abortSetsTcf);
      SystemReset();
    }

    /** PSRAM_Shutdown with phase 3 corrected to clear TCF before the command: the
        same final state, one more CTCF write, and the tRST spin starts only after
        the Global Reset has completed. */
    method ShutdownClearingFirst(abortSetsTcf: bool)
      requires !resetRequested && !rcc.xspi1ResetHeld
      modifies this
      ensures State() == ShutdownFinal(old(State()))
      ensures trace == old(trace) + ShutdownEventsClearingFirst()
    {
      ghost var t0, s0 := trace, State();
      BringUp(abortSetsTcf);
      SendGlobalResetClearingFirst();
      ResetRecoveryDelay();
      Teardown();
      assert State() == ShutdownFinal(s0);
      assert trace == t0 + ShutdownEventsClearingFirst();
    }
  }

  // ---- Properties of the masks, the final state and the write order ------------

  /** XSPI1_GPIOP_PINS is GPIO_PIN_0 | ... | GPIO_PIN_15 and holds every pin of the
      port. */
  lemma GpiopPins()
    ensures Xspi1GpiopPins == PinMask([0, 1, 2, 3, 4, 5, 6, 7, 8, 9, 10, 11, 12, 13, 14, 15])
    ensures forall p: PinIndex :: HasPin(Xspi1GpiopPins, p)
  {
    var all: seq<PinIndex> := [0, 1, 2, 3, 4, 5, 6, 7, 8, 9, 10, 11, 12, 13, 14, 15];
    assert forall p: PinIndex :: p in all;
    FullMask(PinMask(all));
  }

  /** XSPI1_GPIOO_PINS is GPIO_PIN_0 | GPIO_PIN_2 | GPIO_PIN_3 | GPIO_PIN_4 and holds
      exactly those four pins. */
  lemma GpiooPins()
    ensures Xspi1GpiooPins == PinMask([0, 2, 3, 4])
    ensures forall p: PinIndex :: HasPin(Xspi1GpiooPins, p) <==> p in {0, 2, 3, 4}
  {
    assert HasPin(Xspi1GpiooPins, 0) && !HasPin(Xspi1GpiooPins, 1);
    assert HasPin(Xspi1GpiooPins, 2) && HasPin(Xspi1GpiooPins, 3) && HasPin(Xspi1GpiooPins, 4);
    assert !HasPin(Xspi1GpiooPins, 5) && !HasPin(Xspi1GpiooPins, 6) && !HasPin(Xspi1GpiooPins, 7);
    assert !HasPin(Xspi1GpiooPins, 8) && !HasPin(Xspi1GpiooPins, 9) && !HasPin(Xspi1GpiooPins, 10);
    assert !HasPin(Xspi1GpiooPins, 11) && !HasPin(Xspi1GpiooPins, 12) && !HasPin(Xspi1GpiooPins, 13);
    assert !HasPin(Xspi1GpiooPins, 14) && !HasPin(Xspi1GpiooPins, 15);
  }

  /** After the teardown: XSPI1 disabled with every register at its power-on value,
      out of reset and unclocked; all sixteen GPIOP pins and GPIOO pins 0, 2, 3, 4
      analog; GPIOO pins 1 and 5..15 as they were; both port clocks on; the
      interrupt mask untouched. */
  lemma ShutdownFinalState(s: SystemState)
    ensures var r := ShutdownFinal(s);
      && r.regs == PowerOnRegisters && ModeOf(r.regs) == Disabled
      && !r.rcc.xspi1Clock && !r.rcc.xspi1ResetHeld
      && r.rcc.gpiopClock && r.rcc.gpiooClock
      && (forall p: PinIndex :: r.gpiop[p] == Analog)
      && (forall p: PinIndex :: p in {0, 2, 3, 4} ==> r.gpioo[p] == Analog)
      && (forall p: PinIndex :: p !in {0, 2, 3, 4} ==> r.gpioo[p] == s.gpioo[p])
      && r.irqMasked == s.irqMasked && r.resetRequested == s.resetRequested
  {
    GpiopPins();
    GpiooPins();
    DeInitPinsEffect(s.gpiop, Xspi1GpiopPins);
    DeInitPinsEffect(s.gpioo, Xspi1GpiooPins);
  }

  /** Two start states that agree on what the teardown does not touch (GPIOO pins 1
      and 5..15, the interrupt mask, the reset request) end in the same state,
      whatever their clocks, reset line, registers or other pins were. */
  lemma ShutdownConverges(s1: SystemState, s2: SystemState)
    requires forall p: PinIndex :: p !in {0, 2, 3, 4} ==> s1.gpioo[p] == s2.gpioo[p]
    requires s1.irqMasked == s2.irqMasked && s1.resetRequested == s2.resetRequested
    ensures ShutdownFinal(s1) == ShutdownFinal(s2)
  {
    GpiopPins();
    GpiooPins();
    DeInitPinsAgree(s1.gpiop, s2.gpiop, Xspi1GpiopPins);
    DeInitPinsAgree(s1.gpioo, s2.gpioo, Xspi1GpiooPins);
  }

  /** Running the teardown on its own final state changes nothing: a second
      shutdown (clock off, EN = 0) ends where the first did. */
  lemma ShutdownIdempotent(s: SystemState)
    ensures ShutdownFinal(ShutdownFinal(s)) == ShutdownFinal(s)
  {
    ShutdownFinalState(s);
    ShutdownConverges(ShutdownFinal(s), s);
  }

  /** The event at each position of one shutdown, phase by phase: bring-up at 0..5,
      the command at 6..10, the delay at 11..2010, the teardown at 2011..2016. */
  lemma ShutdownEventAt(i: nat)
    requires i < |ShutdownEvents()|
    ensures ShutdownEvents()[i] ==
      if i < 6 then BringUpEvents()[i]
      else if i < 11 then CommandEvents()[i - 6]
      else if i < 11 + ShutdownDelayIterations then DelayIteration
      else TeardownEvents()[i - 11 - ShutdownDelayIterations]
  {
  }

  /** The six teardown steps are the last six writes, in the order EN cleared,
      force-reset, release-reset, GPIOP de-init, GPIOO de-init, XSPI1 clock off, and
      none of them is written anywhere else. */
  lemma TeardownOrder()
    ensures |ShutdownEvents()| == 17 + ShutdownDelayIterations
    ensures ShutdownEvents()[11 + ShutdownDelayIterations..] == TeardownEvents()
    ensures forall j | 0 <= j < |TeardownEvents()| ::
      OccursOnlyAt(ShutdownEvents(), TeardownEvents()[j], 11 + ShutdownDelayIterations + j)
  {
    forall j | 0 <= j < |TeardownEvents()|
      ensures OccursOnlyAt(ShutdownEvents(), TeardownEvents()[j], 11 + ShutdownDelayIterations + j)
    {
      forall i | 0 <= i < |ShutdownEvents()| && ShutdownEvents()[i] == TeardownEvents()[j]
        ensures i == 11 + ShutdownDelayIterations + j
      {
        ShutdownEventAt(i);
      }
    }
  }

  /** TCF is cleared exactly once, at index 10; the delay iterations are exactly the
      2000 positions that follow it; and the very next write clears EN. */
  lemma DelayBeforeDisable()
    ensures OccursOnlyAt(ShutdownEvents(), TransferCompleteCleared, 10)
    ensures forall i | 0 <= i < |ShutdownEvents()| ::
      ShutdownEvents()[i] == DelayIteration <==> 11 <= i < 11 + ShutdownDelayIterations
    ensures ShutdownEvents()[11 + ShutdownDelayIterations] == EnableCleared
  {
    forall i | 0 <= i < |ShutdownEvents()|
      ensures ShutdownEvents()[i] == TransferCompleteCleared ==> i == 10
      ensures ShutdownEvents()[i] == DelayIteration <==> 11 <= i < 11 + ShutdownDelayIterations
    {
      ShutdownEventAt(i);
    }
  }

  /** The command is triggered exactly once, by the IR write of 0xFF that directly
      follows the writes CCR = PSRAM_GRESET_CCR, TCR = 0, DLR = 0, and it runs with
      that configuration. */
  lemma CommandWrittenLast()
    ensures ShutdownEvents()[6..10] ==
      [CcrWritten(PsramGresetCcr), TcrWritten(0), DlrWritten(0),
       CommandTriggered(GlobalResetInstruction, PsramGresetCcr, 0, 0)]
    ensures forall i | 0 <= i < |ShutdownEvents()| && ShutdownEvents()[i].CommandTriggered? :: i == 9
  {
    forall i | 0 <= i < |ShutdownEvents()| && ShutdownEvents()[i].CommandTriggered?
      ensures i == 9
    {
      ShutdownEventAt(i);
    }
  }

  /** The 2000-iteration spin lasts at least tRST at every clock up to 400 MHz. */
  lemma ShutdownDelayCoversRecovery(cyclesPerIteration: nat, clockHz: nat)
    requires cyclesPerIteration >= 1 && clockHz <= ResetTiming.MaxCpuClockHz
    ensures ShutdownDelayIterations * cyclesPerIteration * ResetTiming.NsPerSecond
            >= ResetTiming.ResetRecoveryNs * clockHz
  {
    ResetTiming.RecoveryAtMaxClock();
    ResetTiming.SpinCoversRecovery(ShutdownDelayIterations, cyclesPerIteration, clockHz);
  }

  // ---- The wait for TCF (phase 3) -------------------------------------------------

  /** As written, the wait for TCF proves the Global Reset complete only when TCF
      was clear on entering phase 3, which holds exactly when it was clear before
      and the abort of phase 2 did not set it. */
  lemma GlobalResetWaitCompletes(r: Registers, abortSetsTcf: bool)
    ensures !GlobalResetRegisters(BringUpRegisters(r, abortSetsTcf)).busy <==> !r.tcf && !abortSetsTcf
  {
  }

  /** The input that shows it: XSPI1 in memory-mapped mode with an access in
      progress, which the abort cancels and so sets TCF. Phase 3 then writes CTCF and
      starts the tRST spin with the Global Reset still in flight. */
  lemma AbortedAccessLeavesCommandInFlight()
    ensures var r0 := Registers(true, false, FmodeMemoryMapped, true, false, 0, 0, 0, 0);
      && ModeOf(r0) == MemoryMapped
      && GlobalResetRegisters(BringUpRegisters(r0, true)).busy
  {
  }

  /** Corrected: with TCF cleared before the command, the wait ends only after the
      Global Reset completed, from every state and whatever the abort did. */
  lemma ClearingFirstCompletes(r: Registers, abortSetsTcf: bool)
    ensures !GlobalResetRegistersClearingFirst(BringUpRegisters(r, abortSetsTcf)).busy
    ensures GlobalResetRegistersClearingFirst(BringUpRegisters(r, abortSetsTcf))
      == GlobalResetRegisters(BringUpRegisters(r, abortSetsTcf)).(busy := false)
  {
  }
}
