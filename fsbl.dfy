/** The first-stage boot loader (FSBL/Core/Src/main.c): the MPU set-up, the PSRAM
    Global Reset it sends over XSPI1, the hook that hands the application's vector
    table to the boot library, the fixed initialisation order of main and the error
    halt. The HAL and library calls whose code is not part of this model appear as
    events in a ghost trace; what they return is a parameter. */
module Fsbl {
  import opened Traces
  import opened Mpu
  import opened XspiCcr
  import ResetTiming

  /** Iterations of the tRST spin after the Global Reset command. */
  const GlobalResetDelayIterations: nat := 1000

  /** HAL_StatusTypeDef. */
  datatype HalStatus = HalOk | HalError | HalBusy | HalTimeout

  /** The two XSPI handles of the boot loader. */
  datatype XspiHandle = Hxspi1 | Hxspi2

  /** EXTMEM_MemoryMappedMode's memory identifier. */
  datatype ExtMemory = ExtMemory1 | ExtMemory2

  /** The line count of one phase of an XSPI command (HAL_XSPI_*_NONE, _1_LINE ...
      _8_LINES). */
  datatype PhaseLines = NoLines | OneLine | TwoLines | FourLines | EightLines

  datatype InstructionWidth = Instruction8Bits | Instruction16Bits | Instruction24Bits | Instruction32Bits

  datatype OperationType = CommonConfig | ReadConfig | WriteConfig | WrapConfig

  /** XSPI_RegularCmdTypeDef, the fields PSRAM_GlobalReset sets. */
  datatype RegularCommand = RegularCommand(
    operationType: OperationType,
    instruction: bv32,
    instructionMode: PhaseLines,
    instructionWidth: InstructionWidth,
    instructionDtr: bool,
    addressMode: PhaseLines,
    alternateBytesMode: PhaseLines,
    dataMode: PhaseLines,
    dummyCycles: nat,
    dqsMode: bool)

  /** `XSPI_RegularCmdTypeDef sCommand = {0}`. */
  const ZeroCommand: RegularCommand :=
    RegularCommand(CommonConfig, 0, NoLines, Instruction8Bits, false, NoLines, NoLines, NoLines, 0, false)

  /** What the descriptor asks for: the instruction 0xFF alone, on eight lines, 8 bits
      wide, single data rate, no address, alternate-byte or data phase, no dummy
      cycles, no DQS. */
  function GlobalResetCommand(): RegularCommand
  {
    RegularCommand(CommonConfig, 0xFF, EightLines, Instruction8Bits, false, NoLines, NoLines, NoLines, 0, false)
  }

  /** The CCR line-count code of a phase. */
  function LinesCode(l: PhaseLines): bv3
  {
    match l
    case NoLines => LinesNone
    case OneLine => Lines1
    case TwoLines => Lines2
    case FourLines => Lines4
    case EightLines => Lines8
  }

  function WidthCode(w: InstructionWidth): bv2
  {
    match w
    case Instruction8Bits => 0
    case Instruction16Bits => 1
    case Instruction24Bits => 2
    case Instruction32Bits => 3
  }

  /** The CCR fields a descriptor selects. */
  function CcrOf(c: RegularCommand): CcrFields
  {
    CcrFields(LinesCode(c.instructionMode), if c.instructionDtr then 1 else 0, WidthCode(c.instructionWidth),
              LinesCode(c.addressMode), LinesCode(c.alternateBytesMode), LinesCode(c.dataMode))
  }

  /** The main.c descriptor and the register value psram_shutdown.c writes directly
      select the same command: CcrOf of the descriptor encodes to PSRAM_GRESET_CCR,
      and both send the instruction 0xFF. */
  lemma GlobalResetDescriptorMatchesCcr()
    ensures EncodeCcr(CcrOf(GlobalResetCommand())) == PsramGresetCcr
    ensures GlobalResetCommand().instruction == 0xFF
  {
    GresetCcrEncoding();
  }

  /** The 1000-iteration spin lasts at least tRST at every clock up to 400 MHz. */
  lemma GlobalResetDelayCoversRecovery(cyclesPerIteration: nat, clockHz: nat)
    requires cyclesPerIteration >= 1 && clockHz <= ResetTiming.MaxCpuClockHz
    ensures GlobalResetDelayIterations * cyclesPerIteration * ResetTiming.NsPerSecond
            >= ResetTiming.ResetRecoveryNs * clockHz
  {
    ResetTiming.RecoveryAtMaxClock();
    ResetTiming.SpinCoversRecovery(GlobalResetDelayIterations, cyclesPerIteration, clockHz);
  }

  /** EXTMEM_LRUN_DESTINATION_ADDRESS + EXTMEM_HEADER_OFFSET in uint32_t arithmetic:
      the plain sum when it fits in 32 bits, the sum less 2^32 when it does not. */
  function VectorTableAddress(destination: Word, headerOffset: Word): (r: Word)
    ensures destination + headerOffset < 0x1_0000_0000 ==> r == destination + headerOffset
    ensures destination + headerOffset >= 0x1_0000_0000 ==> r == destination + headerOffset - 0x1_0000_0000
  {
    (destination + headerOffset) % 0x1_0000_0000
  }

  /** The HAL and CMSIS operations the boot loader performs, in order. */
  datatype Event =
    | IrqDisabled                                   // __disable_irq()
    | PrimaskSet(masked: bool)                      // __set_PRIMASK()
    | MpuDisabled                                   // HAL_MPU_Disable()
    | RegionConfigured(region: RegionInit)          // HAL_MPU_ConfigRegion()
    | AttributesConfigured(entry: AttributesInit)   // HAL_MPU_ConfigMemoryAttributes()
    | MpuEnabled(control: MpuControl)               // HAL_MPU_Enable()
    | CommandSent(handle: XspiHandle, command: RegularCommand)  // HAL_XSPI_Command()
    | DelayIteration
    | MemoryMappedDisabled(memory: ExtMemory)       // EXTMEM_MemoryMappedMode(.., EXTMEM_DISABLE)

  /** The calls of main, in program order. */
  datatype InitStep =
    | MpuConfigStep | EnableICache | EnableDCache | HalInit | SystemClockConfig
    | GpioInit | Hpdma1Init | Gpdma1Init | Xspi2Init | Xspi1Init
    | PsramGlobalResetStep | ExtMemManagerInit | BootApplication

  function InitOrder(): seq<InitStep>
  {
    [MpuConfigStep, EnableICache, EnableDCache, HalInit, SystemClockConfig,
     GpioInit, Hpdma1Init, Gpdma1Init, Xspi2Init, Xspi1Init,
     PsramGlobalResetStep, ExtMemManagerInit, BootApplication]
  }

  /** What the calls whose code is not modelled report. Only those that end in
      Error_Handler on failure have an outcome; the HAL status of the Global Reset
      command is passed on and ignored. */
  datatype Outcomes = Outcomes(
    clockConfigOk: bool, xspi2InitOk: bool, xspi1InitOk: bool,
    globalResetStatus: HalStatus, bootOk: bool)

  predicate StepSucceeds(env: Outcomes, s: InitStep)
  {
    match s
    case SystemClockConfig => env.clockConfigOk
    case Xspi2Init => env.xspi2InitOk
    case Xspi1Init => env.xspi1InitOk
    case BootApplication => env.bootOk
    case _ => true
  }

  /** The index of the first step of InitOrder, from `from` on, that fails; |InitOrder()|
      when none does. */
  function FirstFailure(env: Outcomes, from: nat): (k: nat)
    requires from <= |InitOrder()|
    ensures from <= k <= |InitOrder()|
    ensures forall i | from <= i < k :: StepSucceeds(env, InitOrder()[i])
    ensures k < |InitOrder()| ==> !StepSucceeds(env, InitOrder()[k])
    decreases |InitOrder()| - from
  {
    if from == |InitOrder()| then from
    else if !StepSucceeds(env, InitOrder()[from]) then from
    else FirstFailure(env, from + 1)
  }

  /** The calls main makes: every step up to and including the first that fails, or
      all of them. Every call but the last succeeds, and the last one fails unless
      all 13 ran. */
  function StepsRun(env: Outcomes): (n: nat)
    ensures 1 <= n <= |InitOrder()|
    ensures forall i | 0 <= i < n - 1 :: StepSucceeds(env, InitOrder()[i])
    ensures n == |InitOrder()| || !StepSucceeds(env, InitOrder()[n - 1])
  {
    var k := FirstFailure(env, 0);
    if k < |InitOrder()| then k + 1 else k
  }

  /** Whether every call of main reports success. */
  predicate AllSucceed(env: Outcomes)
  {
    env.clockConfigOk && env.xspi2InitOk && env.xspi1InitOk && env.bootOk
  }

  /** How many calls main makes: it stops after SystemClock_Config (step 5),
      MX_XSPI2_Init (step 9) or MX_XSPI1_Init (step 10) when that one fails, and
      makes all 13 otherwise. */
  function CallsMade(env: Outcomes): nat
  {
    if !env.clockConfigOk then 5 else if !env.xspi2InitOk then 9 else if !env.xspi1InitOk then 10 else 13
  }

  /** main's calls are exactly the steps of InitOrder up to and including the first
      that fails, and it ends halted exactly when some step fails. */
  lemma MainOutcome(env: Outcomes)
    ensures CallsMade(env) == StepsRun(env)
    ensures FirstFailure(env, 0) < |InitOrder()| <==> !AllSucceed(env)
  {
    var k := FirstFailure(env, 0);
    assert StepSucceeds(env, InitOrder()[4]) == env.clockConfigOk;
    assert StepSucceeds(env, InitOrder()[8]) == env.xspi2InitOk;
    assert StepSucceeds(env, InitOrder()[9]) == env.xspi1InitOk;
    assert StepSucceeds(env, InitOrder()[12]) == env.bootOk;
  }

  /** Running: a call is in progress. Halted: Error_Handler's loop. Parked: the idle
      loop at the end of main, after BOOT_Application returned BOOT_OK. */
  datatype RunState = Running | Halted | Parked

  function MpuConfigEvents(board: Board, saved: bool): seq<Event>
  {
    [IrqDisabled, MpuDisabled,
     RegionConfigured(RegionTable(board)[0]),
     RegionConfigured(RegionTable(board)[1]),
     RegionConfigured(RegionTable(board)[2]),
     AttributesConfigured(AttributesInit(0, AttributeTable()[0])),
     AttributesConfigured(AttributesInit(1, AttributeTable()[1])),
     AttributesConfigured(AttributesInit(2, AttributeTable()[2])),
     MpuEnabled(PrivilegedDefault),
     PrimaskSet(saved)]
  }

  function GlobalResetEvents(): seq<Event>
  {
    [CommandSent(Hxspi1, GlobalResetCommand())] + Repeat(DelayIteration, GlobalResetDelayIterations)
  }

  /** The operations of one run of main: the MPU set-up, then, once the clock tree
      and both XSPI controllers came up, the Global Reset and, if BOOT_Application
      fails, Error_Handler's interrupt mask; a failure earlier ends in that mask
      directly. */
  function MainEvents(board: Board, env: Outcomes, saved: bool): seq<Event>
  {
    MpuConfigEvents(board, saved)
    + if env.clockConfigOk && env.xspi2InitOk && env.xspi1InitOk
      then GlobalResetEvents() + (if env.bootOk then [] else [IrqDisabled])
      else [IrqDisabled]
  }

  /** In MPU_Config, interrupts are masked and the MPU is off before the first region
      or attribute write; the six writes are the only ones and each region and each
      attribute entry is written once; the MPU is enabled, with the privileged default
      map, only after all six; and the saved PRIMASK is restored at the very end. */
  lemma MpuConfigOrder(board: Board, saved: bool)
    ensures var t := MpuConfigEvents(board, saved);
      && |t| == 10 && t[0] == IrqDisabled && t[1] == MpuDisabled
      && (forall i | 0 <= i < |t| && (t[i].RegionConfigured? || t[i].AttributesConfigured?) :: 2 <= i < 8)
      && (forall n | 0 <= n < 3 :: OccursOnlyAt(t, RegionConfigured(RegionTable(board)[n]), 2 + n))
      && (forall n | 0 <= n < 3 :: OccursOnlyAt(t, AttributesConfigured(AttributesInit(n, AttributeTable()[n])), 5 + n))
      && OccursOnlyAt(t, MpuEnabled(PrivilegedDefault), 8)
      && t[9] == PrimaskSet(saved)
  {
    var t := MpuConfigEvents(board, saved);
    forall n | 0 <= n < 3
      ensures OccursOnlyAt(t, RegionConfigured(RegionTable(board)[n]), 2 + n)
      ensures OccursOnlyAt(t, AttributesConfigured(AttributesInit(n, AttributeTable()[n])), 5 + n)
    {
      RegionTableWellFormed(board);
    }
  }

  /** PSRAM_GlobalReset sends the descriptor once, first, and then exactly 1000 delay
      iterations follow. */
  lemma GlobalResetOrder()
    ensures var t := GlobalResetEvents();
      && |t| == 1 + GlobalResetDelayIterations
      && OccursOnlyAt(t, CommandSent(Hxspi1, GlobalResetCommand()), 0)
      && (forall i | 0 <= i < |t| :: t[i] == DelayIteration <==> 1 <= i)
  {
  }

  /** Everything the boot loader state holds apart from the logs. */
  datatype CpuState = CpuState(
    primask: bool, mpuEnabled: bool, mpuControl: MpuControl,
    regions: map<nat, RegionInit>, attributes: map<nat, bv8>,
    extMemory2Mapped: bool, run: RunState)

  /** s after Error_Handler when `failed`, s itself otherwise. */
  function HaltedIf(s: CpuState, failed: bool): CpuState
  {
    if failed then s.(primask := true, run := Halted) else s
  }

  class Processor {
    /** EXTMEM_LRUN_DESTINATION_ADDRESS and EXTMEM_HEADER_OFFSET. */
    const destination: Word
    const headerOffset: Word

    var primask: bool
    var mpuEnabled: bool
    var mpuControl: MpuControl
    var regions: map<nat, RegionInit>
    var attributes: map<nat, bv8>
    var extMemory2Mapped: bool
    var run: RunState

    ghost var trace: seq<Event>
    ghost var steps: seq<InitStep>

    function State(): CpuState
      reads this
    {
      CpuState(primask, mpuEnabled, mpuControl, regions, attributes, extMemory2Mapped, run)
    }

    constructor (destination: Word, headerOffset: Word, s: CpuState)
      requires s.run == Running
      ensures this.destination == destination && this.headerOffset == headerOffset
      ensures State() == s && trace == [] && steps == []
    {
      this.destination, this.headerOffset := destination, headerOffset;
      primask, mpuEnabled, mpuControl := s.primask, s.mpuEnabled, s.mpuControl;
      regions, attributes := s.regions, s.attributes;
      extMemory2Mapped, run := s.extMemory2Mapped, s.run;
      trace, steps := [], [];
    }

    // ---- CMSIS and HAL primitives -----------------------------------------------

    method DisableIrq()
      requires run == Running
      modifies this
      ensures State() == old(State()).(primask := true)
      ensures trace == old(trace) + [IrqDisabled] && steps == old(steps)
    {
      primask := true;
      trace := trace + [IrqDisabled];
    }

    method SetPrimask(masked: bool)
      requires run == Running
      modifies this
      ensures State() == old(State()).(primask := masked)
      ensures trace == old(trace) + [PrimaskSet(masked)] && steps == old(steps)
    {
      primask := masked;
      trace := trace + [PrimaskSet(masked)];
    }

    method MpuDisable()
      requires run == Running
      modifies this
      ensures State() == old(State()).(mpuEnabled := false)
      ensures trace == old(trace) + [MpuDisabled] && steps == old(steps)
    {
      mpuEnabled := false;
      trace := trace + [MpuDisabled];
    }

    /** HAL_MPU_ConfigRegion: programs entry r.number with r. */
    method MpuConfigRegion(r: RegionInit)
      requires run == Running
      modifies this
      ensures State() == old(State()).(regions := old(regions)[r.number := r])
      ensures trace == old(trace) + [RegionConfigured(r)] && steps == old(steps)
    {
      regions := regions[r.number := r];
      trace := trace + [RegionConfigured(r)];
    }

    method MpuConfigMemoryAttributes(a: AttributesInit)
      requires run == Running
      modifies this
      ensures State() == old(State()).(attributes := old(attributes)[a.number := a.attributes])
      ensures trace == old(trace) + [AttributesConfigured(a)] && steps == old(steps)
    {
      attributes := attributes[a.number := a.attributes];
      trace := trace + [AttributesConfigured(a)];
    }

    method MpuEnable(control: MpuControl)
      requires run == Running
      modifies this
      ensures State() == old(State()).(mpuEnabled := true, mpuControl := control)
      ensures trace == old(trace) + [MpuEnabled(control)] && steps == old(steps)
    {
      mpuEnabled, mpuControl := true, control;
      trace := trace + [MpuEnabled(control)];
    }

    /** HAL_XSPI_Command: sends the command; its status is whatever the driver
        reports. */
    method XspiCommand(handle: XspiHandle, command: RegularCommand, status: HalStatus) returns (r: HalStatus)
      requires run == Running
      modifies this
      ensures r == status
      ensures State() == old(State())
      ensures trace == old(trace) + [CommandSent(handle, command)] && steps == old(steps)
    {
      trace := trace + [CommandSent(handle, command)];
      r := status;
    }

    /** EXTMEM_MemoryMappedMode(memory, EXTMEM_DISABLE). */
    method DisableMemoryMapped(memory: ExtMemory)
      requires run == Running
      modifies this
      ensures State() == old(State()).(extMemory2Mapped := if memory == ExtMemory2 then false else old(extMemory2Mapped))
      ensures trace == old(trace) + [MemoryMappedDisabled(memory)] && steps == old(steps)
    {
      if memory == ExtMemory2 {
        extMemory2Mapped := false;
      }
      trace := trace + [MemoryMappedDisabled(memory)];
    }

    // ---- The boot loader's own functions ------------------------------------------

    /** MPU_Config: with interrupts masked and the MPU off, programs the three regions
        and three attribute entries, turns the MPU on with the privileged default map
        and restores PRIMASK. */
    method MpuConfig(board: Board)
      requires run == Running
      modifies this
      ensures State() == old(State()).(
        mpuEnabled := true, mpuControl := PrivilegedDefault,
        regions := old(regions)[0 := RegionTable(board)[0]][1 := RegionTable(board)[1]][2 := RegionTable(board)[2]],
        attributes := old(attributes)[0 := AttributeTable()[0]][1 := AttributeTable()[1]][2 := AttributeTable()[2]])
      ensures trace == old(trace) + MpuConfigEvents(board, old(primask)) && steps == old(steps)
    {
      var primaskBit := primask;
      DisableIrq();
      MpuDisable();
      ConfigureRegions(board);
      ConfigureAttributes();
      MpuEnable(PrivilegedDefault);
      SetPrimask(primaskBit);
    }

    /** The three HAL_MPU_ConfigRegion calls of MPU_Config. One record is reused, so
        region 1 starts from region 0's fields and only five of them are reassigned. */
    method ConfigureRegions(board: Board)
      requires run == Running
      modifies this
      ensures State() == old(State()).(
        regions := old(regions)[0 := RegionTable(board)[0]][1 := RegionTable(board)[1]][2 := RegionTable(board)[2]])
      ensures trace == old(trace) + [RegionConfigured(RegionTable(board)[0]),
        RegionConfigured(RegionTable(board)[1]), RegionConfigured(RegionTable(board)[2])]
      ensures steps == old(steps)
    {
      var init := ZeroRegionInit;
      init := init.(enable := true, number := 0, baseAddress := 0x7000_0000,
                    limitAddress := if board == DiscoveryKit then 0x77FF_FFFF else 0x71FF_FFFF,
                    attributesIndex := 0, accessPermission := AllRw,
                    disableExec := false, disablePrivExec := false, shareable := NotShareable);
      MpuConfigRegion(init);

      init := init.(number := 1, baseAddress := 0x9000_0000,
                    limitAddress := if board == DiscoveryKit then 0x91FF_FFFF else 0x93FF_FFFF,
                    attributesIndex := 1, accessPermission := PrivRw);
      MpuConfigRegion(init);

      init := init.(number := 2, baseAddress := 0x342E_0000, limitAddress := 0x3434_FFFF,
                    attributesIndex := 2, accessPermission := AllRw,
                    disableExec := true, disablePrivExec := true, shareable := OuterShareable);
      MpuConfigRegion(init);
    }

    /** The three HAL_MPU_ConfigMemoryAttributes calls of MPU_Config. */
    method ConfigureAttributes()
      requires run == Running
      modifies this
      ensures State() == old(State()).(
        attributes := old(attributes)[0 := AttributeTable()[0]][1 := AttributeTable()[1]][2 := AttributeTable()[2]])
      ensures trace == old(trace) + [AttributesConfigured(AttributesInit(0, AttributeTable()[0])),
        AttributesConfigured(AttributesInit(1, AttributeTable()[1])),
        AttributesConfigured(AttributesInit(2, AttributeTable()[2]))]
      ensures steps == old(steps)
    {
      var attributesInit := ZeroAttributesInit;
      attributesInit := attributesInit.(number := 0, attributes := InnerOuter(MpuWriteBack | MpuTransient | MpuRwAllocate));
      MpuConfigMemoryAttributes(attributesInit);

      attributesInit := attributesInit.(number := 1, attributes := InnerOuter(MpuWriteThrough | MpuTransient | MpuRwAllocate));
      MpuConfigMemoryAttributes(attributesInit);

      attributesInit := attributesInit.(number := 2, attributes := MpuDeviceNGnRnE);
      MpuConfigMemoryAttributes(attributesInit);
    }

    /** PSRAM_GlobalReset: sends the Global Reset descriptor on hxspi1, ignores the
        HAL status, and spins GlobalResetDelayIterations iterations whatever it was. */
    method PsramGlobalReset(status: HalStatus)
      requires run == Running
      modifies this
      ensures State() == old(State())
      ensures trace == old(trace) + GlobalResetEvents() && steps == old(steps)
    {
      var command := ZeroCommand;
      command := command.(operationType := CommonConfig, instruction := 0xFF,
                          instructionMode := EightLines, instructionWidth := Instruction8Bits,
                          instructionDtr := false, addressMode := NoLines,
                          alternateBytesMode := NoLines, dataMode := NoLines,
                          dummyCycles := 0, dqsMode := false);
      var _ := XspiCommand(Hxspi1, command, status);

      for d := 0 to GlobalResetDelayIterations
        invariant State() == old(State()) && steps == old(steps)
        invariant trace == old(trace) + [CommandSent(Hxspi1, GlobalResetCommand())] + Repeat(DelayIteration, d)
      {
        RepeatSnoc(DelayIteration, d);
        trace := trace + [DelayIteration];
      }
    }

    /** BOOT_GetApplicationVectorTable: memory-mapped mode of EXTMEMORY_2 off, then the
        Global Reset, then the application's vector-table address. */
    method BootGetApplicationVectorTable(status: HalStatus) returns (address: Word)
      requires run == Running
      modifies this
      ensures address == VectorTableAddress(destination, headerOffset)
      ensures State() == old(State()).(extMemory2Mapped := false)
      ensures trace == old(trace) + [MemoryMappedDisabled(ExtMemory2)] + GlobalResetEvents()
      ensures steps == old(steps)
    {
      DisableMemoryMapped(ExtMemory2);
      PsramGlobalReset(status);
      address := (destination + headerOffset) % 0x1_0000_0000;
    }

    /** Error_Handler: interrupts masked, then the processor spins forever; nothing
        runs after it. */
    method ErrorHandler()
      requires run == Running
      modifies this
      ensures State() == old(State()).(primask := true, run := Halted)
      ensures trace == old(trace) + [IrqDisabled] && steps == old(steps)
    {
      DisableIrq();
      run := Halted;
    }

    /** A call of main whose code is not modelled: it is logged and, when it fails,
        ends in Error_Handler. */
    method OpaqueStep(s: InitStep, ok: bool)
      requires run == Running
      modifies this
      ensures steps == old(steps) + [s]
      ensures ok ==> State() == old(State()) && trace == old(trace)
      ensures !ok ==> State() == old(State()).(primask := true, run := Halted) && trace == old(trace) + [IrqDisabled]
    {
      steps := steps + [s];
      if !ok {
        ErrorHandler();
      }
    }

    /** main: the calls in InitOrder, each one only after the previous succeeded. A
        failing call ends in Error_Handler; once BOOT_Application returns BOOT_OK
        main parks in its idle loop. The MPU table is in place either way. */
    method BootMain(board: Board, env: Outcomes)
      requires run == Running
      modifies this
      ensures steps == old(steps) + InitOrder()[..CallsMade(env)]
      ensures run == if AllSucceed(env) then Parked else Halted
      ensures trace == old(trace) + MainEvents(board, env, old(primask))
      ensures primask == (run == Halted || old(primask))
      ensures mpuEnabled && mpuControl == PrivilegedDefault
      ensures regions == old(regions)[0 := RegionTable(board)[0]][1 := RegionTable(board)[1]][2 := RegionTable(board)[2]]
      ensures attributes == old(attributes)[0 := AttributeTable()[0]][1 := AttributeTable()[1]][2 := AttributeTable()[2]]
      ensures extMemory2Mapped == old(extMemory2Mapped)
    {
      ConfigureCore(board, env);
      if run == Halted {
        return;
      }
      InitPeripherals(env);
      if run == Halted {
        return;
      }
      Launch(env);
    }

    /** The first five calls of main: MPU_Config, the two caches, HAL_Init and
        SystemClock_Config, which may fail. */
    method ConfigureCore(board: Board, env: Outcomes)
      requires run == Running
      modifies this
      ensures steps == old(steps) + InitOrder()[..5]
      ensures State() == HaltedIf(old(State()).(
        mpuEnabled := true, mpuControl := PrivilegedDefault,
        regions := old(regions)[0 := RegionTable(board)[0]][1 := RegionTable(board)[1]][2 := RegionTable(board)[2]],
        attributes := old(attributes)[0 := AttributeTable()[0]][1 := AttributeTable()[1]][2 := AttributeTable()[2]]),
        !env.clockConfigOk)
      ensures trace == old(trace) + MpuConfigEvents(board, old(primask)) + (if env.clockConfigOk then [] else [IrqDisabled])
    {
      steps := steps + [MpuConfigStep];
      MpuConfig(board);
      OpaqueStep(EnableICache, true);
      OpaqueStep(EnableDCache, true);
      OpaqueStep(HalInit, true);
      OpaqueStep(SystemClockConfig, env.clockConfigOk);
    }

    /** The peripheral initialisers MX_GPIO_Init to MX_XSPI1_Init; the two XSPI ones
        may fail, and a failure of MX_XSPI2_Init stops before MX_XSPI1_Init. */
    method InitPeripherals(env: Outcomes)
      requires run == Running
      modifies this
      ensures steps == old(steps) + InitOrder()[5..if env.xspi2InitOk then 10 else 9]
      ensures State() == HaltedIf(old(State()), !(env.xspi2InitOk && env.xspi1InitOk))
      ensures trace == old(trace) + (if env.xspi2InitOk && env.xspi1InitOk then [] else [IrqDisabled])
    {
      OpaqueStep(GpioInit, true);
      OpaqueStep(Hpdma1Init, true);
      OpaqueStep(Gpdma1Init, true);
      OpaqueStep(Xspi2Init, env.xspi2InitOk);
      assert InitOrder()[5..9] == [GpioInit, Hpdma1Init, Gpdma1Init, Xspi2Init];
      if run == Halted {
        return;
      }
      OpaqueStep(Xspi1Init, env.xspi1InitOk);
      assert InitOrder()[5..10] == InitOrder()[5..9] + [Xspi1Init];
    }

    /** The end of main: the Global Reset, MX_EXTMEM_MANAGER_Init and BOOT_Application,
        then Error_Handler or the idle loop. */
    method Launch(env: Outcomes)
      requires run == Running
      modifies this
      ensures steps == old(steps) + InitOrder()[10..]
      ensures State() == if env.bootOk then old(State()).(run := Parked) else HaltedIf(old(State()), true)
      ensures trace == old(trace) + GlobalResetEvents() + (if env.bootOk then [] else [IrqDisabled])
    {
      steps := steps + [PsramGlobalResetStep];
      PsramGlobalReset(env.globalResetStatus);
      OpaqueStep(ExtMemManagerInit, true);
      steps := steps + [BootApplication];
      if !env.bootOk {
        ErrorHandler();
      } else {
        run := Parked;
      }
    }
  }
}
