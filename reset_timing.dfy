/** Timing contract of the PSRAM Global Reset command (section 5.1 of the AP Memory
    PSRAM datasheet): after the command the chip needs tRST >= 2 us before it may be
    used again. Boot code has no timer, so it spins a counted loop; only the
    iteration count is modelled, and every iteration is assumed to take at least
    one CPU cycle. */
module ResetTiming {

  /** tRST, the minimum reset-recovery interval, in nanoseconds. */
  const ResetRecoveryNs: nat := 2000

  /** The fastest CPU clock the boot stage runs at, in Hz (400 MHz). */
  const MaxCpuClockHz: nat := 400_000_000

  const NsPerSecond: nat := 1_000_000_000

  /** Cycles that last at least ns nanoseconds at clockHz (rounded up). */
  function CyclesFor(ns: nat, clockHz: nat): (c: nat)
    ensures c * NsPerSecond >= ns * clockHz
    ensures (c - 1) * NsPerSecond < ns * clockHz
  {
    (ns * clockHz + NsPerSecond - 1) / NsPerSecond
  }

  /** At 400 MHz, 2 us is 800 cycles. */
  lemma RecoveryAtMaxClock()
    ensures CyclesFor(ResetRecoveryNs, MaxCpuClockHz) == 800
  {
  }

  /** A spin of `iterations` iterations, each of at least one cycle, lasts at least
      tRST at every clock up to the maximum, once it burns the cycles tRST needs at
      the maximum clock. */
  lemma {:induction false} SpinCoversRecovery(iterations: nat, cyclesPerIteration: nat, clockHz: nat)
    requires iterations >= CyclesFor(ResetRecoveryNs, MaxCpuClockHz)
    requires cyclesPerIteration >= 1
    requires clockHz <= MaxCpuClockHz
    ensures iterations * cyclesPerIteration * NsPerSecond >= ResetRecoveryNs * clockHz
  {
    RecoveryAtMaxClock();
    assert iterations * cyclesPerIteration >= iterations * 1 by {
      MulMonotone(iterations, 1, cyclesPerIteration);
    }
    calc {
      iterations * cyclesPerIteration * NsPerSecond;
    >= { MulMonotone(NsPerSecond, iterations, iterations * cyclesPerIteration); }
      800 * NsPerSecond;
    ==
      ResetRecoveryNs * MaxCpuClockHz;
    >= { MulMonotone(ResetRecoveryNs, clockHz, MaxCpuClockHz); }
      ResetRecoveryNs * clockHz;
    }
  }

  lemma MulMonotone(k: nat, a: nat, b: nat)
    requires a <= b
    ensures k * a <= k * b && a * k <= b * k
  {
  }
}
