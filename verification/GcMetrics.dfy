/**
 * Counters that pace the collector (src/dmm/metrics.rs). The factors are reals. The counters
 * are integers, so that a decrement of a `usize` below zero is visible as a negative value.
 */
module GcMetrics {

  datatype Pacing = Pacing(
    sleepFactor: real,
    minSleep: nat,
    markFactor: real,
    traceFactor: real,
    keepFactor: real,
    dropFactor: real,
    freeFactor: real)

  const DEFAULT_PACING := Pacing(0.5, 4096, 0.1, 0.4, 0.05, 0.2, 0.3)

  datatype Counters = Counters(
    pacing: Pacing,
    totalGcs: int,
    totalBytes: int,
    wakeup: real,
    artificialDebt: real,
    allocatedBytes: int,
    droppedBytes: int,
    freedBytes: int,
    markedGcs: int,
    markedBytes: int,
    tracedGcs: int,
    tracedBytes: int,
    rememberedGcs: int,
    rememberedBytes: int)

  const FRESH := Counters(DEFAULT_PACING, 0, 0, 0.0, 0.0, 0, 0, 0, 0, 0, 0, 0, 0, 0)

  function OnAllocated(m: Counters, bytes: nat): Counters {
    m.(totalGcs := m.totalGcs + 1, totalBytes := m.totalBytes + bytes, allocatedBytes := m.allocatedBytes + bytes)
  }

  function OnDropped(m: Counters, bytes: nat): Counters {
    m.(droppedBytes := m.droppedBytes + bytes)
  }

  function OnFreed(m: Counters, bytes: nat): Counters {
    m.(totalGcs := m.totalGcs - 1, totalBytes := m.totalBytes - bytes, freedBytes := m.freedBytes + bytes)
  }

  function OnMarked(m: Counters, bytes: nat): Counters {
    m.(markedGcs := m.markedGcs + 1, markedBytes := m.markedBytes + bytes)
  }

  function OnTraced(m: Counters, bytes: nat): Counters {
    m.(tracedGcs := m.tracedGcs + 1, tracedBytes := m.tracedBytes + bytes)
  }

  function OnUntraced(m: Counters, bytes: nat): Counters {
    m.(tracedGcs := m.tracedGcs - 1, tracedBytes := m.tracedBytes - bytes)
  }

  function OnRemembered(m: Counters, bytes: nat): Counters {
    m.(rememberedGcs := m.rememberedGcs + 1, rememberedBytes := m.rememberedBytes + bytes)
  }

  /** `factor` units of work for each byte, that is `bytes * factor`; see `WorkIsProduct`. */
  function Work(bytes: int, factor: real): real
    decreases if bytes < 0 then -bytes else bytes
  {
    if bytes == 0 then 0.0
    else if bytes > 0 then Work(bytes - 1, factor) + factor
    else Work(bytes + 1, factor) - factor
  }

  lemma {:induction false} WorkIsProduct(bytes: int, factor: real)
    ensures Work(bytes, factor) == bytes as real * factor
    decreases if bytes < 0 then -bytes else bytes
  {
    if bytes > 0 {
      WorkIsProduct(bytes - 1, factor);
    } else if bytes < 0 {
      WorkIsProduct(bytes + 1, factor);
    }
  }

  /** The work already done in this cycle, in units of debt. */
  function Credits(m: Counters): real {
    Work(m.markedBytes, m.pacing.markFactor)
    + Work(m.tracedBytes, m.pacing.traceFactor)
    + Work(m.rememberedBytes, m.pacing.keepFactor)
    + Work(m.droppedBytes, m.pacing.dropFactor)
    + Work(m.freedBytes, m.pacing.freeFactor)
  }

  function RealMax(x: real, y: real): real {
    if x < y then y else x
  }

  /** What has been allocated beyond the sleep, and what is owed from earlier cycles. */
  function Debits(m: Counters): real {
    m.allocatedBytes as real - m.wakeup + m.artificialDebt
  }

  function AllocationDebt(m: Counters): real {
    if m.totalGcs == 0 then 0.0
    else if Debits(m) <= 0.0 then 0.0
    else RealMax(Debits(m) - Credits(m), 0.0)
  }

  /** The debt is never negative, and there is one exactly while an arena with boxes owes more work than was done. */
  lemma DebtIsOwed(m: Counters)
    ensures AllocationDebt(m) >= 0.0
    ensures AllocationDebt(m) > 0.0 <==> m.totalGcs != 0 && Debits(m) > 0.0 && Debits(m) > Credits(m)
    ensures AllocationDebt(m) > 0.0 ==> AllocationDebt(m) == Debits(m) - Credits(m)
  {
  }

  /**
   * A cycle that was run as one unit leaves no debt, and none arises before as many bytes have
   * been allocated as the sleep says; any other cycle hands on what it owes, less the sleep.
   */
  lemma DebtAfterCycle(m: Counters, resetDebt: bool, more: nat)
    ensures var n := FinishCycle(m, resetDebt);
      resetDebt && more as real <= n.wakeup ==> AllocationDebt(n.(allocatedBytes := more)) == 0.0
    ensures var n := FinishCycle(m, resetDebt);
      !resetDebt ==> AllocationDebt(n) == RealMax(AllocationDebt(m) - n.wakeup, 0.0)
  {
    var n := FinishCycle(m, resetDebt);
    assert n.wakeup >= 0.0;
    assert Credits(n) == 0.0;
  }

  function FinishCycle(m: Counters, resetDebt: bool): Counters {
    m.(wakeup := RealMax(Work(m.rememberedBytes, m.pacing.sleepFactor), m.pacing.minSleep as real),
    artificialDebt := if resetDebt then 0.0 else AllocationDebt(m),
    allocatedBytes := 0, droppedBytes := 0, freedBytes := 0,
    markedGcs := 0, markedBytes := 0, tracedGcs := 0, tracedBytes := 0,
    rememberedGcs := 0, rememberedBytes := 0)
  }
}
