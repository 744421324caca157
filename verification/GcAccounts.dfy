/**
 * What the counters that pace the collector count, told from what happens to the boxes: bytes
 * allocated, dropped, freed and remembered since the last cycle ended, and the sleep that cycle set.
 */
module GcAccounts {
  import opened Prelude
  import opened GcTypes
  import opened GcSpec
  import opened GcInvariant
  import opened GcSweep
  import opened GcRuns
  import opened GcLedger
  import M = GcMetrics

  datatype Account = Account(
    made: nat,
    dropped: nat,
    freed: nat,
    remembered: nat,
    pacing: M.Pacing,
    sleep: real,
    owed: real)

  const OPENING := Account(0, 0, 0, 0, M.DEFAULT_PACING, 0.0, 0.0)

  predicate Lives(h: Heap, p: Ptr) {
    p in h && h[p].live
  }

  function If(c: bool, bytes: nat): nat {
    if c then bytes else 0
  }

  /** How long the collector sleeps after a cycle that remembered so many bytes. */
  function Sleep(remembered: nat, p: M.Pacing): real {
    M.RealMax(remembered as real * p.sleepFactor, p.minSleep as real)
  }

  /** A step, seen from the memory before and after it. */
  function Booked(a: Account, w: World, st: Step): Account
    requires Enabled(w, st)
  {
    match st
    case Alloc(_, size, _, _) => a.(made := a.made + size)
    case SetPacing(pacing) => a.(pacing := pacing)
    case SweepStep =>
      var p, h, k := w.s.sweep.value, w.s.heap, Do(w, st).s.heap;
      a.(dropped := a.dropped + If(Lives(h, p) && !Lives(k, p), h[p].size),
      freed := a.freed + If(p !in k, h[p].size),
      remembered := a.remembered + If(p in k, h[p].size))
    case Finish(hasSlept) =>
      Account(0, 0, 0, 0, a.pacing, Sleep(a.remembered, a.pacing), if hasSlept then 0.0 else M.AllocationDebt(w.s.m))
    case _ => a
  }

  function AccountOf(a: Account, w: World, steps: seq<Step>): Account
    requires Runs(w, steps)
    decreases |steps|
  {
    if steps == [] then a else AccountOf(Booked(a, w, steps[0]), Do(w, steps[0]), steps[1..])
  }

  predicate Agrees(a: Account, m: M.Counters) {
    && m.allocatedBytes == a.made && m.droppedBytes == a.dropped && m.freedBytes == a.freed
    && m.rememberedBytes == a.remembered && m.pacing == a.pacing && m.wakeup == a.sleep && m.artificialDebt == a.owed
  }

  lemma {:induction false} TraceEdgesAgree(a: Account, s: State, es: seq<Edge>)
    requires EdgesIn(s.heap, es) && Agrees(a, s.m)
    ensures Agrees(a, TraceEdges(s, es).m)
    decreases |es|
  {
    if es != [] { TraceEdgesAgree(a, TraceEdge(s, es[0]), es[1..]); }
  }

  lemma MarkAgrees(a: Account, s: State, root: seq<Edge>)
    requires MarkReady(s, root) && Agrees(a, s.m)
    ensures Agrees(a, MarkOne(s, root).m)
  {
    match Popped(s)
    case Some(p) => TraceEdgesAgree(a, Blacken(s), s.heap[p].edges);
    case None => TraceEdgesAgree(a, s, root);
  }

  lemma SweepAgrees(a: Account, w: World, kept: seq<Ptr>, todo: seq<Ptr>)
    requires WorldInv(w, kept, todo) && Enabled(w, SweepStep) && Agrees(a, w.s.m) && todo != []
    ensures Agrees(Booked(a, w, SweepStep), SweepOne(w.s).m)
  {
    SweepFacts(w.s, kept, todo);
    SweepOneSweeps(w.s);
    SweepOneCounts(w.s);
    assert !w.s.heap[todo[0]].color.Gray?;
  }

  lemma FinishAgrees(a: Account, w: World, hasSlept: bool)
    requires Enabled(w, Finish(hasSlept)) && Agrees(a, w.s.m)
    ensures Agrees(Booked(a, w, Finish(hasSlept)), EndCycle(w.s, hasSlept).m)
  {
    M.WorkIsProduct(w.s.m.rememberedBytes, w.s.m.pacing.sleepFactor);
  }

  lemma StepAgrees(a: Account, w: World, st: Step, kept: seq<Ptr>, todo: seq<Ptr>)
    requires WorldInv(w, kept, todo) && Enabled(w, st) && Agrees(a, w.s.m)
    ensures Agrees(Booked(a, w, st), Do(w, st).s.m)
  {
    if st.MarkStep? {
      MarkAgrees(a, w.s, w.root);
    } else if st.SweepStep? {
      SweepAgrees(a, w, kept, todo);
    } else if st.Finish? {
      FinishAgrees(a, w, st.hasSlept);
    }
  }

  lemma {:induction false} RunAgrees(a: Account, w: World, steps: seq<Step>, kept: seq<Ptr>, todo: seq<Ptr>)
    requires WorldInv(w, kept, todo) && Runs(w, steps) && Agrees(a, w.s.m)
    ensures Agrees(AccountOf(a, w, steps), After(w, steps).s.m)
    decreases |steps|
  {
    if steps != [] {
      StepKeeps(w, steps[0], kept, todo);
      StepAgrees(a, w, steps[0], kept, todo);
      RunAgrees(Booked(a, w, steps[0]), Do(w, steps[0]), steps[1..],
        KeptNext(w, steps[0], kept, todo), TodoNext(steps[0], kept, todo));
    }
  }

  /**
   * At every point of every run: the bytes allocated, dropped, freed and remembered are those of
   * the boxes to which that has happened since the last cycle ended; the sleep is the product of
   * what that cycle remembered and the sleep factor, at least the minimum; and what is still owed
   * is the debt that cycle ended with, unless it was run as one unit.
   */
  lemma AccountsAreExact(steps: seq<Step>)
    requires Runs(START, steps)
    ensures Agrees(AccountOf(OPENING, START, steps), After(START, steps).s.m)
  {
    InitialInv();
    RunAgrees(OPENING, START, steps, [], []);
  }
}
