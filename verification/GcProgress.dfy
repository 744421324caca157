/** What one call of `do_collection` has achieved so far, and why it ends. */
module GcProgress {
  import opened Prelude
  import opened GcTypes
  import opened GcSpec
  import opened GcInvariant
  import opened GcSweep
  import opened GcRuns
  import opened GcLedger
  import opened GcCycle

  datatype RunUntil = PayDebt | Stop

  datatype StopAt = FullyMarked | AtSweep | FinishCycle | Full

  function Rank(stop: StopAt): nat {
    match stop
    case FullyMarked => 0
    case AtSweep => 1
    case FinishCycle => 2
    case Full => 3
  }

  function Between(s: State, root: seq<Edge>): World {
    World(s, root, Outside, {}, {}, {})
  }

  // ----- termination -----

  function Unmarked(b: GcBox): int { if Uncolored(b.color) then 2 else 0 }

  /** What is left to do in the current phase: uncolored boxes count twice, queued ones once. */
  function Left(s: State, kept: seq<Ptr>, todo: seq<Ptr>): nat {
    match s.phase
    case Mark => Pos(Sum(Unmarked, s.heap, kept)) + |s.gray| + |s.grayAgain| + if s.rootNeedsTrace then 1 else 0
    case Sweep => |todo|
    case _ => 0
  }

  function PhasesLeft(phase: Phase, hasSlept: bool): nat {
    match phase
    case Mark => if hasSlept then 2 else 5
    case Sweep => if hasSlept then 1 else 4
    case Sleep => if hasSlept then 0 else 3
    case Drop => 0
  }

  lemma UnmarkedNotNegative(h: Heap, l: seq<Ptr>)
    ensures Sum(Unmarked, h, l) >= 0
  {
    SumBetween(Unmarked, Unmarked, h, l);
  }

  lemma TraceLeft(s: State, e: Edge, l: seq<Ptr>)
    requires Covers(s.heap, l) && e.to in s.heap
    ensures var t := TraceEdge(s, e);
      Covers(t.heap, l)
      && Sum(Unmarked, t.heap, l) + |t.gray| + |t.grayAgain| <= Sum(Unmarked, s.heap, l) + |s.gray| + |s.grayAgain|
  {
    SumAt(Unmarked, s.heap, TraceEdge(s, e).heap, l, e.to);
  }

  lemma {:induction false} TraceEdgesLeft(s: State, es: seq<Edge>, l: seq<Ptr>)
    requires Covers(s.heap, l) && EdgesIn(s.heap, es)
    ensures var t := TraceEdges(s, es);
      Covers(t.heap, l) && t.phase == s.phase && t.rootNeedsTrace == s.rootNeedsTrace
      && Sum(Unmarked, t.heap, l) + |t.gray| + |t.grayAgain| <= Sum(Unmarked, s.heap, l) + |s.gray| + |s.grayAgain|
    decreases |es|
  {
    if es != [] {
      assert es[0] in es;
      TraceLeft(s, es[0], l);
      TraceEdgesLeft(TraceEdge(s, es[0]), es[1..], l);
    }
  }

  lemma MarkOneLeft(s: State, root: seq<Edge>, kept: seq<Ptr>)
    requires Inv(s, root, kept, []) && s.phase.Mark? && GrayRemaining(s)
    ensures MarkReady(s, root) && Left(MarkOne(s, root), kept, []) < Left(s, kept, [])
  {
    MarkOneReady(s, root, kept);
    assert kept + [] == kept;
    UnmarkedNotNegative(s.heap, kept);
    UnmarkedNotNegative(MarkOne(s, root).heap, kept);
    match Popped(s)
    case Some(p) =>
      SumAt(Unmarked, s.heap, Blacken(s).heap, kept, p);
      TraceEdgesLeft(Blacken(s), s.heap[p].edges, kept);
    case None =>
      TraceEdgesLeft(s, root, kept);
  }

  // ----- progress -----

  predicate Collecting(st: Step) {
    st.WakeUp? || st.MarkStep? || st.BeginSweep? || st.SweepStep? || st.Finish?
  }

  /** The number of sweeps completed. */
  function Sweeps(steps: seq<Step>): nat {
    if steps == [] then 0 else Sweeps(steps[..|steps| - 1]) + if steps[|steps| - 1].Finish? then 1 else 0
  }

  ghost predicate Steps(s0: State, root: seq<Edge>, steps: seq<Step>, s: State) {
    && (forall i :: 0 <= i < |steps| ==> Collecting(steps[i]))
    && Runs(Between(s0, root), steps) && After(Between(s0, root), steps) == Between(s, root)
  }

  predicate SweepCount(n: nat, phase: Phase, hasSlept: bool) {
    if hasSlept then n <= (if phase.Sleep? then 2 else 1)
    else n <= 1 && (!phase.Sleep? ==> n == 0)
  }

  /** When the call found the collector asleep: how far the cycle it started has got. */
  ghost predicate CyclePart(s0: State, root: seq<Edge>, s: State, todo: seq<Ptr>, hasSlept: bool) {
    if !hasSlept then s == s0
    else match s.phase
      case Mark => MarkPart(s0, root, s)
      case Sweep => SweepPart(s0, root, s, todo)
      case Sleep => Exact(s0, root, s)
      case Drop => false
  }

  ghost predicate Progress(s0: State, root: seq<Edge>, steps: seq<Step>, s: State, kept: seq<Ptr>, todo: seq<Ptr>,
    hasSlept: bool)
  {
    && Inv(s, root, kept, todo)
    && Steps(s0, root, steps, s)
    && SweepCount(Sweeps(steps), s.phase, hasSlept)
    && (s0.phase.Sleep? ==> CyclePart(s0, root, s, todo, hasSlept))
  }

  lemma {:induction false} RunsAppend(w: World, steps: seq<Step>, st: Step)
    requires Runs(w, steps) && Enabled(After(w, steps), st)
    ensures Runs(w, steps + [st]) && After(w, steps + [st]) == Do(After(w, steps), st)
    decreases |steps|
  {
    if steps == [] {
      assert [st][1..] == [];
    } else {
      assert (steps + [st])[1..] == steps[1..] + [st];
      RunsAppend(Do(w, steps[0]), steps[1..], st);
    }
  }

  lemma StepsAppend(s0: State, root: seq<Edge>, steps: seq<Step>, s: State, st: Step, t: State)
    requires Steps(s0, root, steps, s) && Collecting(st)
    requires Enabled(Between(s, root), st) && Do(Between(s, root), st) == Between(t, root)
    ensures Steps(s0, root, steps + [st], t)
    ensures Sweeps(steps + [st]) == Sweeps(steps) + if st.Finish? then 1 else 0
  {
    RunsAppend(Between(s0, root), steps, st);
    assert (steps + [st])[..|steps|] == steps;
  }

  lemma ProgressStart(s: State, root: seq<Edge>, kept: seq<Ptr>, todo: seq<Ptr>)
    requires Inv(s, root, kept, todo)
    ensures Progress(s, root, [], s, kept, todo, false)
  {
  }

  lemma ProgressWake(s0: State, root: seq<Edge>, steps: seq<Step>, s: State, kept: seq<Ptr>, todo: seq<Ptr>)
    requires Progress(s0, root, steps, s, kept, todo, false) && s.phase.Sleep?
    ensures Progress(s0, root, steps + [WakeUp], Wake(s), kept, todo, true)
  {
    WakeKeeps(s, root, kept);
    StepsAppend(s0, root, steps, s, WakeUp, Wake(s));
    if s0.phase.Sleep? { WakePart(s, root, kept); }
  }

  lemma ProgressMark(s0: State, root: seq<Edge>, steps: seq<Step>, s: State, kept: seq<Ptr>, todo: seq<Ptr>,
    hasSlept: bool)
    requires Progress(s0, root, steps, s, kept, todo, hasSlept) && s.phase.Mark? && GrayRemaining(s)
    requires s0.phase.Sleep? ==> hasSlept
    ensures MarkReady(s, root)
    ensures Progress(s0, root, steps + [MarkStep], MarkOne(s, root), kept, todo, hasSlept)
    ensures MarkOne(s, root).phase.Mark? && Left(MarkOne(s, root), kept, todo) < Left(s, kept, todo)
  {
    MarkOneKeeps(s, root, kept);
    MarkOneLeft(s, root, kept);
    StepsAppend(s0, root, steps, s, MarkStep, MarkOne(s, root));
    if s0.phase.Sleep? { MarkOnePart(s0, root, s, kept); }
  }

  lemma ProgressBegin(s0: State, root: seq<Edge>, steps: seq<Step>, s: State, kept: seq<Ptr>, todo: seq<Ptr>,
    hasSlept: bool)
    requires Progress(s0, root, steps, s, kept, todo, hasSlept) && Marked(s)
    requires s0.phase.Sleep? ==> hasSlept
    ensures Progress(s0, root, steps + [BeginSweep], StartSweep(s), [], kept, hasSlept)
  {
    StartSweepKeeps(s, root, kept);
    StepsAppend(s0, root, steps, s, BeginSweep, StartSweep(s));
    if s0.phase.Sleep? { StartSweepPart(s0, root, s, kept); }
  }

  lemma ProgressSweep(s0: State, root: seq<Edge>, steps: seq<Step>, s: State, kept: seq<Ptr>, todo: seq<Ptr>,
    hasSlept: bool)
    requires Progress(s0, root, steps, s, kept, todo, hasSlept) && s.phase.Sweep? && s.sweep.Some?
    requires s0.phase.Sleep? ==> hasSlept
    ensures todo != [] && SweepReady(s) && s.sweep == Some(todo[0]) && todo[0] in s.heap
    ensures Progress(s0, root, steps + [SweepStep], SweepOne(s), KeptAfter(s, kept, todo[0]), todo[1..], hasSlept)
    ensures SweepOne(s).phase.Sweep?
  {
    SweepOneKeeps(s, root, kept, todo);
    SweepOneCounts(s);
    StepsAppend(s0, root, steps, s, SweepStep, SweepOne(s));
    if s0.phase.Sleep? { SweepOnePart(s0, root, s, kept, todo); }
  }

  lemma ProgressFinish(s0: State, root: seq<Edge>, steps: seq<Step>, s: State, kept: seq<Ptr>, todo: seq<Ptr>,
    hasSlept: bool)
    requires Progress(s0, root, steps, s, kept, todo, hasSlept) && s.phase.Sweep? && s.sweep.None?
    requires s0.phase.Sleep? ==> hasSlept
    ensures todo == []
    ensures Progress(s0, root, steps + [Finish(hasSlept)], EndCycle(s, hasSlept), kept, todo, hasSlept)
  {
    EndCycleKeeps(s, root, kept, hasSlept);
    StepsAppend(s0, root, steps, s, Finish(hasSlept), EndCycle(s, hasSlept));
    if s0.phase.Sleep? { EndCyclePart(s0, root, s, kept, hasSlept); }
  }
}
