/** Resurrection over runs: what is resurrected, and all that it holds, outlives the cycle. */
module GcResurrect {
  import opened GcTypes
  import opened GcSpec
  import opened GcInvariant
  import opened GcMutation
  import opened GcSweep
  import opened GcReach
  import opened GcRuns

  /** The value is intact, and the cycle under way will not drop it. */
  predicate Rescued(s: State, todo: seq<Ptr>, p: Ptr) {
    Safe(s.heap, todo, p) && (s.phase.Mark? ==> !Uncolored(s.heap[p].color))
  }

  // ----- one step -----

  /** Marking unmarks nothing. */
  lemma MarkOneRescues(s: State, root: seq<Edge>, kept: seq<Ptr>, p: Ptr)
    requires Inv(s, root, kept, []) && s.phase.Mark? && Rescued(s, [], p)
    ensures MarkReady(s, root) && Rescued(MarkOne(s, root), [], p)
  {
    MarkOneKeeps(s, root, kept);
    MarkOneReady(s, root, kept);
    assert SameBut(s.heap[p], MarkOne(s, root).heap[p]);
    match Popped(s)
    case Some(q) =>
      BlackenKeeps(s, q);
      RecoloredEdges(s, Blacken(s), s.heap[q].edges);
      TraceEdgesKeeps(Blacken(s), s.heap[q].edges, {q});
    case None =>
      if s.rootNeedsTrace { TraceEdgesKeeps(s, root, {}); }
  }

  /** When the sweep begins nothing is gray, so what is marked is black. */
  lemma StartSweepRescues(s: State, root: seq<Edge>, kept: seq<Ptr>, p: Ptr)
    requires Inv(s, root, kept, []) && Marked(s) && Rescued(s, [], p)
    ensures Rescued(StartSweep(s), kept, p)
  {
    NoGrayLeft(s);
  }

  lemma SweepOneRescues(s: State, root: seq<Edge>, kept: seq<Ptr>, todo: seq<Ptr>, p: Ptr)
    requires Inv(s, root, kept, todo) && s.phase.Sweep? && todo != [] && Rescued(s, todo, p)
    ensures SweepReady(s) && Rescued(SweepOne(s), todo[1..], p)
  {
    SweepOneKeeps(s, root, kept, todo);
    SweepFacts(s, kept, todo);
    SweepOneSweeps(s);
    SweptSafe(s.heap, SweepOne(s).heap, todo);
  }

  lemma CollectRescues(w: World, st: Step, kept: seq<Ptr>, todo: seq<Ptr>, p: Ptr)
    requires WorldInv(w, kept, todo) && Enabled(w, st) && Rescued(w.s, todo, p)
    requires st.MarkStep? || st.BeginSweep? || st.SweepStep? || st.Finish?
    ensures Rescued(Do(w, st).s, TodoNext(st, kept, todo), p)
  {
    match st {
      case MarkStep => MarkOneRescues(w.s, w.root, kept, p);
      case BeginSweep => StartSweepRescues(w.s, w.root, kept, p);
      case SweepStep => SweepOneRescues(w.s, w.root, kept, todo, p);
      case Finish(_) =>
    }
  }

  lemma BarrierRescues(w: World, st: Step, kept: seq<Ptr>, todo: seq<Ptr>, p: Ptr)
    requires WorldInv(w, kept, todo) && Enabled(w, st) && Rescued(w.s, todo, p)
    requires st.Backward? || st.BackwardWeak? || st.Forward? || st.ForwardWeak?
    ensures Rescued(Do(w, st).s, todo, p)
  {
    match st {
      case Backward(parent, any) =>
        assert Safe(w.s.heap, todo, parent) && (any.Some? ==> Safe(w.s.heap, todo, any.value));
        BackwardBarrierKeeps(w.s, w.root, kept, todo, parent, any);
      case BackwardWeak(parent, child) =>
        assert Safe(w.s.heap, todo, parent) && WeakSafe(w.s.heap, todo, child);
        BackwardBarrierWeakKeeps(w.s, w.root, kept, todo, parent, child);
      case Forward(from, child) =>
        assert from.Some? ==> Safe(w.s.heap, todo, from.value);
        ForwardBarrierKeeps(w.s, w.root, kept, todo, from, child);
      case ForwardWeak(from, child) =>
        assert from.Some? ==> Safe(w.s.heap, todo, from.value);
        ForwardBarrierWeakKeeps(w.s, w.root, kept, todo, from, child);
    }
  }

  lemma HeapStepRescues(w: World, st: Step, kept: seq<Ptr>, todo: seq<Ptr>, p: Ptr)
    requires WorldInv(w, kept, todo) && Enabled(w, st) && Rescued(w.s, todo, p)
    requires st.Alloc? || st.Write? || st.ResurrectStrong? || st.ResurrectWeak?
    ensures Rescued(Do(w, st).s, todo, p)
  {
    if st.ResurrectStrong? || (st.ResurrectWeak? && w.s.heap[st.p].live) {
      ResurrectKeeps(w.s, w.root, kept, todo, st.p);
    }
  }

  /** No step but the end of the cycle puts a rescued value at risk. */
  lemma StepRescues(w: World, st: Step, kept: seq<Ptr>, todo: seq<Ptr>, p: Ptr)
    requires WorldInv(w, kept, todo) && Enabled(w, st) && Rescued(w.s, todo, p) && !w.s.phase.Sleep?
    ensures Rescued(Do(w, st).s, TodoNext(st, kept, todo), p)
    ensures st.Finish? || !Do(w, st).s.phase.Sleep?
  {
    if st.MarkStep? || st.BeginSweep? || st.SweepStep? || st.Finish? {
      CollectRescues(w, st, kept, todo, p);
      StaysAwake(w, st, kept, todo);
    } else if st.Backward? || st.BackwardWeak? || st.Forward? || st.ForwardWeak? {
      BarrierRescues(w, st, kept, todo, p);
    } else if st.Alloc? || st.Write? || st.ResurrectStrong? || st.ResurrectWeak? {
      HeapStepRescues(w, st, kept, todo, p);
    }
  }

  lemma StaysAwake(w: World, st: Step, kept: seq<Ptr>, todo: seq<Ptr>)
    requires WorldInv(w, kept, todo) && Enabled(w, st)
    requires st.MarkStep? || st.BeginSweep? || st.SweepStep? || st.Finish?
    ensures st.Finish? || !Do(w, st).s.phase.Sleep?
  {
    match st {
      case MarkStep => MarkOneKeeps(w.s, w.root, kept);
      case BeginSweep =>
      case SweepStep => SweepGoesOn(w, st);
      case Finish(_) =>
    }
  }

  // ----- runs -----

  lemma {:induction false} RunRescues(w: World, steps: seq<Step>, kept: seq<Ptr>, todo: seq<Ptr>, p: Ptr)
    returns (kept': seq<Ptr>, todo': seq<Ptr>)
    requires WorldInv(w, kept, todo) && Runs(w, steps) && Rescued(w.s, todo, p) && !w.s.phase.Sleep?
    requires forall i :: 0 <= i < |steps| - 1 ==> !steps[i].Finish?
    ensures WorldInv(After(w, steps), kept', todo') && Rescued(After(w, steps).s, todo', p)
    decreases |steps|
  {
    kept', todo' := kept, todo;
    if steps != [] {
      var v, rest := Do(w, steps[0]), steps[1..];
      StepKeeps(w, steps[0], kept, todo);
      StepRescues(w, steps[0], kept, todo, p);
      kept', todo' := KeptNext(w, steps[0], kept, todo), TodoNext(steps[0], kept, todo);
      if rest != [] {
        assert forall i :: 0 <= i < |rest| ==> rest[i] == steps[i + 1];
        kept', todo' := RunRescues(v, rest, kept', todo', p);
      }
    }
  }

  predicate Resurrects(w: World, st: Step) {
    Enabled(w, st) && (st.ResurrectStrong? || (st.ResurrectWeak? && w.s.heap[st.p].live))
  }

  /** Resurrection takes place while marking, and rescues the value. */
  lemma Resurrected(w: World, st: Step, kept: seq<Ptr>, todo: seq<Ptr>)
    requires WorldInv(w, kept, todo) && Resurrects(w, st)
    ensures WorldInv(Do(w, st), kept, todo) && Do(w, st).s.phase.Mark? && Rescued(Do(w, st).s, todo, st.p)
  {
    assert st.ResurrectStrong? ==> Safe(w.s.heap, todo, st.p);
    StepKeeps(w, st, kept, todo);
    ResurrectKeeps(w.s, w.root, kept, todo, st.p);
  }

  /**
   * Whether or not it is stored anywhere, a resurrected value is not dropped in this cycle: it is
   * intact when the cycle ends and at every point before.
   */
  lemma ResurrectedSurvives(before: seq<Step>, st: Step, rest: seq<Step>)
    requires Runs(START, before) && Resurrects(After(START, before), st)
    requires Runs(Do(After(START, before), st), rest) && forall i :: 0 <= i < |rest| - 1 ==> !rest[i].Finish?
    ensures var h := After(Do(After(START, before), st), rest).s.heap; st.p in h && h[st.p].live
  {
    InitialInv();
    var kept, todo := RunKeeps(START, before, [], []);
    Resurrected(After(START, before), st, kept, todo);
    kept, todo := RunRescues(Do(After(START, before), st), rest, kept, todo, st.p);
  }

  /** What is reachable from a marked box is marked when marking has finished. */
  lemma {:induction false} ReachIsRescued(s: State, root: seq<Edge>, kept: seq<Ptr>, p: Ptr, q: Ptr, n: nat)
    requires Inv(s, root, kept, []) && Marked(s) && Rescued(s, [], p) && ReachIn(s.heap, [Strong(p)], {}, q, n)
    ensures Rescued(s, [], q)
    decreases n
  {
    NoGrayLeft(s);
    if n > 0 {
      var r :| ReachIn(s.heap, [Strong(p)], {}, r, n - 1) && r in s.heap && Strong(q) in s.heap[r].edges;
      ReachIsRescued(s, root, kept, p, r, n - 1);
      assert Done(s.heap, s.heap[r].edges);
      assert EdgeDone(s.heap, Strong(q));
    }
  }

  /** All that a rescued value reaches when the sweep begins outlives that sweep. */
  lemma ReachSurvives(w: World, kept: seq<Ptr>, todo: seq<Ptr>, p: Ptr, sweeping: seq<Step>, q: Ptr)
    requires WorldInv(w, kept, todo) && Rescued(w.s, todo, p)
    requires Enabled(w, BeginSweep) && Reachable(w.s.heap, [Strong(p)], {}, q) && Runs(Do(w, BeginSweep), sweeping)
    requires forall i :: 0 <= i < |sweeping| - 1 ==> !sweeping[i].Finish?
    ensures var h := After(Do(w, BeginSweep), sweeping).s.heap; q in h && h[q].live
  {
    var n: nat :| ReachIn(w.s.heap, [Strong(p)], {}, q, n);
    ReachIsRescued(w.s, w.root, kept, p, q, n);
    StepKeeps(w, BeginSweep, kept, todo);
    StartSweepRescues(w.s, w.root, kept, q);
    var kept', todo' := RunRescues(Do(w, BeginSweep), sweeping, [], kept, q);
  }

  /** So does all that a resurrected value reaches when the sweep begins, stored or not. */
  lemma ResurrectedReachSurvives(before: seq<Step>, st: Step, marking: seq<Step>, sweeping: seq<Step>, q: Ptr)
    requires Runs(START, before) && Resurrects(After(START, before), st) && Runs(Do(After(START, before), st), marking)
    requires forall i :: 0 <= i < |marking| ==> !marking[i].Finish?
    requires var w := After(Do(After(START, before), st), marking);
      && Enabled(w, BeginSweep) && Reachable(w.s.heap, [Strong(st.p)], {}, q)
      && Runs(Do(w, BeginSweep), sweeping) && forall i :: 0 <= i < |sweeping| - 1 ==> !sweeping[i].Finish?
    ensures var w := After(Do(After(START, before), st), marking);
      var h := After(Do(w, BeginSweep), sweeping).s.heap; q in h && h[q].live
  {
    InitialInv();
    var kept, todo := RunKeeps(START, before, [], []);
    Resurrected(After(START, before), st, kept, todo);
    kept, todo := RunRescues(Do(After(START, before), st), marking, kept, todo, st.p);
    ReachSurvives(After(Do(After(START, before), st), marking), kept, todo, st.p, sweeping, q);
  }
}
