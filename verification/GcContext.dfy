/** The collector itself: the context, its metrics, and the arena that drives it. */
module GcContext {
  import opened Prelude
  import opened GcTypes
  import opened GcInvariant
  import opened GcSweep
  import opened GcProgress
  import opened GcSchedule
  import S = GcSpec
  import M = GcMetrics
  import R = GcRuns
  import C = GcCycle
  import L = GcLifecycle
  import U = GcMutation

  /** Shared counters. */
  class Metrics {
    var inner: M.Counters

    constructor ()
      ensures inner == M.FRESH
    {
      inner := M.FRESH;
    }

    method MarkGcAllocated(bytes: nat)
      modifies this
      ensures inner == M.OnAllocated(old(inner), bytes)
    {
      inner := inner.(totalGcs := inner.totalGcs + 1);
      inner := inner.(totalBytes := inner.totalBytes + bytes);
      inner := inner.(allocatedBytes := inner.allocatedBytes + bytes);
    }

    method MarkGcDropped(bytes: nat)
      modifies this
      ensures inner == M.OnDropped(old(inner), bytes)
    {
      inner := inner.(droppedBytes := inner.droppedBytes + bytes);
    }

    method MarkGcFreed(bytes: nat)
      modifies this
      ensures inner == M.OnFreed(old(inner), bytes)
    {
      inner := inner.(totalGcs := inner.totalGcs - 1);
      inner := inner.(totalBytes := inner.totalBytes - bytes);
      inner := inner.(freedBytes := inner.freedBytes + bytes);
    }

    method MarkGcMarked(bytes: nat)
      modifies this
      ensures inner == M.OnMarked(old(inner), bytes)
    {
      inner := inner.(markedGcs := inner.markedGcs + 1);
      inner := inner.(markedBytes := inner.markedBytes + bytes);
    }

    method MarkGcTraced(bytes: nat)
      modifies this
      ensures inner == M.OnTraced(old(inner), bytes)
    {
      inner := inner.(tracedGcs := inner.tracedGcs + 1);
      inner := inner.(tracedBytes := inner.tracedBytes + bytes);
    }

    method MarkGcUntraced(bytes: nat)
      modifies this
      ensures inner == M.OnUntraced(old(inner), bytes)
    {
      inner := inner.(tracedGcs := inner.tracedGcs - 1);
      inner := inner.(tracedBytes := inner.tracedBytes - bytes);
    }

    method MarkGcRemembered(bytes: nat)
      modifies this
      ensures inner == M.OnRemembered(old(inner), bytes)
    {
      inner := inner.(rememberedGcs := inner.rememberedGcs + 1);
      inner := inner.(rememberedBytes := inner.rememberedBytes + bytes);
    }

    method AllocationDebt() returns (debt: real)
      ensures debt == M.AllocationDebt(inner) && debt >= 0.0
      ensures debt > 0.0 <==> inner.totalGcs != 0 && M.Debits(inner) > 0.0 && M.Debits(inner) > M.Credits(inner)
    {
      if inner.totalGcs == 0 {
        return 0.0;
      }
      var debits := inner.allocatedBytes as real - inner.wakeup + inner.artificialDebt;
      M.DebtIsOwed(inner);
      if debits <= 0.0 {
        return 0.0;
      }
      debt := M.RealMax(debits - M.Credits(inner), 0.0);
    }

    method FinishCycle(resetDebt: bool)
      modifies this
      ensures inner == M.FinishCycle(old(inner), resetDebt)
    {
      var wakeup := M.RealMax(M.Work(inner.rememberedBytes, inner.pacing.sleepFactor), inner.pacing.minSleep as real);
      var debt := 0.0;
      if !resetDebt {
        debt := AllocationDebt();
      }
      inner := inner.(wakeup := wakeup, artificialDebt := debt);
      inner := inner.(allocatedBytes := 0, droppedBytes := 0, freedBytes := 0, markedGcs := 0, markedBytes := 0);
      inner := inner.(tracedGcs := 0, tracedBytes := 0, rememberedGcs := 0, rememberedBytes := 0);
    }
  }

  class Context {
    const metrics: Metrics
    var phase: Phase
    var heap: Heap
    var all: Option<Ptr>
    var sweep: Option<Ptr>
    var sweepPrev: Option<Ptr>
    var rootNeedsTrace: bool
    var gray: seq<Ptr>
    var grayAgain: seq<Ptr>

    ghost var log: seq<Event>
    /** The list, split at the sweep position: boxes already swept or new, and boxes to sweep. */
    ghost var kept: seq<Ptr>
    ghost var todo: seq<Ptr>

    ghost function View(): S.State
      reads this, metrics
    {
      S.State(phase, heap, all, sweep, sweepPrev, rootNeedsTrace, gray, grayAgain, metrics.inner, log)
    }

    ghost predicate Valid(root: seq<Edge>)
      reads this, metrics
    {
      Inv(View(), root, kept, todo)
    }

    constructor ()
      ensures View() == S.INITIAL && Valid([]) && fresh(metrics)
    {
      metrics := new Metrics();
      phase, heap, all, sweep, sweepPrev := Sleep, map[], None, None, None;
      rootNeedsTrace, gray, grayAgain := true, [], [];
      log, kept, todo := [], [], [];
      new;
      InitialInv();
    }

    method RootBarrier()
      modifies this
      ensures View() == S.RootBarrier(old(View())) && kept == old(kept) && todo == old(todo)
    {
      if phase == Mark {
        rootNeedsTrace := true;
      }
    }

    // ----- mutation -----

    method Allocate(p: Ptr, size: nat, needsTrace: bool, value: seq<Edge>, ghost root: seq<Edge>)
      requires Valid(root) && p !in heap && EdgesSafe(heap, todo, value) && (!needsTrace ==> value == [])
      modifies this`heap, this`all, this`sweepPrev, this`log, this`kept, metrics
      ensures View() == S.Allocate(old(View()), p, size, needsTrace, value)
      ensures Valid(root) && kept == [p] + old(kept) && todo == old(todo) && Safe(heap, todo, p)
    {
      ghost var s := View();
      heap := heap[p := GcBox(all, White, true, needsTrace, size, value)];
      all := Some(p);
      if phase == Sweep && sweepPrev.None? {
        sweepPrev := all;
      }
      metrics.MarkGcAllocated(size);
      log := log + [Allocated(p)];
      assert View() == S.Allocate(s, p, size, needsTrace, value);
      kept := [p] + kept;
      U.AllocateKeeps(s, root, old(kept), todo, p, size, needsTrace, value);
    }

    method MakeGrayAgain(p: Ptr)
      requires p in heap && heap[p].color.Black?
      modifies this, metrics
      ensures View() == S.MakeGrayAgain(old(View()), p) && kept == old(kept) && todo == old(todo)
    {
      heap := SetColor(heap, p, Gray);
      grayAgain := grayAgain + [p];
      metrics.MarkGcUntraced(heap[p].size);
    }

    method BackwardBarrier(parent: Ptr, child: Option<Ptr>)
      requires parent in heap && (child.Some? ==> child.value in heap)
      modifies this, metrics
      ensures View() == S.BackwardBarrier(old(View()), parent, child) && kept == old(kept) && todo == old(todo)
    {
      if phase == Mark && heap[parent].color == Black && (child.None? || Uncolored(heap[child.value].color)) {
        MakeGrayAgain(parent);
      }
    }

    method BackwardBarrierWeak(parent: Ptr, child: Ptr)
      requires parent in heap && child in heap
      modifies this, metrics
      ensures View() == S.BackwardBarrierWeak(old(View()), parent, child) && kept == old(kept) && todo == old(todo)
    {
      if phase == Mark && heap[parent].color == Black && heap[child].color == White {
        MakeGrayAgain(parent);
      }
    }

    method ForwardBarrier(parent: Option<Ptr>, child: Ptr)
      requires child in heap && (parent.Some? ==> parent.value in heap)
      modifies this, metrics
      ensures View() == S.ForwardBarrier(old(View()), parent, child) && kept == old(kept) && todo == old(todo)
    {
      if phase == Mark && (parent.None? || heap[parent.value].color == Black) {
        Trace(child);
      }
    }

    method ForwardBarrierWeak(parent: Option<Ptr>, child: Ptr)
      requires child in heap && (parent.Some? ==> parent.value in heap)
      modifies this, metrics
      ensures View() == S.ForwardBarrierWeak(old(View()), parent, child) && kept == old(kept) && todo == old(todo)
    {
      if phase == Mark && (parent.None? || heap[parent.value].color == Black) {
        TraceWeak(child);
      }
    }

    method Upgrade(p: Ptr, ghost root: seq<Edge>) returns (ok: bool)
      requires Valid(root) && WeakSafe(heap, todo, p)
      ensures ok <==> Safe(heap, todo, p)
    {
      U.UpgradeIsExact(View(), root, kept, todo, p);
      if !heap[p].live {
        return false;
      }
      if phase == Sweep && heap[p].color == WhiteWeak {
        return false;
      }
      return true;
    }

    method Resurrect(p: Ptr)
      requires p in heap && phase.Mark? && heap[p].live
      modifies this, metrics
      ensures View() == S.Resurrect(old(View()), p) && kept == old(kept) && todo == old(todo)
    {
      var color := heap[p].color;
      if color == White || color == WhiteWeak {
        heap := SetColor(heap, p, Gray);
        gray := gray + [p];
        if color == White {
          metrics.MarkGcMarked(heap[p].size);
        }
      }
    }

    // ----- marking -----

    method Trace(p: Ptr)
      requires p in heap
      modifies this, metrics
      ensures View() == S.Trace(old(View()), p) && kept == old(kept) && todo == old(todo)
    {
      var color := heap[p].color;
      if color == White || color == WhiteWeak {
        if heap[p].needsTrace {
          heap := SetColor(heap, p, Gray);
          gray := gray + [p];
        } else {
          heap := SetColor(heap, p, Black);
        }
        if color == White {
          metrics.MarkGcMarked(heap[p].size);
        }
      }
    }

    method TraceWeak(p: Ptr)
      requires p in heap
      modifies this, metrics
      ensures View() == S.TraceWeak(old(View()), p) && kept == old(kept) && todo == old(todo)
    {
      if heap[p].color == White {
        heap := SetColor(heap, p, WhiteWeak);
        metrics.MarkGcMarked(heap[p].size);
      }
    }

    /** `Collect::trace` of a value: each pointer it holds is visited in turn. */
    method TraceValue(edges: seq<Edge>)
      requires EdgesIn(heap, edges)
      modifies this, metrics
      ensures View() == S.TraceEdges(old(View()), edges) && kept == old(kept) && todo == old(todo)
    {
      for i := 0 to |edges|
        invariant kept == old(kept) && todo == old(todo)
        invariant EdgesIn(heap, edges[i..])
        invariant S.TraceEdges(View(), edges[i..]) == S.TraceEdges(old(View()), edges)
      {
        assert edges[i..][0] == edges[i] && edges[i..][1..] == edges[i + 1..];
        match edges[i] {
          case Strong(p) => Trace(p);
          case Weak(p) => TraceWeak(p);
        }
      }
    }

    /** Returns true (`ControlFlow::Break`) when nothing is left to mark. */
    method MarkOne(root: seq<Edge>) returns (done: bool)
      requires S.MarkReady(View(), root)
      modifies this, metrics
      ensures View() == S.MarkOne(old(View()), root) && kept == old(kept) && todo == old(todo)
      ensures done <==> !S.GrayRemaining(old(View()))
    {
      var next: Option<Ptr> := None;
      if gray != [] {
        next := Some(gray[|gray| - 1]);
        gray := gray[..|gray| - 1];
      } else if grayAgain != [] {
        next := Some(grayAgain[|grayAgain| - 1]);
        grayAgain := grayAgain[..|grayAgain| - 1];
      }
      match next {
        case Some(p) =>
          metrics.MarkGcTraced(heap[p].size);
          heap := SetColor(heap, p, Black);
          TraceValue(heap[p].edges);
          done := false;
        case None =>
          if rootNeedsTrace {
            TraceValue(root);
            rootNeedsTrace := false;
            done := false;
          } else {
            done := true;
          }
      }
    }

    // ----- sweeping -----

    /** Drops the value if there still is one, and frees the box. */
    method Release(p: Ptr)
      requires p in heap
      modifies this, metrics
      ensures View() == S.Release(old(View()), p) && kept == old(kept) && todo == old(todo)
    {
      var box := heap[p];
      if box.live {
        log := log + [Dropped(p)];
        metrics.MarkGcDropped(box.size);
      }
      heap := heap - {p};
      log := log + [Freed(p)];
      metrics.MarkGcFreed(box.size);
    }

    /** Returns true (`ControlFlow::Break`) when the list has been swept to its end. */
    method SweepOne() returns (done: bool)
      requires sweep.Some? ==> S.SweepReady(View())
      modifies this, metrics
      ensures done <==> old(sweep).None?
      ensures done ==> View() == old(View()).(sweepPrev := None)
      ensures !done ==> View() == S.SweepOne(old(View()))
      ensures kept == old(kept) && todo == old(todo)
    {
      if sweep.None? {
        sweepPrev := None;
        return true;
      }
      var p := sweep.value;
      var box := heap[p];
      sweep := box.next;
      match box.color {
        case White =>
          if sweepPrev.Some? {
            heap := SetNext(heap, sweepPrev.value, box.next);
          } else {
            all := box.next;
          }
          Release(p);
        case WhiteWeak =>
          sweepPrev := Some(p);
          heap := SetColor(heap, p, White);
          if box.live {
            heap := DropValue(heap, p);
            log := log + [Dropped(p)];
            metrics.MarkGcDropped(box.size);
          }
          metrics.MarkGcRemembered(box.size);
        case Black =>
          sweepPrev := Some(p);
          heap := SetColor(heap, p, White);
          metrics.MarkGcRemembered(box.size);
        case Gray =>
      }
      return false;
    }

    // ----- the collector loop -----

    /** The loop body of `DoCollection` when asleep. */
    method WakePhase(root: seq<Edge>, ghost s0: S.State, ghost past: seq<R.Step>) returns (ghost steps: seq<R.Step>)
      requires Progress(s0, root, past, View(), kept, todo, false) && phase.Sleep?
      modifies this`phase
      ensures Progress(s0, root, steps, View(), kept, todo, true) && phase.Mark? && steps == past + [R.WakeUp]
    {
      ProgressWake(s0, root, past, View(), kept, todo);
      phase := Mark;
      steps := past + [R.WakeUp];
    }

    /** One call of `MarkOne`, as a step of the collection. */
    method MarkStep(root: seq<Edge>, hasSlept: bool, ghost s0: S.State, ghost past: seq<R.Step>)
      returns (done: bool, ghost steps: seq<R.Step>)
      requires Progress(s0, root, past, View(), kept, todo, hasSlept) && phase.Mark? && (s0.phase.Sleep? ==> hasSlept)
      modifies this, metrics
      ensures Progress(s0, root, steps, View(), kept, todo, hasSlept) && phase.Mark?
      ensures if done then Marked(View()) else Left(View(), kept, todo) < old(Left(View(), kept, todo))
      ensures done == !old(S.GrayRemaining(View())) && steps == if done then past else past + [R.MarkStep]
    {
      ghost var s, k, t := View(), kept, todo;
      assert S.MarkReady(s, root) by { MarkOneReady(s, root, k); }
      if S.GrayRemaining(s) {
        ProgressMark(s0, root, past, s, k, t, hasSlept);
        steps := past + [R.MarkStep];
      } else {
        steps := past;
      }
      done := MarkOne(root);
    }

    /** `all` is swept from its head. */
    method EnterSweep()
      modifies this`phase, this`sweep
      ensures View() == S.StartSweep(old(View()))
    {
      phase := Sweep;
      sweep := all;
    }

    /** The switch from marking to sweeping. */
    method BeginSweeping(root: seq<Edge>, hasSlept: bool, ghost s0: S.State, ghost past: seq<R.Step>)
      returns (ghost steps: seq<R.Step>)
      requires Progress(s0, root, past, View(), kept, todo, hasSlept) && Marked(View())
      requires s0.phase.Sleep? ==> hasSlept
      modifies this
      ensures Progress(s0, root, steps, View(), kept, todo, hasSlept) && phase.Sweep? && steps == past + [R.BeginSweep]
    {
      ghost var s, k := View(), kept;
      EnterSweep();
      ProgressBegin(s0, root, past, s, k, todo, hasSlept);
      steps := past + [R.BeginSweep];
      kept, todo := [], k;
    }

    /** The loop body of `DoCollection` while marking. Returns true when it is to stop. */
    method MarkPhase(root: seq<Edge>, ghost runUntil: RunUntil, stop: StopAt, hasSlept: bool, ghost s0: S.State,
      ghost past: seq<R.Step>)
      returns (stopped: bool, ghost steps: seq<R.Step>)
      requires OnTime(s0, root, past, runUntil, stop, hasSlept) && !Paid(View(), runUntil)
      requires Progress(s0, root, past, View(), kept, todo, hasSlept) && phase.Mark? && (s0.phase.Sleep? ==> hasSlept)
      modifies this, metrics
      ensures Progress(s0, root, steps, View(), kept, todo, hasSlept)
      ensures stopped ==> stop.FullyMarked? && Marked(View())
      ensures !stopped ==> (if phase.Mark? then Left(View(), kept, todo) < old(Left(View(), kept, todo))
                            else phase.Sweep? && !stop.FullyMarked?)
      ensures RoundDue(s0, root, steps, View(), runUntil, stop, hasSlept, stopped)
    {
      MarkDue(s0, root, past, View(), runUntil, stop, hasSlept);
      var done;
      done, steps := MarkStep(root, hasSlept, s0, past);
      stopped := false;
      if done {
        if Rank(stop) <= Rank(FullyMarked) {
          return true, steps;
        }
        steps := BeginSweeping(root, hasSlept, s0, steps);
      }
    }

    /** The end of a cycle: counters reset, root to be traced again. */
    method CloseCycle(hasSlept: bool)
      modifies this, metrics
      ensures View() == S.EndCycle(old(View()), hasSlept).(sweepPrev := old(sweepPrev)) && kept == old(kept)
      ensures todo == old(todo)
    {
      metrics.FinishCycle(hasSlept);
      rootNeedsTrace := true;
      phase := Sleep;
    }

    /** The loop body of `DoCollection` while sweeping. Returns true at the end of the cycle. */
    method SweepPhase(root: seq<Edge>, hasSlept: bool, ghost s0: S.State, ghost past: seq<R.Step>)
      returns (finished: bool, ghost steps: seq<R.Step>)
      requires Progress(s0, root, past, View(), kept, todo, hasSlept) && phase.Sweep? && (s0.phase.Sleep? ==> hasSlept)
      modifies this, metrics
      ensures Progress(s0, root, steps, View(), kept, todo, hasSlept)
      ensures if finished then phase.Sleep? else phase.Sweep? && |todo| < |old(todo)|
      ensures steps == past + [if finished then R.Finish(hasSlept) else R.SweepStep]
    {
      ghost var s, k, t := View(), kept, todo;
      if s.sweep.None? {
        ProgressFinish(s0, root, past, s, k, t, hasSlept);
        steps := past + [R.Finish(hasSlept)];
      } else {
        ProgressSweep(s0, root, past, s, k, t, hasSlept);
        steps := past + [R.SweepStep];
      }
      finished := SweepOne();
      if finished {
        CloseCycle(hasSlept);
      } else {
        kept, todo := KeptAfter(s, k, t[0]), t[1..];
      }
    }

    /** Only a collection that pays debt is cut short. */
    method DebtPaid(runUntil: RunUntil) returns (paid: bool)
      ensures paid == (runUntil.PayDebt? && M.AllocationDebt(metrics.inner) <= 0.0)
    {
      paid := false;
      if runUntil.PayDebt? {
        var debt := metrics.AllocationDebt();
        paid := !(debt > 0.0);
      }
    }

    /** The case of the loop for sweeping, with its stop conditions; its assertion on `stop` holds. */
    method SweepCase(root: seq<Edge>, ghost runUntil: RunUntil, stop: StopAt, hasSlept: bool, ghost s0: S.State,
      ghost past: seq<R.Step>)
      returns (stopped: bool, ghost steps: seq<R.Step>)
      requires OnTime(s0, root, past, runUntil, stop, hasSlept) && !Paid(View(), runUntil)
      requires Progress(s0, root, past, View(), kept, todo, hasSlept) && phase.Sweep? && (s0.phase.Sleep? ==> hasSlept)
      modifies this, metrics
      ensures Progress(s0, root, steps, View(), kept, todo, hasSlept)
      ensures Rank(stop) <= Rank(AtSweep) ==> stopped && phase.Sweep? && View() == old(View())
      ensures Rank(stop) > Rank(AtSweep) ==>
                if stopped then phase.Sleep? && (stop.FinishCycle? || hasSlept)
                else if phase.Sweep? then |todo| < |old(todo)| else phase.Sleep? && !hasSlept
      ensures RoundDue(s0, root, steps, View(), runUntil, stop, hasSlept, stopped)
    {
      SweepDue(s0, root, past, View(), runUntil, stop, hasSlept);
      steps := past;
      if Rank(stop) <= Rank(AtSweep) {
        return true, steps;
      }
      var finished;
      finished, steps := SweepPhase(root, hasSlept, s0, steps);
      if finished {
        if stop == FinishCycle {
          return true, steps;
        }
        if hasSlept {
          assert stop == Full;
          return true, steps;
        }
      }
      stopped := false;
    }

    /** What the loop knows between two of its rounds, besides the progress made since `s0`. */
    static ghost predicate Underway(s0: S.State, s: S.State, stop: StopAt, hasSlept: bool) {
      && (hasSlept ==> !s.phase.Sleep?) && (s0.phase.Sleep? && !hasSlept ==> s.phase.Sleep?)
      && (stop.FullyMarked? ==> if s0.phase.Sweep? then s == s0 else !s.phase.Sweep?)
    }

    /** What the stop condition names has been reached. */
    static ghost predicate Reached(s0: S.State, s: S.State, stop: StopAt) {
      match stop
      case FullyMarked => if s0.phase.Sweep? then s == s0 else Marked(s)
      case AtSweep => s.phase.Sweep?
      case _ => s.phase.Sleep?
    }

    /** One round of the loop of `DoCollection`. */
    method OneRound(root: seq<Edge>, ghost runUntil: RunUntil, stop: StopAt, hasSlept: bool, ghost s0: S.State,
      ghost past: seq<R.Step>)
      returns (slept: bool, stopped: bool, ghost steps: seq<R.Step>)
      requires Progress(s0, root, past, View(), kept, todo, hasSlept) && Underway(s0, View(), stop, hasSlept)
      requires OnTime(s0, root, past, runUntil, stop, hasSlept) && !Paid(View(), runUntil)
      modifies this, metrics
      ensures RoundDue(s0, root, steps, View(), runUntil, stop, slept, stopped)
      ensures Progress(s0, root, steps, View(), kept, todo, slept) && (s0.phase.Sleep? ==> slept)
      ensures if stopped then Reached(s0, View(), stop) else Underway(s0, View(), stop, slept)
      ensures !stopped ==>
                var before := old(PhasesLeft(phase, hasSlept));
                PhasesLeft(phase, slept) < before
                || (PhasesLeft(phase, slept) == before && Left(View(), kept, todo) < old(Left(View(), kept, todo)))
    {
      slept, stopped, steps := hasSlept, false, past;
      match phase {
        case Sleep =>
          WakeDue(s0, root, past, View(), runUntil, stop, hasSlept);
          slept := true;
          steps := WakePhase(root, s0, past);
        case Mark => stopped, steps := MarkPhase(root, runUntil, stop, hasSlept, s0, past);
        case Sweep => stopped, steps := SweepCase(root, runUntil, stop, hasSlept, s0, past);
        case Drop => assert false;
      }
    }

    /** The loop of `DoCollection`. */
    method CollectLoop(root: seq<Edge>, runUntil: RunUntil, stop: StopAt)
      returns (hasSlept: bool, ghost steps: seq<R.Step>)
      requires Valid(root) && !Paid(View(), runUntil)
      modifies this, metrics
      ensures Progress(old(View()), root, steps, View(), kept, todo, hasSlept)
      ensures Collects(old(View()), root, steps, View(), runUntil, stop)
      ensures old(phase).Sleep? ==> hasSlept
      ensures runUntil.Stop? ==> Reached(old(View()), View(), stop)
      ensures stop.FullyMarked? && old(phase).Sweep? ==> View() == old(View())
    {
      ghost var s0 := View();
      steps := [];
      ProgressStart(s0, root, kept, todo);
      hasSlept := false;
      while true
        invariant Progress(s0, root, steps, View(), kept, todo, hasSlept) && Underway(s0, View(), stop, hasSlept)
        invariant OnTime(s0, root, steps, runUntil, stop, hasSlept) && !Paid(View(), runUntil)
        decreases PhasesLeft(phase, hasSlept), Left(View(), kept, todo)
      {
        var stopped;
        hasSlept, stopped, steps := OneRound(root, runUntil, stop, hasSlept, s0, steps);
        if stopped {
          break;
        }
        var paid := DebtPaid(runUntil);
        if paid {
          break;
        }
      }
    }

    /**
     * Runs the collector until the stop condition, or until no debt is left, and no longer. `steps`
     * records what it did, which is determined by the arguments and the state before. The call
     * ends, sweeps at most twice, and its assertion on `stop` holds; a call that is not cut short
     * by the debt ends in the phase its stop condition names; and a full cycle that starts asleep
     * keeps exactly what is reachable.
     */
    method DoCollection(root: seq<Edge>, runUntil: RunUntil, stop: StopAt) returns (ghost steps: seq<R.Step>)
      requires Valid(root)
      modifies this, metrics
      ensures Valid(root)
      ensures Steps(old(View()), root, steps, View()) && Sweeps(steps) <= 2
      ensures Collects(old(View()), root, steps, View(), runUntil, stop)
      ensures runUntil.PayDebt? && M.AllocationDebt(old(metrics.inner)) <= 0.0 ==> steps == [] && View() == old(View())
      ensures runUntil.PayDebt? ==> M.AllocationDebt(metrics.inner) <= 0.0 || StopReached(View(), steps, stop)
      ensures runUntil.Stop? && stop.FullyMarked? && !old(phase).Sweep? ==> Marked(View())
      ensures stop.FullyMarked? && old(phase).Sweep? ==> View() == old(View())
      ensures runUntil.Stop? && stop.AtSweep? ==> phase.Sweep?
      ensures runUntil.Stop? && (stop.FinishCycle? || stop.Full?) ==> phase.Sleep?
      ensures runUntil.Stop? && (stop.FinishCycle? || stop.Full?) && old(phase).Sleep? ==>
                C.Exact(old(View()), root, View())
    {
      steps := [];
      ProgressStart(View(), root, kept, todo);
      var paid := DebtPaid(runUntil);
      if paid {
        return;
      }
      var _, done := CollectLoop(root, runUntil, stop);
      steps := done;
    }

    /** `Drop for Context`: the list is walked once, dropping and freeing every box. */
    method DropAll(ghost root: seq<Edge>)
      requires Valid(root)
      modifies this, metrics
      ensures heap == map[]
      ensures NoDup(old(kept + todo)) && (forall i :: 0 <= i < |old(kept + todo)| ==> old(kept + todo)[i] in old(heap))
      ensures View() == L.ReleaseAll(old(View()).(phase := Phase.Drop), old(kept + todo))
    {
      phase := Phase.Drop;
      ghost var s0, l := View(), kept + todo;
      ghost var rest := l;
      L.ListIsReleasable(heap, all, l);
      var resume := all;
      while resume.Some?
        invariant IsList(heap, resume, rest) && NoDup(rest) && NoDup(l)
        invariant forall i :: 0 <= i < |rest| ==> rest[i] in heap
        invariant forall i :: 0 <= i < |l| ==> l[i] in s0.heap
        invariant L.ReleaseAll(View(), rest) == L.ReleaseAll(s0, l)
        decreases |rest|
      {
        var p := resume.value;
        assert rest != [] && p == rest[0];
        resume := heap[p].next;
        L.ReleaseHead(View(), rest);
        Release(p);
        rest := rest[1..];
      }
    }
  }

  /** An arena: a context and the root it keeps alive. */
  class Arena {
    const context: Context
    var root: seq<Edge>

    ghost predicate Valid()
      reads this, context, context.metrics
    {
      context.Valid(root)
    }

    constructor ()
      ensures Valid() && root == [] && context.View() == S.INITIAL && fresh(context) && fresh(context.metrics)
    {
      context := new Context();
      root := [];
    }

    /** The root is about to be mutated: the pointers stored in it must be ones the callback holds. */
    method MutateRoot(value: seq<Edge>)
      requires Valid() && EdgesSafe(context.heap, context.todo, value)
      modifies this, context, context.metrics
      ensures Valid() && root == value && context.View() == S.RootBarrier(old(context.View()))
    {
      ghost var kept, todo := context.kept, context.todo;
      U.RootBarrierKeeps(context.View(), root, value, kept, todo);
      context.RootBarrier();
      U.KeepsEdges(old(context.heap), context.heap, todo, value);
      U.SetRootKeeps(context.View(), root, value, kept, todo);
      root := value;
    }

    /** Collects until no debt is left, at most to the end of a cycle of its own. */
    method CollectDebt() returns (ghost steps: seq<R.Step>)
      requires Valid()
      modifies context, context.metrics
      ensures Valid() && Collects(old(context.View()), root, steps, context.View(), PayDebt, Full)
      ensures M.AllocationDebt(old(context.metrics.inner)) <= 0.0 ==> context.View() == old(context.View())
      ensures M.AllocationDebt(context.metrics.inner) <= 0.0 || EndsCycle(steps, Full)
    {
      steps := context.DoCollection(root, PayDebt, Full);
    }

    /** Returns whether the arena is now fully marked: then everything reachable is black. */
    method MarkDebt() returns (marked: bool, ghost steps: seq<R.Step>)
      requires Valid()
      modifies context, context.metrics
      ensures Valid() && (marked <==> Marked(context.View()))
      ensures Collects(old(context.View()), root, steps, context.View(), PayDebt, FullyMarked)
      ensures M.AllocationDebt(old(context.metrics.inner)) <= 0.0 ==> context.View() == old(context.View())
      ensures M.AllocationDebt(context.metrics.inner) <= 0.0 || marked || context.phase.Sweep?
      ensures marked ==> forall p :: C.Live(context.heap, root, p) ==> S.ColorIs(context.View(), p, Black)
    {
      steps := context.DoCollection(root, PayDebt, FullyMarked);
      marked := context.phase == Mark && context.gray == [] && context.grayAgain == [] && !context.rootNeedsTrace;
      if marked {
        R.MarkingIsComplete(context.View(), root, context.kept);
      }
    }

    /** Always ends fully marked, unless a sweep is under way. */
    method FinishMarking() returns (marked: bool, ghost steps: seq<R.Step>)
      requires Valid()
      modifies context, context.metrics
      ensures Collects(old(context.View()), root, steps, context.View(), Stop, FullyMarked)
      ensures Valid() && (marked <==> !old(context.phase).Sweep?)
      ensures marked ==> forall p :: C.Live(context.heap, root, p) ==> S.ColorIs(context.View(), p, Black)
      ensures !marked ==> context.View() == old(context.View())
    {
      steps := context.DoCollection(root, Stop, FullyMarked);
      marked := context.phase == Mark && context.gray == [] && context.grayAgain == [] && !context.rootNeedsTrace;
      if marked {
        R.MarkingIsComplete(context.View(), root, context.kept);
      }
    }

    /** Collects until no debt is left, at most to the end of the cycle under way. */
    method CycleDebt() returns (ghost steps: seq<R.Step>)
      requires Valid()
      modifies context, context.metrics
      ensures Valid() && Collects(old(context.View()), root, steps, context.View(), PayDebt, StopAt.FinishCycle)
      ensures M.AllocationDebt(old(context.metrics.inner)) <= 0.0 ==> context.View() == old(context.View())
      ensures M.AllocationDebt(context.metrics.inner) <= 0.0 || EndsCycle(steps, StopAt.FinishCycle)
    {
      steps := context.DoCollection(root, PayDebt, StopAt.FinishCycle);
    }

    /** Ends asleep; a cycle that starts asleep keeps exactly what is reachable. */
    method FinishCycle() returns (ghost steps: seq<R.Step>)
      requires Valid()
      modifies context, context.metrics
      ensures Valid() && context.phase.Sleep?
      ensures Collects(old(context.View()), root, steps, context.View(), Stop, StopAt.FinishCycle)
      ensures old(context.phase).Sleep? ==> C.Exact(old(context.View()), root, context.View())
    {
      steps := context.DoCollection(root, Stop, StopAt.FinishCycle);
    }

    /** From the fully marked arena straight to the sweep. */
    method StartSweeping() returns (ghost steps: seq<R.Step>)
      requires Valid() && Marked(context.View())
      modifies context, context.metrics
      ensures Valid() && context.phase.Sweep?
      ensures Collects(old(context.View()), root, steps, context.View(), Stop, AtSweep)
    {
      steps := context.DoCollection(root, Stop, AtSweep);
      assert context.phase == Sweep;
    }
  }
}
