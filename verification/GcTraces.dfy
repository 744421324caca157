/**
 * What the trace counters count: the black objects that need tracing, and the untraced objects
 * that were resurrected in this cycle, less the untraced objects a barrier has turned gray.
 */
module GcTraces {
  import opened Prelude
  import opened GcTypes
  import opened GcSpec
  import opened GcInvariant
  import opened GcRuns
  import opened GcLedger
  import M = GcMetrics

  function One(b: GcBox): int { 1 }
  function IdleGray(b: GcBox): int { if b.color.Gray? && !b.needsTrace then 1 else 0 }
  function IdleGrayBytes(b: GcBox): int { if b.color.Gray? && !b.needsTrace then b.size else 0 }

  /** The sum over the boxes of a list that are in the set. */
  function SumIn(f: GcBox -> int, h: Heap, l: seq<Ptr>, lifted: set<Ptr>): int {
    if l == [] then 0 else (if l[0] in h && l[0] in lifted then f(h[l[0]]) else 0) + SumIn(f, h, l[1..], lifted)
  }

  lemma {:induction false} SumInSame(f: GcBox -> int, h: Heap, k: Heap, l: seq<Ptr>, lifted: set<Ptr>)
    requires forall p :: p in l ==> p in h && p in k && f(h[p]) == f(k[p])
    ensures SumIn(f, h, l, lifted) == SumIn(f, k, l, lifted)
    decreases |l|
  {
    if l != [] {
      assert l[0] in l;
      SumInSame(f, h, k, l[1..], lifted);
    }
  }

  lemma {:induction false} SumInOutside(f: GcBox -> int, h: Heap, l: seq<Ptr>, lifted: set<Ptr>, p: Ptr)
    requires p !in l
    ensures SumIn(f, h, l, lifted + {p}) == SumIn(f, h, l, lifted)
    decreases |l|
  {
    if l != [] { SumInOutside(f, h, l[1..], lifted, p); }
  }

  lemma {:induction false} SumInMore(f: GcBox -> int, h: Heap, l: seq<Ptr>, lifted: set<Ptr>, p: Ptr)
    requires NoDup(l) && p in l && p in h && p !in lifted
    ensures SumIn(f, h, l, lifted + {p}) == SumIn(f, h, l, lifted) + f(h[p])
    decreases |l|
  {
    if l[0] == p {
      SumInOutside(f, h, l[1..], lifted, p);
    } else {
      SumInMore(f, h, l[1..], lifted, p);
    }
  }

  lemma {:induction false} SumInNone(f: GcBox -> int, h: Heap, l: seq<Ptr>)
    ensures SumIn(f, h, l, {}) == 0
    decreases |l|
  {
    if l != [] { SumInNone(f, h, l[1..]); }
  }

  // ----- the balance -----

  ghost predicate Balanced(h: Heap, l: seq<Ptr>, m: M.Counters, lifted: set<Ptr>) {
    && m.tracedGcs == Sum(TracedBlack, h, l) + SumIn(One, h, l, lifted) - Sum(IdleGray, h, l)
    && m.tracedBytes == Sum(TracedBlackBytes, h, l) + SumIn(Bytes, h, l, lifted) - Sum(IdleGrayBytes, h, l)
  }

  /** Resurrected objects that need no tracing are gray or black. */
  predicate LiftedOk(h: Heap, lifted: set<Ptr>) {
    forall p :: p in lifted ==> p in h && !h[p].needsTrace && !Uncolored(h[p].color)
  }

  ghost predicate Kept(h: Heap, l: seq<Ptr>, m: M.Counters, lifted: set<Ptr>) {
    Covers(h, l) && Balanced(h, l, m, lifted) && LiftedOk(h, lifted)
  }

  /** A box changes color. */
  lemma ColorShifts(h: Heap, l: seq<Ptr>, p: Ptr, c: Color, lifted: set<Ptr>)
    requires Covers(h, l) && p in h && LiftedOk(h, lifted) && !(Uncolored(c) && !Uncolored(h[p].color))
    ensures var k := SetColor(h, p, c);
      && Covers(k, l) && LiftedOk(k, lifted)
      && Sum(TracedBlack, k, l) == Sum(TracedBlack, h, l) - TracedBlack(h[p]) + TracedBlack(k[p])
      && Sum(TracedBlackBytes, k, l) == Sum(TracedBlackBytes, h, l) - TracedBlackBytes(h[p]) + TracedBlackBytes(k[p])
      && Sum(IdleGray, k, l) == Sum(IdleGray, h, l) - IdleGray(h[p]) + IdleGray(k[p])
      && Sum(IdleGrayBytes, k, l) == Sum(IdleGrayBytes, h, l) - IdleGrayBytes(h[p]) + IdleGrayBytes(k[p])
      && SumIn(One, k, l, lifted) == SumIn(One, h, l, lifted)
      && SumIn(Bytes, k, l, lifted) == SumIn(Bytes, h, l, lifted)
  {
    var k := SetColor(h, p, c);
    OneColorSums(h, k, l, p, c);
    SumAt(IdleGray, h, k, l, p);
    SumAt(IdleGrayBytes, h, k, l, p);
    SumInSame(One, h, k, l, lifted);
    SumInSame(Bytes, h, k, l, lifted);
  }

  lemma TraceKept(s: State, p: Ptr, l: seq<Ptr>, lifted: set<Ptr>)
    requires Kept(s.heap, l, s.m, lifted) && p in s.heap
    ensures Kept(Trace(s, p).heap, l, Trace(s, p).m, lifted)
  {
    if Uncolored(s.heap[p].color) { ColorShifts(s.heap, l, p, if s.heap[p].needsTrace then Gray else Black, lifted); }
  }

  lemma TraceWeakKept(s: State, p: Ptr, l: seq<Ptr>, lifted: set<Ptr>)
    requires Kept(s.heap, l, s.m, lifted) && p in s.heap
    ensures Kept(TraceWeak(s, p).heap, l, TraceWeak(s, p).m, lifted)
  {
    if s.heap[p].color.White? { ColorShifts(s.heap, l, p, WhiteWeak, lifted); }
  }

  lemma {:induction false} TraceEdgesKept(s: State, es: seq<Edge>, l: seq<Ptr>, lifted: set<Ptr>)
    requires Kept(s.heap, l, s.m, lifted) && EdgesIn(s.heap, es)
    ensures Kept(TraceEdges(s, es).heap, l, TraceEdges(s, es).m, lifted)
    decreases |es|
  {
    if es != [] {
      match es[0] {
        case Strong(p) => TraceKept(s, p, l, lifted);
        case Weak(p) => TraceWeakKept(s, p, l, lifted);
      }
      TraceEdgesKept(TraceEdge(s, es[0]), es[1..], l, lifted);
    }
  }

  lemma MarkOneKept(s: State, root: seq<Edge>, l: seq<Ptr>, lifted: set<Ptr>)
    requires Kept(s.heap, l, s.m, lifted) && MarkReady(s, root)
    requires Popped(s).Some? ==> ColorIs(s, Popped(s).value, Gray)
    ensures Kept(MarkOne(s, root).heap, l, MarkOne(s, root).m, lifted)
  {
    match Popped(s)
    case Some(p) =>
      ColorShifts(s.heap, l, p, Black, lifted);
      TraceEdgesKept(Blacken(s), s.heap[p].edges, l, lifted);
    case None =>
      if s.rootNeedsTrace { TraceEdgesKept(s, root, l, lifted); }
  }

  lemma MakeGrayAgainKept(s: State, p: Ptr, l: seq<Ptr>, lifted: set<Ptr>)
    requires Kept(s.heap, l, s.m, lifted) && ColorIs(s, p, Black)
    ensures Kept(MakeGrayAgain(s, p).heap, l, MakeGrayAgain(s, p).m, lifted)
  {
    ColorShifts(s.heap, l, p, Gray, lifted);
  }

  /** A resurrected object that needs no tracing is one more to be counted. */
  function Lifted(s: State, p: Ptr, lifted: set<Ptr>): set<Ptr> {
    if p in s.heap && Uncolored(s.heap[p].color) && !s.heap[p].needsTrace then lifted + {p} else lifted
  }

  lemma LiftMore(k: Heap, l: seq<Ptr>, p: Ptr, lifted: set<Ptr>)
    requires Covers(k, l) && LiftedOk(k, lifted) && p in k && !k[p].needsTrace && k[p].color.Gray? && p !in lifted
    ensures LiftedOk(k, lifted + {p})
    ensures SumIn(One, k, l, lifted + {p}) == SumIn(One, k, l, lifted) + 1
    ensures SumIn(Bytes, k, l, lifted + {p}) == SumIn(Bytes, k, l, lifted) + Bytes(k[p])
  {
    SumInMore(One, k, l, lifted, p);
    SumInMore(Bytes, k, l, lifted, p);
  }

  lemma ResurrectKept(s: State, p: Ptr, l: seq<Ptr>, lifted: set<Ptr>)
    requires Kept(s.heap, l, s.m, lifted) && p in s.heap
    ensures Kept(Resurrect(s, p).heap, l, Resurrect(s, p).m, Lifted(s, p, lifted))
  {
    if Uncolored(s.heap[p].color) {
      var k := SetColor(s.heap, p, Gray);
      ColorShifts(s.heap, l, p, Gray, lifted);
      if !s.heap[p].needsTrace { LiftMore(k, l, p, lifted); }
    }
  }

  lemma AllocateKept(s: State, l: seq<Ptr>, lifted: set<Ptr>, p: Ptr, size: nat, needsTrace: bool, value: seq<Edge>)
    requires Kept(s.heap, l, s.m, lifted) && p !in s.heap
    ensures var t := Allocate(s, p, size, needsTrace, value); Kept(t.heap, [p] + l, t.m, lifted)
  {
    var t := Allocate(s, p, size, needsTrace, value);
    SumsSame(s.heap, t.heap, l, lifted);
    assert ([p] + l)[1..] == l;
  }

  lemma SumsSame(h: Heap, k: Heap, l: seq<Ptr>, lifted: set<Ptr>)
    requires forall q :: q in l ==> (q in h && q in k
      && h[q].color == k[q].color && h[q].size == k[q].size && h[q].needsTrace == k[q].needsTrace)
    ensures Sum(TracedBlack, h, l) == Sum(TracedBlack, k, l)
    ensures Sum(TracedBlackBytes, h, l) == Sum(TracedBlackBytes, k, l)
    ensures Sum(IdleGray, h, l) == Sum(IdleGray, k, l) && Sum(IdleGrayBytes, h, l) == Sum(IdleGrayBytes, k, l)
    ensures SumIn(One, h, l, lifted) == SumIn(One, k, l, lifted)
    ensures SumIn(Bytes, h, l, lifted) == SumIn(Bytes, k, l, lifted)
  {
    SameMarks(h, k, l);
    SumSame(IdleGray, h, k, l);
    SumSame(IdleGrayBytes, h, k, l);
    SumInSame(One, h, k, l, lifted);
    SumInSame(Bytes, h, k, l, lifted);
  }

  lemma StoreKept(s: State, l: seq<Ptr>, lifted: set<Ptr>, p: Ptr, value: seq<Edge>)
    requires Kept(s.heap, l, s.m, lifted) && p in s.heap
    ensures Kept(Store(s, p, value).heap, l, Store(s, p, value).m, lifted)
  {
    SumsSame(s.heap, Store(s, p, value).heap, l, lifted);
  }

  // ----- runs -----

  /** The untraced objects resurrected since the cycle began. */
  function LiftedNext(w: World, st: Step, lifted: set<Ptr>): set<Ptr>
    requires Enabled(w, st)
  {
    match st
    case WakeUp => {}
    case ResurrectStrong(p) => Lifted(w.s, p, lifted)
    case ResurrectWeak(p) => if w.s.heap[p].live then Lifted(w.s, p, lifted) else lifted
    case _ => lifted
  }

  function LiftedBy(w: World, steps: seq<Step>, lifted: set<Ptr>): set<Ptr>
    requires Runs(w, steps)
    decreases |steps|
  {
    if steps == [] then lifted else LiftedBy(Do(w, steps[0]), steps[1..], LiftedNext(w, steps[0], lifted))
  }

  ghost predicate KeptIn(s: State, l: seq<Ptr>, lifted: set<Ptr>) {
    s.phase.Mark? ==> Kept(s.heap, l, s.m, lifted)
  }

  lemma BarrierKept(w: World, st: Step, l: seq<Ptr>, lifted: set<Ptr>)
    requires w.s.phase.Mark? && Enabled(w, st) && Kept(w.s.heap, l, w.s.m, lifted)
    requires st.Backward? || st.BackwardWeak? || st.Forward? || st.ForwardWeak? || st.ResurrectStrong?
      || st.ResurrectWeak?
    ensures Kept(Do(w, st).s.heap, l, Do(w, st).s.m, LiftedNext(w, st, lifted))
  {
    var s := w.s;
    match st {
      case Backward(parent, any) =>
        if BackwardFires(s, parent, any) { MakeGrayAgainKept(s, parent, l, lifted); }
      case BackwardWeak(parent, child) =>
        if ColorIs(s, parent, Black) && ColorIs(s, child, White) { MakeGrayAgainKept(s, parent, l, lifted); }
      case Forward(from, child) =>
        if ForwardFires(s, from) { TraceKept(s, child, l, lifted); }
      case ForwardWeak(from, child) =>
        if ForwardFires(s, from) { TraceWeakKept(s, child, l, lifted); }
      case ResurrectStrong(p) => ResurrectKept(s, p, l, lifted);
      case ResurrectWeak(p) => if s.heap[p].live { ResurrectKept(s, p, l, lifted); }
    }
  }

  lemma WakeKept(s: State, root: seq<Edge>, l: seq<Ptr>)
    requires Inv(s, root, l, []) && s.phase.Sleep? && Ledger(s, l, [])
    ensures Kept(s.heap, l, s.m, {})
  {
    assert l + [] == l;
    WhiteSums(s.heap, l);
    IdleSums(s.heap, l);
    SumInNone(One, s.heap, l);
    SumInNone(Bytes, s.heap, l);
  }

  lemma {:induction false} IdleSums(h: Heap, l: seq<Ptr>)
    requires AllWhite(h, l)
    ensures Sum(IdleGray, h, l) == Sum(IdleGrayBytes, h, l) == 0
    decreases |l|
  {
    if l != [] {
      assert l[0] in l;
      IdleSums(h, l[1..]);
    }
  }

  lemma MarkStepKept(w: World, kept: seq<Ptr>, todo: seq<Ptr>, lifted: set<Ptr>)
    requires WorldInv(w, kept, todo) && Enabled(w, MarkStep) && KeptIn(w.s, kept, lifted)
    ensures KeptIn(Do(w, MarkStep).s, kept, lifted)
  {
    MarkOneReady(w.s, w.root, kept);
    MarkOneKept(w.s, w.root, kept, lifted);
  }

  predicate Quiet(st: Step) {
    st.Enter? || st.Leave? || st.LoadRoot? || st.Load? || st.Downgrade? || st.TryUpgrade? || st.WriteRoot?
      || st.SetPacing?
  }

  lemma QuietKept(w: World, st: Step, l: seq<Ptr>, lifted: set<Ptr>)
    requires Enabled(w, st) && Quiet(st) && KeptIn(w.s, l, lifted)
    ensures KeptIn(Do(w, st).s, l, lifted)
  {
  }

  /** Only waking up begins to mark. */
  lemma StaysUnmarked(w: World, st: Step)
    requires Enabled(w, st) && !w.s.phase.Mark? && !st.WakeUp?
    ensures !Do(w, st).s.phase.Mark?
  {
    if st.SweepStep? { assert !SweepOne(w.s).phase.Mark?; }
  }

  lemma StepKept(w: World, st: Step, kept: seq<Ptr>, todo: seq<Ptr>, lifted: set<Ptr>)
    requires WorldInv(w, kept, todo) && Enabled(w, st) && Ledger(w.s, kept, todo) && KeptIn(w.s, kept, lifted)
    ensures KeptIn(Do(w, st).s, KeptNext(w, st, kept, todo), LiftedNext(w, st, lifted))
  {
    if st.WakeUp? {
      WakeKept(w.s, w.root, kept);
    } else if !w.s.phase.Mark? {
      StaysUnmarked(w, st);
    } else if st.Alloc? {
      AllocateKept(w.s, kept, lifted, st.p, st.size, st.needsTrace, st.value);
    } else if st.Write? {
      StoreKept(w.s, kept, lifted, st.p, st.value);
    } else if st.MarkStep? {
      MarkStepKept(w, kept, todo, lifted);
    } else if Quiet(st) {
      QuietKept(w, st, kept, lifted);
    } else if !st.BeginSweep? {
      BarrierKept(w, st, kept, lifted);
    }
  }

  lemma {:induction false} RunKept(w: World, steps: seq<Step>, kept: seq<Ptr>, todo: seq<Ptr>, lifted: set<Ptr>)
    returns (kept': seq<Ptr>, todo': seq<Ptr>)
    requires WorldInv(w, kept, todo) && Runs(w, steps) && Ledger(w.s, kept, todo) && KeptIn(w.s, kept, lifted)
    ensures WorldInv(After(w, steps), kept', todo') && KeptIn(After(w, steps).s, kept', LiftedBy(w, steps, lifted))
    decreases |steps|
  {
    if steps == [] {
      kept', todo' := kept, todo;
    } else {
      StepKeeps(w, steps[0], kept, todo);
      StepLedger(w, steps[0], kept, todo);
      StepKept(w, steps[0], kept, todo, lifted);
      kept', todo' := RunKept(Do(w, steps[0]), steps[1..],
        KeptNext(w, steps[0], kept, todo), TodoNext(steps[0], kept, todo), LiftedNext(w, steps[0], lifted));
    }
  }

  /** The balance of the trace counters at every point of a run where marking is under way. */
  lemma TraceBalance(steps: seq<Step>) returns (l: seq<Ptr>)
    requires Runs(START, steps) && After(START, steps).s.phase.Mark?
    ensures var s := After(START, steps).s;
      IsList(s.heap, s.all, l) && Kept(s.heap, l, s.m, LiftedBy(START, steps, {}))
  {
    InitialInv();
    var kept, todo := RunKept(START, steps, [], [], {});
    l := kept;
    assert kept + [] == kept;
  }

  /** A backward barrier that turns its parent gray. */
  predicate Fires(w: World, st: Step) {
    match st
    case Backward(parent, any) => BackwardFires(w.s, parent, any)
    case BackwardWeak(parent, child) => w.s.phase.Mark? && ColorIs(w.s, parent, Black) && ColorIs(w.s, child, White)
    case _ => false
  }

  /**
   * After any run, a barrier that fires takes the trace counters below zero if and only if the
   * untraced objects that are gray outweigh what has been traced and resurrected: in number, or,
   * together with the parent, in bytes.
   */
  lemma UnderflowExactly(steps: seq<Step>, st: Step) returns (l: seq<Ptr>)
    requires Runs(START, steps) && Enabled(After(START, steps), st) && Fires(After(START, steps), st)
    ensures var w, lifted := After(START, steps), LiftedBy(START, steps, {});
      var h, m := w.s.heap, Do(w, st).s.m;
      && IsList(h, w.s.all, l)
      && (m.tracedGcs < 0 <==> Sum(TracedBlack, h, l) + SumIn(One, h, l, lifted) <= Sum(IdleGray, h, l))
      && (m.tracedBytes < 0 <==>
            Sum(TracedBlackBytes, h, l) + SumIn(Bytes, h, l, lifted) < Sum(IdleGrayBytes, h, l) + h[st.parent].size)
  {
    l := TraceBalance(steps);
  }
}
