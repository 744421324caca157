/**
 * The counters agree with the heap: totals with the list, marks with the colors, and the work
 * credited in a cycle with the bytes it dealt with.
 */
module GcLedger {
  import opened Prelude
  import opened GcTypes
  import opened GcSpec
  import opened GcInvariant
  import opened GcSweep
  import opened GcRuns
  import M = GcMetrics

  // ----- sums over the list -----

  function Sum(f: GcBox -> int, h: Heap, l: seq<Ptr>): int {
    if l == [] then 0 else (if l[0] in h then f(h[l[0]]) else 0) + Sum(f, h, l[1..])
  }

  lemma {:induction false} SumSame(f: GcBox -> int, h: Heap, k: Heap, l: seq<Ptr>)
    requires forall p :: p in l ==> p in h && p in k && f(h[p]) == f(k[p])
    ensures Sum(f, h, l) == Sum(f, k, l)
    decreases |l|
  {
    if l != [] {
      assert l[0] in l;
      SumSame(f, h, k, l[1..]);
    }
  }

  lemma {:induction false} SumAt(f: GcBox -> int, h: Heap, k: Heap, l: seq<Ptr>, p: Ptr)
    requires NoDup(l) && p in l && p in h && p in k
    requires forall q :: q in l && q != p ==> q in h && q in k && f(h[q]) == f(k[q])
    ensures Sum(f, k, l) == Sum(f, h, l) - f(h[p]) + f(k[p])
    decreases |l|
  {
    assert l[0] in l;
    if l[0] == p {
      forall q | q in l[1..] ensures q != p {}
      SumSame(f, h, k, l[1..]);
    } else {
      SumAt(f, h, k, l[1..], p);
    }
  }

  lemma {:induction false} SumConcat(f: GcBox -> int, h: Heap, a: seq<Ptr>, b: seq<Ptr>)
    ensures Sum(f, h, a + b) == Sum(f, h, a) + Sum(f, h, b)
    decreases |a|
  {
    if a == [] {
      assert a + b == b;
    } else {
      assert (a + b)[1..] == a[1..] + b;
      SumConcat(f, h, a[1..], b);
    }
  }

  lemma {:induction false} SumBetween(f: GcBox -> int, g: GcBox -> int, h: Heap, l: seq<Ptr>)
    requires forall b :: 0 <= f(b) <= g(b)
    ensures 0 <= Sum(f, h, l) <= Sum(g, h, l)
    decreases |l|
  {
    if l != [] { SumBetween(f, g, h, l[1..]); }
  }

  function Bytes(b: GcBox): int { b.size }
  function Marks(b: GcBox): int { if b.color.White? then 0 else 1 }
  function MarkedBytes(b: GcBox): int { if b.color.White? then 0 else b.size }
  function BlackBytes(b: GcBox): int { if b.color.Black? then b.size else 0 }
  function TracedBlack(b: GcBox): int { if b.color.Black? && b.needsTrace then 1 else 0 }
  function TracedBlackBytes(b: GcBox): int { if b.color.Black? && b.needsTrace then b.size else 0 }

  // ----- the ledger -----

  ghost predicate Totals(s: State, l: seq<Ptr>) {
    s.m.totalGcs == |l| && s.m.totalBytes == Sum(Bytes, s.heap, l)
  }

  predicate NothingSwept(m: M.Counters) {
    m.rememberedGcs == m.rememberedBytes == m.droppedBytes == m.freedBytes == 0
  }

  ghost predicate MarkLedger(h: Heap, l: seq<Ptr>, m: M.Counters) {
    && NothingSwept(m)
    && m.markedGcs == Sum(Marks, h, l) && m.markedBytes == Sum(MarkedBytes, h, l)
    && m.tracedBytes <= Sum(BlackBytes, h, l)
  }

  function Pos(x: int): nat {
    if x < 0 then 0 else x
  }

  /**
   * During the sweep: marks are split between remembered boxes and those still to sweep, and
   * the remembered bytes can be split so that one part covers the drops of boxes that were not
   * freed and the other the traces of boxes already swept.
   */
  ghost predicate SweepLedger(h: Heap, kept: seq<Ptr>, todo: seq<Ptr>, m: M.Counters) {
    && 0 <= m.rememberedGcs && 0 <= m.rememberedBytes <= Sum(Bytes, h, kept)
    && m.droppedBytes >= 0 && m.freedBytes >= 0
    && m.markedBytes == m.rememberedBytes + Sum(MarkedBytes, h, todo)
    && m.markedGcs == m.rememberedGcs + Sum(Marks, h, todo)
    && Pos(m.droppedBytes - m.freedBytes) + Pos(m.tracedBytes - Sum(BlackBytes, h, todo)) <= m.rememberedBytes
  }

  ghost predicate Ledger(s: State, kept: seq<Ptr>, todo: seq<Ptr>) {
    && Totals(s, kept + todo)
    && match s.phase
       case Sleep => NothingSwept(s.m) && s.m.markedGcs == s.m.markedBytes == s.m.tracedBytes == s.m.tracedGcs == 0
       case Mark => MarkLedger(s.heap, kept, s.m)
       case Sweep => SweepLedger(s.heap, kept, todo, s.m)
       case Drop => false
  }

  // ----- one box changes color -----

  /** Only box `p` changes, and only its color. */
  ghost predicate OneColor(h: Heap, k: Heap, p: Ptr, c: Color) {
    p in h && k == SetColor(h, p, c)
  }

  lemma OneColorSums(h: Heap, k: Heap, l: seq<Ptr>, p: Ptr, c: Color)
    requires NoDup(l) && p in l && OneColor(h, k, p, c) && forall q :: q in l ==> q in h
    ensures Sum(Bytes, k, l) == Sum(Bytes, h, l)
    ensures Sum(Marks, k, l) == Sum(Marks, h, l) - Marks(h[p]) + Marks(k[p])
    ensures Sum(MarkedBytes, k, l) == Sum(MarkedBytes, h, l) - MarkedBytes(h[p]) + MarkedBytes(k[p])
    ensures Sum(BlackBytes, k, l) == Sum(BlackBytes, h, l) - BlackBytes(h[p]) + BlackBytes(k[p])
    ensures Sum(TracedBlack, k, l) == Sum(TracedBlack, h, l) - TracedBlack(h[p]) + TracedBlack(k[p])
    ensures Sum(TracedBlackBytes, k, l) == Sum(TracedBlackBytes, h, l) - TracedBlackBytes(h[p]) + TracedBlackBytes(k[p])
  {
    SumAt(Bytes, h, k, l, p);
    SumAt(Marks, h, k, l, p);
    SumAt(MarkedBytes, h, k, l, p);
    SumAt(BlackBytes, h, k, l, p);
    SumAt(TracedBlack, h, k, l, p);
    SumAt(TracedBlackBytes, h, k, l, p);
  }

  /** The marking ledger, with the lower bound on traces that barriers on traceable parents keep. */
  ghost predicate Marks2(h: Heap, l: seq<Ptr>, m: M.Counters) {
    MarkLedger(h, l, m) && m.totalBytes == Sum(Bytes, h, l)
  }

  ghost predicate TracedEnough(h: Heap, l: seq<Ptr>, m: M.Counters) {
    m.tracedGcs >= Sum(TracedBlack, h, l) && m.tracedBytes >= Sum(TracedBlackBytes, h, l)
  }

  /** The counters of traced objects count at least the traced black ones. */
  ghost predicate TracedOk(s: State, kept: seq<Ptr>) {
    match s.phase
    case Mark => TracedEnough(s.heap, kept, s.m)
    case _ => s.m.tracedGcs >= 0 && s.m.tracedBytes >= 0
  }

  /** Everything the list contains is in the heap, once. */
  ghost predicate Covers(h: Heap, l: seq<Ptr>) {
    NoDup(l) && forall q :: q in l <==> q in h
  }

  lemma TraceLedger(s: State, p: Ptr, l: seq<Ptr>)
    requires Covers(s.heap, l) && p in s.heap && Marks2(s.heap, l, s.m)
    ensures var t := Trace(s, p);
      Covers(t.heap, l) && Marks2(t.heap, l, t.m) && t.m.totalGcs == s.m.totalGcs
      && (TracedEnough(s.heap, l, s.m) ==> TracedEnough(t.heap, l, t.m))
  {
    var t := Trace(s, p);
    if Uncolored(s.heap[p].color) {
      OneColorSums(s.heap, t.heap, l, p, t.heap[p].color);
    }
  }

  lemma TraceWeakLedger(s: State, p: Ptr, l: seq<Ptr>)
    requires Covers(s.heap, l) && p in s.heap && Marks2(s.heap, l, s.m)
    ensures var t := TraceWeak(s, p);
      Covers(t.heap, l) && Marks2(t.heap, l, t.m) && t.m.totalGcs == s.m.totalGcs
      && (TracedEnough(s.heap, l, s.m) ==> TracedEnough(t.heap, l, t.m))
  {
    var t := TraceWeak(s, p);
    if s.heap[p].color.White? {
      OneColorSums(s.heap, t.heap, l, p, t.heap[p].color);
    }
  }

  lemma {:induction false} TraceEdgesLedger(s: State, es: seq<Edge>, l: seq<Ptr>)
    requires Covers(s.heap, l) && EdgesIn(s.heap, es) && Marks2(s.heap, l, s.m)
    ensures var t := TraceEdges(s, es);
      Covers(t.heap, l) && Marks2(t.heap, l, t.m) && t.m.totalGcs == s.m.totalGcs && t.phase == s.phase
      && (TracedEnough(s.heap, l, s.m) ==> TracedEnough(t.heap, l, t.m))
    decreases |es|
  {
    if es != [] {
      match es[0] {
        case Strong(p) => TraceLedger(s, p, l);
        case Weak(p) => TraceWeakLedger(s, p, l);
      }
      TraceEdgesLedger(TraceEdge(s, es[0]), es[1..], l);
    }
  }

  lemma BlackenLedger(s: State, l: seq<Ptr>)
    requires Covers(s.heap, l) && Popped(s).Some? && ColorIs(s, Popped(s).value, Gray) && Marks2(s.heap, l, s.m)
    ensures var t := Blacken(s);
      Covers(t.heap, l) && Marks2(t.heap, l, t.m) && t.m.totalGcs == s.m.totalGcs
      && (TracedEnough(s.heap, l, s.m) ==> TracedEnough(t.heap, l, t.m))
  {
    OneColorSums(s.heap, Blacken(s).heap, l, Popped(s).value, Black);
  }

  lemma MakeGrayAgainLedger(s: State, p: Ptr, l: seq<Ptr>)
    requires Covers(s.heap, l) && ColorIs(s, p, Black) && Marks2(s.heap, l, s.m)
    ensures var t := MakeGrayAgain(s, p);
      Covers(t.heap, l) && Marks2(t.heap, l, t.m) && t.m.totalGcs == s.m.totalGcs
      && (s.heap[p].needsTrace && TracedEnough(s.heap, l, s.m) ==> TracedEnough(t.heap, l, t.m))
  {
    OneColorSums(s.heap, MakeGrayAgain(s, p).heap, l, p, Gray);
  }

  lemma ResurrectLedger(s: State, p: Ptr, l: seq<Ptr>)
    requires Covers(s.heap, l) && p in s.heap && Marks2(s.heap, l, s.m)
    ensures var t := Resurrect(s, p);
      Covers(t.heap, l) && Marks2(t.heap, l, t.m) && t.m.totalGcs == s.m.totalGcs
      && (TracedEnough(s.heap, l, s.m) ==> TracedEnough(t.heap, l, t.m))
  {
    if Uncolored(s.heap[p].color) {
      OneColorSums(s.heap, Resurrect(s, p).heap, l, p, Gray);
    }
  }

  lemma MarkOneLedger(s: State, root: seq<Edge>, kept: seq<Ptr>)
    requires Inv(s, root, kept, []) && s.phase.Mark? && Ledger(s, kept, []) && MarkReady(s, root)
    ensures var t := MarkOne(s, root);
      Ledger(t, kept, []) && (TracedEnough(s.heap, kept, s.m) ==> TracedEnough(t.heap, kept, t.m))
  {
    MarkOneReady(s, root, kept);
    assert kept + [] == kept;
    match Popped(s)
    case Some(p) =>
      BlackenLedger(s, kept);
      TraceEdgesLedger(Blacken(s), s.heap[p].edges, kept);
    case None =>
      if s.rootNeedsTrace { TraceEdgesLedger(s, root, kept); }
  }

  // ----- allocation and storing -----

  lemma AllocateSums(s: State, kept: seq<Ptr>, todo: seq<Ptr>, p: Ptr, b: GcBox)
    requires Covers(s.heap, kept + todo) && p !in s.heap && b.color.White?
    ensures var k := s.heap[p := b];
      && Sum(Bytes, k, [p] + kept + todo) == b.size + Sum(Bytes, s.heap, kept + todo)
      && Sum(Bytes, k, [p] + kept) == b.size + Sum(Bytes, s.heap, kept)
      && Sum(Marks, k, [p] + kept) == Sum(Marks, s.heap, kept) && Sum(Marks, k, todo) == Sum(Marks, s.heap, todo)
      && Sum(MarkedBytes, k, [p] + kept) == Sum(MarkedBytes, s.heap, kept)
      && Sum(MarkedBytes, k, todo) == Sum(MarkedBytes, s.heap, todo)
      && Sum(BlackBytes, k, [p] + kept) == Sum(BlackBytes, s.heap, kept)
      && Sum(BlackBytes, k, todo) == Sum(BlackBytes, s.heap, todo)
      && Sum(TracedBlack, k, [p] + kept) == Sum(TracedBlack, s.heap, kept)
      && Sum(TracedBlackBytes, k, [p] + kept) == Sum(TracedBlackBytes, s.heap, kept)
  {
    var k := s.heap[p := b];
    assert [p] + kept + todo == [p] + (kept + todo);
    assert forall q :: q in kept || q in todo ==> q in kept + todo;
    SumSame(Bytes, s.heap, k, kept + todo);
    SameMarks(s.heap, k, kept);
    SameMarks(s.heap, k, todo);
  }

  lemma AllocateLedger(s: State, root: seq<Edge>, kept: seq<Ptr>, todo: seq<Ptr>, p: Ptr, size: nat, needsTrace: bool,
    value: seq<Edge>)
    requires Inv(s, root, kept, todo) && p !in s.heap && Ledger(s, kept, todo)
    ensures var t := Allocate(s, p, size, needsTrace, value);
      Ledger(t, [p] + kept, todo) && (TracedOk(s, kept) ==> TracedOk(t, [p] + kept))
  {
    var t := Allocate(s, p, size, needsTrace, value);
    assert kept + [] == kept;
    AllocateSums(s, kept, todo, p, t.heap[p]);
  }

  lemma SameMarks(h: Heap, k: Heap, l: seq<Ptr>)
    requires forall q :: q in l ==> (q in h && q in k
      && h[q].color == k[q].color && h[q].size == k[q].size && h[q].needsTrace == k[q].needsTrace)
    ensures Sum(Bytes, h, l) == Sum(Bytes, k, l)
    ensures Sum(Marks, h, l) == Sum(Marks, k, l)
    ensures Sum(MarkedBytes, h, l) == Sum(MarkedBytes, k, l)
    ensures Sum(BlackBytes, h, l) == Sum(BlackBytes, k, l)
    ensures Sum(TracedBlack, h, l) == Sum(TracedBlack, k, l)
    ensures Sum(TracedBlackBytes, h, l) == Sum(TracedBlackBytes, k, l)
  {
    SumSame(Bytes, h, k, l);
    SumSame(Marks, h, k, l);
    SumSame(MarkedBytes, h, k, l);
    SumSame(BlackBytes, h, k, l);
    SumSame(TracedBlack, h, k, l);
    SumSame(TracedBlackBytes, h, k, l);
  }

  lemma StoreLedger(s: State, root: seq<Edge>, kept: seq<Ptr>, todo: seq<Ptr>, p: Ptr, value: seq<Edge>)
    requires Inv(s, root, kept, todo) && p in s.heap && Ledger(s, kept, todo)
    ensures var t := Store(s, p, value);
      Ledger(t, kept, todo) && (TracedOk(s, kept) ==> TracedOk(t, kept))
  {
    var t := Store(s, p, value);
    assert forall q :: q in kept || q in todo ==> q in kept + todo;
    SameMarks(s.heap, t.heap, kept + todo);
    SameMarks(s.heap, t.heap, kept);
    SameMarks(s.heap, t.heap, todo);
  }

  // ----- sweeping -----

  lemma StartSweepLedger(s: State, root: seq<Edge>, kept: seq<Ptr>)
    requires Inv(s, root, kept, []) && Marked(s) && Ledger(s, kept, [])
    ensures Ledger(StartSweep(s), [], kept)
  {
    assert kept + [] == kept && [] + kept == kept;
  }

  /** What a sweep step does to the counters. */
  function SweptCounters(m: M.Counters, b: GcBox): M.Counters {
    match b.color
    case White => M.OnFreed(if b.live then M.OnDropped(m, b.size) else m, b.size)
    case WhiteWeak => M.OnRemembered(if b.live then M.OnDropped(m, b.size) else m, b.size)
    case Black => M.OnRemembered(m, b.size)
    case Gray => m
  }

  lemma SweepOneCounts(s: State)
    requires SweepReady(s)
    ensures SweepOne(s).m == SweptCounters(s.m, s.heap[s.sweep.value]) && SweepOne(s).phase == s.phase
  {
  }

  lemma SweptBytes(h: Heap, k: Heap, kept: seq<Ptr>, todo: seq<Ptr>)
    requires Covers(h, kept + todo) && todo != [] && todo[0] in h && Swept(h, k, todo[0]) && !h[todo[0]].color.Gray?
    requires todo[0] !in kept && todo[0] !in todo[1..]
    ensures Sum(Bytes, k, kept) == Sum(Bytes, h, kept)
    ensures Sum(Bytes, k, todo[1..]) == Sum(Bytes, h, todo) - h[todo[0]].size
  {
    assert forall q :: q in kept || q in todo ==> q in kept + todo;
    SumSame(Bytes, h, k, kept);
    SumSame(Bytes, h, k, todo[1..]);
  }

  lemma SweptKeptBytes(h: Heap, k: Heap, kept: seq<Ptr>, todo: seq<Ptr>)
    requires Covers(h, kept + todo) && todo != [] && todo[0] in h && Swept(h, k, todo[0]) && !h[todo[0]].color.Gray?
    requires todo[0] !in kept && todo[0] !in todo[1..]
    ensures h[todo[0]].color.White? ==> Sum(Bytes, k, kept + todo[1..]) == Sum(Bytes, h, kept + todo) - h[todo[0]].size
    ensures !h[todo[0]].color.White? ==> Sum(Bytes, k, kept + [todo[0]]) == Sum(Bytes, h, kept) + h[todo[0]].size
    ensures !h[todo[0]].color.White? ==> Sum(Bytes, k, kept + [todo[0]] + todo[1..]) == Sum(Bytes, h, kept + todo)
  {
    SweptBytes(h, k, kept, todo);
    SumConcat(Bytes, h, kept, todo);
    SumConcat(Bytes, k, kept, todo[1..]);
    SumConcat(Bytes, k, kept, [todo[0]]);
    SumConcat(Bytes, k, kept + [todo[0]], todo[1..]);
  }

  lemma SweepTodoSums(h: Heap, k: Heap, todo: seq<Ptr>)
    requires todo != [] && todo[0] in h && todo[0] !in todo[1..] && Swept(h, k, todo[0])
    requires forall q :: q in todo ==> q in h
    ensures Sum(Marks, h, todo) == Marks(h[todo[0]]) + Sum(Marks, k, todo[1..])
    ensures Sum(MarkedBytes, h, todo) == MarkedBytes(h[todo[0]]) + Sum(MarkedBytes, k, todo[1..])
    ensures Sum(BlackBytes, h, todo) == BlackBytes(h[todo[0]]) + Sum(BlackBytes, k, todo[1..])
  {
    SameMarks(h, k, todo[1..]);
  }

  lemma SweptLedger(h: Heap, k: Heap, kept: seq<Ptr>, todo: seq<Ptr>, m: M.Counters)
    requires Covers(h, kept + todo) && todo != [] && todo[0] in h && Swept(h, k, todo[0]) && !h[todo[0]].color.Gray?
    requires todo[0] !in kept && todo[0] !in todo[1..]
    requires SweepLedger(h, kept, todo, m)
    ensures SweepLedger(k, if h[todo[0]].color.White? then kept
      else kept + [todo[0]], todo[1..], SweptCounters(m, h[todo[0]]))
  {
    assert forall q :: q in todo ==> q in kept + todo;
    SweepTodoSums(h, k, todo);
    SweptBytes(h, k, kept, todo);
    SweptKeptBytes(h, k, kept, todo);
  }

  lemma SweepOneLedger(s: State, root: seq<Edge>, kept: seq<Ptr>, todo: seq<Ptr>)
    requires Inv(s, root, kept, todo) && s.phase.Sweep? && todo != [] && Ledger(s, kept, todo)
    ensures SweepReady(s) && todo[0] in s.heap
    ensures Ledger(SweepOne(s), KeptAfter(s, kept, todo[0]), todo[1..])
  {
    SweepOneKeeps(s, root, kept, todo);
    SweepFacts(s, kept, todo);
    SweepOneSweeps(s);
    SweepOneCounts(s);
    SweptLedger(s.heap, SweepOne(s).heap, kept, todo, s.m);
    SweptKeptBytes(s.heap, SweepOne(s).heap, kept, todo);
  }

  // ----- every step -----

  /** The object a backward barrier is called on holds pointers, as its callers should see to. */
  predicate Frugal(w: World, st: Step) {
    match st
    case Backward(parent, _) => parent in w.s.heap && w.s.heap[parent].needsTrace
    case BackwardWeak(parent, _) => parent in w.s.heap && w.s.heap[parent].needsTrace
    case _ => true
  }

  lemma BarrierLedger(w: World, st: Step, kept: seq<Ptr>, todo: seq<Ptr>)
    requires WorldInv(w, kept, todo) && Enabled(w, st) && Ledger(w.s, kept, todo)
    requires st.Backward? || st.BackwardWeak? || st.Forward? || st.ForwardWeak? || st.ResurrectStrong?
      || st.ResurrectWeak?
    ensures Ledger(Do(w, st).s, kept, todo)
    ensures Frugal(w, st) && TracedOk(w.s, kept) ==> TracedOk(Do(w, st).s, kept)
  {
    if w.s.phase.Mark? {
      assert kept + [] == kept;
      MarkBarrierLedger(w, st, kept);
    }
  }

  lemma MarkBarrierLedger(w: World, st: Step, l: seq<Ptr>)
    requires w.s.phase.Mark? && Covers(w.s.heap, l) && Enabled(w, st) && Marks2(w.s.heap, l, w.s.m)
    requires st.Backward? || st.BackwardWeak? || st.Forward? || st.ForwardWeak? || st.ResurrectStrong?
      || st.ResurrectWeak?
    ensures var s, t := w.s, Do(w, st).s;
      t.phase.Mark? && Covers(t.heap, l) && Marks2(t.heap, l, t.m) && t.m.totalGcs == s.m.totalGcs
      && (Frugal(w, st) && TracedEnough(s.heap, l, s.m) ==> TracedEnough(t.heap, l, t.m))
  {
    var s := w.s;
    match st {
      case Backward(parent, any) =>
        if BackwardFires(s, parent, any) { MakeGrayAgainLedger(s, parent, l); }
      case BackwardWeak(parent, child) =>
        if ColorIs(s, parent, Black) && ColorIs(s, child, White) { MakeGrayAgainLedger(s, parent, l); }
      case Forward(from, child) =>
        if ForwardFires(s, from) { TraceLedger(s, child, l); }
      case ForwardWeak(from, child) =>
        if ForwardFires(s, from) { TraceWeakLedger(s, child, l); }
      case ResurrectStrong(p) => ResurrectLedger(s, p, l);
      case ResurrectWeak(p) => if s.heap[p].live { ResurrectLedger(s, p, l); }
    }
  }

  lemma QuietLedger(w: World, st: Step, kept: seq<Ptr>, todo: seq<Ptr>)
    requires WorldInv(w, kept, todo) && Enabled(w, st) && Ledger(w.s, kept, todo)
    requires st.Enter? || st.Leave? || st.LoadRoot? || st.Load? || st.Downgrade? || st.TryUpgrade? || st.WriteRoot?
          || st.SetPacing? || st.Finish?
    ensures Ledger(Do(w, st).s, kept, todo)
    ensures TracedOk(w.s, kept) ==> TracedOk(Do(w, st).s, kept)
  {
  }

  lemma MarkStepLedger(w: World, kept: seq<Ptr>)
    requires WorldInv(w, kept, []) && Enabled(w, MarkStep) && Ledger(w.s, kept, [])
    ensures Ledger(MarkOne(w.s, w.root), kept, [])
    ensures TracedOk(w.s, kept) ==> TracedOk(MarkOne(w.s, w.root), kept)
  {
    MarkOneLedger(w.s, w.root, kept);
    MarkOneKeeps(w.s, w.root, kept);
  }

  lemma SweepStepLedger(w: World, kept: seq<Ptr>, todo: seq<Ptr>)
    requires WorldInv(w, kept, todo) && Enabled(w, SweepStep) && Ledger(w.s, kept, todo) && todo != []
    requires todo[0] in w.s.heap
    ensures Ledger(SweepOne(w.s), KeptAfter(w.s, kept, todo[0]), todo[1..])
    ensures TracedOk(w.s, kept) ==> TracedOk(SweepOne(w.s), KeptAfter(w.s, kept, todo[0]))
  {
    SweepOneLedger(w.s, w.root, kept, todo);
    SweepOneCounts(w.s);
  }

  lemma StepLedger(w: World, st: Step, kept: seq<Ptr>, todo: seq<Ptr>)
    requires WorldInv(w, kept, todo) && Enabled(w, st) && Ledger(w.s, kept, todo)
    ensures Ledger(Do(w, st).s, KeptNext(w, st, kept, todo), TodoNext(st, kept, todo))
    ensures Frugal(w, st) && TracedOk(w.s, kept) ==> TracedOk(Do(w, st).s, KeptNext(w, st, kept, todo))
  {
    if st.Alloc? {
      AllocateLedger(w.s, w.root, kept, todo, st.p, st.size, st.needsTrace, st.value);
    } else if st.Write? {
      StoreLedger(w.s, w.root, kept, todo, st.p, st.value);
    } else if st.WakeUp? {
      WakeLedger(w.s, w.root, kept);
    } else if st.MarkStep? {
      MarkStepLedger(w, kept);
    } else if st.BeginSweep? {
      StartSweepLedger(w.s, w.root, kept);
      if TracedOk(w.s, kept) { TracedPositive(w.s, kept); }
    } else if st.SweepStep? {
      SweepStepLedger(w, kept, todo);
    } else if st.Backward? || st.BackwardWeak? || st.Forward? || st.ForwardWeak? || st.ResurrectStrong?
      || st.ResurrectWeak? {
      BarrierLedger(w, st, kept, todo);
    } else {
      QuietLedger(w, st, kept, todo);
    }
  }

  lemma {:induction false} WhiteSums(h: Heap, l: seq<Ptr>)
    requires AllWhite(h, l)
    ensures Sum(Marks, h, l) == Sum(MarkedBytes, h, l) == Sum(BlackBytes, h, l) == Sum(TracedBlack, h, l)
              == Sum(TracedBlackBytes, h, l) == 0
    decreases |l|
  {
    if l != [] {
      assert l[0] in l;
      WhiteSums(h, l[1..]);
    }
  }

  lemma WakeLedger(s: State, root: seq<Edge>, kept: seq<Ptr>)
    requires Inv(s, root, kept, []) && s.phase.Sleep? && Ledger(s, kept, [])
    ensures Ledger(Wake(s), kept, []) && TracedEnough(Wake(s).heap, kept, Wake(s).m)
  {
    WhiteSums(s.heap, kept);
  }

  lemma {:induction false} RunLedger(w: World, steps: seq<Step>, kept: seq<Ptr>, todo: seq<Ptr>)
    returns (kept': seq<Ptr>, todo': seq<Ptr>)
    requires WorldInv(w, kept, todo) && Runs(w, steps) && Ledger(w.s, kept, todo)
    ensures WorldInv(After(w, steps), kept', todo') && Ledger(After(w, steps).s, kept', todo')
    decreases |steps|
  {
    if steps == [] {
      kept', todo' := kept, todo;
    } else {
      StepKeeps(w, steps[0], kept, todo);
      StepLedger(w, steps[0], kept, todo);
      kept', todo' := RunLedger(Do(w, steps[0]), steps[1..],
        KeptNext(w, steps[0], kept, todo), TodoNext(steps[0], kept, todo));
    }
  }

  /**
   * At every point of a run the totals are the length and the size of the list of boxes, and
   * while marking the mark counter is the number of objects that are not white.
   */
  lemma CountsAreExact(steps: seq<Step>) returns (l: seq<Ptr>)
    requires Runs(START, steps)
    ensures var s := After(START, steps).s;
      && IsList(s.heap, s.all, l) && s.m.totalGcs == |l| && s.m.totalBytes == Sum(Bytes, s.heap, l)
      && (s.phase.Mark? ==> s.m.markedGcs == Sum(Marks, s.heap, l) && s.m.markedBytes == Sum(MarkedBytes, s.heap, l))
  {
    InitialInv();
    var kept, todo := RunLedger(START, steps, [], []);
    l := kept + todo;
    assert todo == [] ==> l == kept;
  }

  // ----- the pacing bound -----

  predicate Sensible(p: M.Pacing) {
    p.markFactor >= 0.0 && p.traceFactor >= 0.0 && p.keepFactor >= 0.0 && p.dropFactor >= 0.0 && p.freeFactor >= 0.0
  }

  /** The most work any path of a box through a cycle can be credited, per byte. */
  function Worst(p: M.Pacing): real {
    M.RealMax(p.markFactor + p.traceFactor + p.keepFactor,
      M.RealMax(p.dropFactor + p.freeFactor, p.markFactor + p.dropFactor + p.keepFactor))
  }

  lemma {:induction false} WorkMore(x: int, y: int, f: real)
    requires x <= y && f >= 0.0
    ensures M.Work(x, f) <= M.Work(y, f)
    decreases y - x
  {
    if x < y { WorkMore(x + 1, y, f); }
  }

  lemma {:induction false} WorkSum(x: nat, y: nat, f: real)
    ensures M.Work(x + y, f) == M.Work(x, f) + M.Work(y, f)
    decreases y
  {
    if y > 0 { WorkSum(x, y - 1, f); }
  }

  lemma {:induction false} WorkFactors(x: nat, f: real, g: real, h: real, c: real)
    requires f + g + h <= c
    ensures M.Work(x, f) + M.Work(x, g) + M.Work(x, h) <= M.Work(x, c)
    decreases x
  {
    if x > 0 { WorkFactors(x - 1, f, g, h, c); }
  }

  lemma {:induction false} NoWork(x: nat)
    ensures M.Work(x, 0.0) == 0.0
    decreases x
  {
    if x > 0 { NoWork(x - 1); }
  }

  /** The bytes of all boxes that existed at some point of the current cycle. */
  ghost function CycleBytes(s: State, l: seq<Ptr>): int {
    Sum(Bytes, s.heap, l) + s.m.freedBytes
  }

  /** The counters of a cycle, split by the path each byte has taken. */
  ghost predicate Portioned(m: M.Counters, total: int, w: int) {
    && 0 <= w <= m.markedBytes <= total && m.rememberedBytes <= m.markedBytes
    && m.tracedBytes <= m.markedBytes - w
    && m.freedBytes <= total - m.markedBytes
    && m.droppedBytes <= w + total - m.markedBytes
  }

  lemma LedgerSplits(s: State, root: seq<Edge>, kept: seq<Ptr>, todo: seq<Ptr>) returns (w: int)
    requires Inv(s, root, kept, todo) && Ledger(s, kept, todo)
    ensures Portioned(s.m, CycleBytes(s, kept + todo), w)
  {
    SumBetween(MarkedBytes, Bytes, s.heap, kept);
    SumBetween(MarkedBytes, Bytes, s.heap, todo);
    SumBetween(BlackBytes, MarkedBytes, s.heap, kept);
    SumBetween(BlackBytes, MarkedBytes, s.heap, todo);
    SumConcat(Bytes, s.heap, kept, todo);
    w := if s.phase.Sweep? then Pos(s.m.droppedBytes - s.m.freedBytes) else 0;
  }

  /** `w` bytes are weakly remembered; no path costs more than the worst. */
  lemma PortionsBound(m: M.Counters, total: int, w: int)
    requires Portioned(m, total, w) && Sensible(m.pacing)
    ensures M.Credits(m) <= M.Work(total, Worst(m.pacing))
  {
    var p, c := m.pacing, Worst(m.pacing);
    var k, f := m.markedBytes - w, total - m.markedBytes;
    WorkSum(k, w, p.markFactor);
    WorkMore(m.tracedBytes, k, p.traceFactor);
    WorkMore(m.rememberedBytes, k + w, p.keepFactor);
    WorkSum(k, w, p.keepFactor);
    WorkMore(m.droppedBytes, w + f, p.dropFactor);
    WorkSum(w, f, p.dropFactor);
    WorkMore(m.freedBytes, f, p.freeFactor);
    WorkFactors(k, p.markFactor, p.traceFactor, p.keepFactor, c);
    WorkFactors(w, p.markFactor, p.dropFactor, p.keepFactor, c);
    WorkFactors(f, p.dropFactor, p.freeFactor, 0.0, c);
    NoWork(f);
    WorkSum(k, w, c);
    WorkSum(k + w, f, c);
  }

  ghost predicate Paced(s: State, l: seq<Ptr>) {
    M.Credits(s.m) <= M.Work(CycleBytes(s, l), Worst(s.m.pacing))
  }

  lemma CreditsBoundedAt(s: State, root: seq<Edge>, kept: seq<Ptr>, todo: seq<Ptr>)
    requires Inv(s, root, kept, todo) && Ledger(s, kept, todo) && Sensible(s.m.pacing)
    ensures Paced(s, kept + todo)
  {
    var w := LedgerSplits(s, root, kept, todo);
    PortionsBound(s.m, CycleBytes(s, kept + todo), w);
  }

  /**
   * The pacing bound: at every point of every run, with whatever pacing is set, the credited
   * work is at most the worst path's factor times the bytes of the boxes of the cycle, however
   * often barriers turn objects gray again.
   */
  lemma CreditsBounded(steps: seq<Step>) returns (l: seq<Ptr>)
    requires Runs(START, steps) && Sensible(After(START, steps).s.m.pacing)
    ensures IsList(After(START, steps).s.heap, After(START, steps).s.all, l) && Paced(After(START, steps).s, l)
  {
    InitialInv();
    var kept, todo := RunLedger(START, steps, [], []);
    l := kept + todo;
    CreditsBoundedAt(After(START, steps).s, After(START, steps).root, kept, todo);
  }

  lemma DefaultWork(bytes: int)
    ensures M.Work(bytes, 0.55) == 0.55 * (bytes as real)
  {
    M.WorkIsProduct(bytes, 0.55);
  }

  lemma DebtAtLeast(m: M.Counters, bound: real)
    requires M.Credits(m) <= bound
    ensures m.totalGcs != 0 && M.Debits(m) > 0.0 ==> M.AllocationDebt(m) >= M.Debits(m) - bound
  {
  }

  lemma DefaultWorst()
    ensures Sensible(M.DEFAULT_PACING) && Worst(M.DEFAULT_PACING) == 0.55
  {
  }

  lemma DefaultCredits(steps: seq<Step>) returns (l: seq<Ptr>)
    requires Runs(START, steps) && After(START, steps).s.m.pacing == M.DEFAULT_PACING
    ensures IsList(After(START, steps).s.heap, After(START, steps).s.all, l) && Paced(After(START, steps).s, l)
  {
    DefaultWorst();
    l := CreditsBounded(steps);
  }

  lemma PacedByDefault(s: State, l: seq<Ptr>)
    requires s.m.pacing == M.DEFAULT_PACING && Paced(s, l)
    ensures M.Credits(s.m) <= 0.55 * (CycleBytes(s, l) as real)
    ensures s.m.totalGcs != 0 && M.Debits(s.m) > 0.0 ==>
              M.AllocationDebt(s.m) >= M.Debits(s.m) - 0.55 * (CycleBytes(s, l) as real)
  {
    DefaultWorst();
    DefaultWork(CycleBytes(s, l));
    DebtAtLeast(s.m, 0.55 * (CycleBytes(s, l) as real));
  }

  /**
   * With the default pacing, at every point of every run, a byte of the cycle is credited at most
   * 0.55 units of work, so that an arena with boxes stays in debt until its debits have fallen
   * to that much of the cycle's bytes.
   */
  lemma DefaultPacingIsBelowOne(steps: seq<Step>) returns (s: State, l: seq<Ptr>)
    requires Runs(START, steps) && After(START, steps).s.m.pacing == M.DEFAULT_PACING
    ensures s == After(START, steps).s && IsList(s.heap, s.all, l)
    ensures M.Credits(s.m) <= 0.55 * (CycleBytes(s, l) as real)
    ensures s.m.totalGcs != 0 && M.Debits(s.m) > 0.0 ==>
              M.AllocationDebt(s.m) >= M.Debits(s.m) - 0.55 * (CycleBytes(s, l) as real)
  {
    s := After(START, steps).s;
    l := DefaultCredits(steps);
    PacedByDefault(s, l);
  }

  // ----- the trace counter -----

  lemma TracedPositive(s: State, kept: seq<Ptr>)
    requires TracedOk(s, kept)
    ensures s.m.tracedGcs >= 0 && s.m.tracedBytes >= 0
  {
    SumBetween(TracedBlack, TracedBlack, s.heap, kept);
    SumBetween(TracedBlackBytes, TracedBlackBytes, s.heap, kept);
  }

  predicate FrugalRun(w: World, steps: seq<Step>)
    requires Runs(w, steps)
    decreases |steps|
  {
    steps == [] || (Frugal(w, steps[0]) && FrugalRun(Do(w, steps[0]), steps[1..]))
  }

  lemma {:induction false} RunTraced(w: World, steps: seq<Step>, kept: seq<Ptr>, todo: seq<Ptr>)
    requires WorldInv(w, kept, todo) && Runs(w, steps) && Ledger(w.s, kept, todo) && TracedOk(w.s, kept)
    requires FrugalRun(w, steps)
    ensures After(w, steps).s.m.tracedGcs >= 0 && After(w, steps).s.m.tracedBytes >= 0
    decreases |steps|
  {
    if steps == [] {
      TracedPositive(w.s, kept);
    } else {
      StepKeeps(w, steps[0], kept, todo);
      StepLedger(w, steps[0], kept, todo);
      RunTraced(Do(w, steps[0]), steps[1..], KeptNext(w, steps[0], kept, todo), TodoNext(steps[0], kept, todo));
    }
  }

  /**
   * The decrement in `mark_gc_untraced` never underflows in a run whose backward barriers are
   * called on objects that need tracing.
   */
  lemma FrugalRunsDoNotUnderflow(steps: seq<Step>)
    requires Runs(START, steps) && FrugalRun(START, steps)
    ensures After(START, steps).s.m.tracedGcs >= 0 && After(START, steps).s.m.tracedBytes >= 0
  {
    InitialInv();
    RunTraced(START, steps, [], []);
  }

  // A run that makes the counter negative: one box that needs no tracing is allocated, marked,
  // and then unlocked for writing.

  const SETUP: seq<Step> := [Enter(MutateRoot), Alloc(7, 16, false, []), WriteRoot([Strong(7)]), Leave]
  const CYCLE: seq<Step> := [WakeUp, MarkStep, Enter(Mutate), LoadRoot(0), Backward(7, None)]

  lemma RunStep(w: World, st: Step, rest: seq<Step>)
    requires Enabled(w, st) && Runs(Do(w, st), rest)
    ensures Runs(w, [st] + rest) && After(w, [st] + rest) == After(Do(w, st), rest)
  {
    assert ([st] + rest)[1..] == rest;
  }

  /** One white box at address 7 that needs no tracing, held by the root; nothing traced yet. */
  predicate OneIdleBox(w: World) {
    w.mode.Outside? && w.root == [Strong(7)] && w.temps == {} && w.s.phase.Sleep? && w.s.rootNeedsTrace
    && w.s.gray == [] && w.s.grayAgain == [] && w.s.m.tracedGcs == 0
    && 7 in w.s.heap && w.s.heap[7].color.White? && !w.s.heap[7].needsTrace
  }

  lemma SetupRuns(steps: seq<Step>)
    requires steps == SETUP
    ensures Runs(START, steps) && OneIdleBox(After(START, steps))
  {
    var w1 := Do(START, Enter(MutateRoot));
    var w2 := Do(w1, Alloc(7, 16, false, []));
    var w3 := Do(w2, WriteRoot([Strong(7)]));
    var w4 := Do(w3, Leave);
    assert OneIdleBox(w4);
    RunStep(w3, Leave, []);
    RunStep(w2, WriteRoot([Strong(7)]), [Leave] + []);
    RunStep(w1, Alloc(7, 16, false, []), [WriteRoot([Strong(7)])] + ([Leave] + []));
    RunStep(START, Enter(MutateRoot), [Alloc(7, 16, false, [])] + ([WriteRoot([Strong(7)])] + ([Leave] + [])));
    assert steps == [Enter(MutateRoot)] + ([Alloc(7, 16, false, [])] + ([WriteRoot([Strong(7)])] + ([Leave] + [])));
  }

  /** The last two steps: the marked box is loaded from the root and unlocked. */
  lemma UnlockUnderflows(w: World, steps: seq<Step>)
    requires w.mode.Mutate? && w.s.phase.Mark? && w.root == [Strong(7)] && ColorIs(w.s, 7, Black)
    requires w.s.m.tracedGcs == 0 && steps == [LoadRoot(0), Backward(7, None)]
    ensures Runs(w, steps) && After(w, steps).s.m.tracedGcs == -1
  {
    var v := Do(w, LoadRoot(0));
    assert v == w.(temps := w.temps + {7});
    RunStep(v, Backward(7, None), []);
    RunStep(w, LoadRoot(0), [Backward(7, None)] + []);
    assert steps == [LoadRoot(0)] + ([Backward(7, None)] + []);
  }

  /** Marking the root blackens the box at once, without tracing it. */
  lemma MarksIdleBox(s: State)
    requires s.phase.Mark? && s.rootNeedsTrace && s.gray == [] && s.grayAgain == []
    requires 7 in s.heap && s.heap[7].color.White? && !s.heap[7].needsTrace
    ensures MarkReady(s, [Strong(7)])
    ensures var t := MarkOne(s, [Strong(7)]);
      ColorIs(t, 7, Black) && t.m.tracedGcs == s.m.tracedGcs && t.phase.Mark?
  {
    assert TraceEdges(s, [Strong(7)]) == TraceEdges(Trace(s, 7), []);
  }

  lemma CycleUnderflows(w: World, steps: seq<Step>)
    requires OneIdleBox(w) && steps == CYCLE
    ensures Runs(w, steps) && After(w, steps).s.m.tracedGcs == -1
  {
    var w1 := Do(w, WakeUp);
    MarksIdleBox(w1.s);
    var w2 := Do(w1, MarkStep);
    var w3 := Do(w2, Enter(Mutate));
    var c3 := [LoadRoot(0), Backward(7, None)];
    UnlockUnderflows(w3, c3);
    RunStep(w2, Enter(Mutate), c3);
    RunStep(w1, MarkStep, [Enter(Mutate)] + c3);
    RunStep(w, WakeUp, [MarkStep] + ([Enter(Mutate)] + c3));
    assert steps == [WakeUp] + ([MarkStep] + ([Enter(Mutate)] + c3));
  }

  /**
   * Without that restriction it does: the trace counter of this run ends at -1, which in the
   * source is an arithmetic underflow.
   */
  lemma TraceCounterUnderflows(setup: seq<Step>, cycle: seq<Step>)
    requires setup == SETUP && cycle == CYCLE
    ensures Runs(START, setup) && Runs(After(START, setup), cycle)
    ensures After(After(START, setup), cycle).s.m.tracedGcs == -1
  {
    SetupRuns(setup);
    CycleUnderflows(After(START, setup), cycle);
  }
}
