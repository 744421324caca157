/**
 * Every operation of the collector context as a function on states. The class `Context` is
 * proved against these functions; everything promised about a run is proved of them.
 */
module GcSpec {
  import opened Prelude
  import opened GcTypes
  import M = GcMetrics

  datatype State = State(
    phase: Phase,
    heap: Heap,
    all: Option<Ptr>,
    sweep: Option<Ptr>,
    sweepPrev: Option<Ptr>,
    rootNeedsTrace: bool,
    gray: seq<Ptr>,
    grayAgain: seq<Ptr>,
    m: M.Counters,
    log: seq<Event>)

  const INITIAL := State(Sleep, map[], None, None, None, true, [], [], M.FRESH, [])

  predicate GrayRemaining(s: State) {
    s.gray != [] || s.grayAgain != [] || s.rootNeedsTrace
  }

  function RootBarrier(s: State): State {
    if s.phase.Mark? then s.(rootNeedsTrace := true) else s
  }

  // ----- marking -----

  function Trace(s: State, p: Ptr): (r: State)
    requires p in s.heap
    ensures r.heap.Keys == s.heap.Keys
  {
    var b := s.heap[p];
    if !Uncolored(b.color) then s
    else
      var s1 :=
        if b.needsTrace then s.(heap := SetColor(s.heap, p, Gray), gray := s.gray + [p])
        else s.(heap := SetColor(s.heap, p, Black));
      if b.color.White? then s1.(m := M.OnMarked(s.m, b.size)) else s1
  }

  function TraceWeak(s: State, p: Ptr): (r: State)
    requires p in s.heap
    ensures r.heap.Keys == s.heap.Keys
  {
    if s.heap[p].color.White? then
      s.(heap := SetColor(s.heap, p, WhiteWeak), m := M.OnMarked(s.m, s.heap[p].size))
    else s
  }

  function TraceEdge(s: State, e: Edge): (r: State)
    requires e.to in s.heap
    ensures r.heap.Keys == s.heap.Keys
  {
    match e
    case Strong(p) => Trace(s, p)
    case Weak(p) => TraceWeak(s, p)
  }

  function TraceEdges(s: State, es: seq<Edge>): (r: State)
    requires EdgesIn(s.heap, es)
    ensures r.heap.Keys == s.heap.Keys
    decreases |es|
  {
    if es == [] then s else TraceEdges(TraceEdge(s, es[0]), es[1..])
  }

  function MakeGrayAgain(s: State, p: Ptr): State
    requires p in s.heap
  {
    s.(heap := SetColor(s.heap, p, Gray), grayAgain := s.grayAgain + [p], m := M.OnUntraced(s.m, s.heap[p].size))
  }

  /** The gray object processed next: the last of `gray`, else the last of `grayAgain`. */
  function Popped(s: State): Option<Ptr> {
    if s.gray != [] then Some(s.gray[|s.gray| - 1])
    else if s.grayAgain != [] then Some(s.grayAgain[|s.grayAgain| - 1])
    else None
  }

  function Pop(s: State): State
    requires Popped(s).Some?
  {
    if s.gray != [] then s.(gray := s.gray[..|s.gray| - 1])
    else s.(grayAgain := s.grayAgain[..|s.grayAgain| - 1])
  }

  /** The popped object has become black; its value is about to be traced. */
  function Blacken(s: State): State
    requires Popped(s).Some? && Popped(s).value in s.heap
  {
    var p := Popped(s).value;
    Pop(s).(heap := SetColor(s.heap, p, Black), m := M.OnTraced(s.m, s.heap[p].size))
  }

  predicate MarkReady(s: State, root: seq<Edge>) {
    match Popped(s)
    case Some(p) => p in s.heap && EdgesIn(s.heap, s.heap[p].edges)
    case None => EdgesIn(s.heap, root)
  }

  /** One step of marking; nothing to do (`ControlFlow::Break`) leaves the state unchanged. */
  function MarkOne(s: State, root: seq<Edge>): State
    requires MarkReady(s, root)
  {
    match Popped(s)
    case Some(p) => TraceEdges(Blacken(s), s.heap[p].edges)
    case None =>
      if s.rootNeedsTrace then TraceEdges(s, root).(rootNeedsTrace := false) else s
  }

  // ----- phase changes -----

  function Wake(s: State): State {
    s.(phase := Mark)
  }

  function StartSweep(s: State): State {
    s.(phase := Sweep, sweep := s.all)
  }

  /** `sweep_one` has found the end of the list and the cycle is closed. */
  function EndCycle(s: State, hasSlept: bool): State {
    s.(phase := Sleep, sweepPrev := None, rootNeedsTrace := true, m := M.FinishCycle(s.m, hasSlept))
  }

  // ----- sweeping -----

  predicate SweepReady(s: State) {
    s.sweep.Some? && s.sweep.value in s.heap
    && (s.sweepPrev.Some? ==> s.sweepPrev.value in s.heap && s.sweepPrev != s.sweep)
  }

  function Unlink(s: State): State
    requires SweepReady(s)
  {
    var next := s.heap[s.sweep.value].next;
    match s.sweepPrev
    case Some(q) => s.(heap := SetNext(s.heap, q, next), sweep := next)
    case None => s.(all := next, sweep := next)
  }

  function Release(s: State, p: Ptr): State
    requires p in s.heap
  {
    var b := s.heap[p];
    if b.live then
      s.(heap := s.heap - {p}, m := M.OnFreed(M.OnDropped(s.m, b.size), b.size), log := s.log + [Dropped(p), Freed(p)])
    else
      s.(heap := s.heap - {p}, m := M.OnFreed(s.m, b.size), log := s.log + [Freed(p)])
  }

  function SweepOne(s: State): State
    requires SweepReady(s)
  {
    var p := s.sweep.value;
    var b := s.heap[p];
    match b.color
    case White => Release(Unlink(s), p)
    case WhiteWeak =>
      var s1 := s.(sweep := b.next, sweepPrev := Some(p), heap := SetColor(s.heap, p, White));
      var s2 :=
        if b.live then
          s1.(heap := DropValue(s1.heap, p), m := M.OnDropped(s1.m, b.size), log := s1.log + [Dropped(p)])
        else s1;
      s2.(m := M.OnRemembered(s2.m, b.size))
    case Black =>
      s.(sweep := b.next, sweepPrev := Some(p), heap := SetColor(s.heap, p, White), m := M.OnRemembered(s.m, b.size))
    case Gray =>
      s.(sweep := b.next)
  }

  // ----- mutation -----

  function Allocate(s: State, p: Ptr, size: nat, needsTrace: bool, value: seq<Edge>): State
    requires p !in s.heap
  {
    s.(heap := s.heap[p := GcBox(s.all, White, true, needsTrace, size, value)],
    all := Some(p),
    sweepPrev := if s.phase.Sweep? && s.sweepPrev.None? then Some(p) else s.sweepPrev,
    m := M.OnAllocated(s.m, size),
    log := s.log + [Allocated(p)])
  }

  predicate ColorIs(s: State, p: Ptr, c: Color) {
    p in s.heap && s.heap[p].color == c
  }

  predicate BackwardFires(s: State, parent: Ptr, child: Option<Ptr>) {
    s.phase.Mark? && ColorIs(s, parent, Black)
    && (child.None? || (child.value in s.heap && Uncolored(s.heap[child.value].color)))
  }

  function BackwardBarrier(s: State, parent: Ptr, child: Option<Ptr>): State {
    if BackwardFires(s, parent, child) then MakeGrayAgain(s, parent) else s
  }

  function BackwardBarrierWeak(s: State, parent: Ptr, child: Ptr): State {
    if s.phase.Mark? && ColorIs(s, parent, Black) && ColorIs(s, child, White) then MakeGrayAgain(s, parent) else s
  }

  predicate ForwardFires(s: State, parent: Option<Ptr>) {
    s.phase.Mark? && (parent.None? || ColorIs(s, parent.value, Black))
  }

  function ForwardBarrier(s: State, parent: Option<Ptr>, child: Ptr): State
    requires child in s.heap
  {
    if ForwardFires(s, parent) then Trace(s, child) else s
  }

  function ForwardBarrierWeak(s: State, parent: Option<Ptr>, child: Ptr): State
    requires child in s.heap
  {
    if ForwardFires(s, parent) then TraceWeak(s, child) else s
  }

  predicate Upgrade(s: State, p: Ptr)
    requires p in s.heap
  {
    s.heap[p].live && !(s.phase.Sweep? && s.heap[p].color.WhiteWeak?)
  }

  function Resurrect(s: State, p: Ptr): State
    requires p in s.heap
  {
    var b := s.heap[p];
    if Uncolored(b.color) then
      var s1 := s.(heap := SetColor(s.heap, p, Gray), gray := s.gray + [p]);
      if b.color.White? then s1.(m := M.OnMarked(s.m, b.size)) else s1
    else s
  }

  /** A mutator overwrites the value held in a box. */
  function Store(s: State, p: Ptr, value: seq<Edge>): State
    requires p in s.heap
  {
    s.(heap := s.heap[p := s.heap[p].(edges := value)])
  }
}
