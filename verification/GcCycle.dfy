/** A cycle with no mutator in between keeps exactly what is reachable. */
module GcCycle {
  import opened GcTypes
  import opened GcSpec
  import opened GcInvariant
  import opened GcSweep
  import opened GcReach
  import opened GcRuns

  ghost predicate Live(h: Heap, root: seq<Edge>, p: Ptr) {
    Reachable(h, root, {}, p)
  }

  ghost predicate Remembered(h: Heap, root: seq<Edge>, p: Ptr) {
    Live(h, root, p) || WeaklyReferenced(h, root, {}, p)
  }

  ghost predicate SameBoxes(h: Heap, k: Heap) {
    k.Keys == h.Keys && forall p :: p in h ==> SameBut(h[p], k[p])
  }

  /** Marks are justified by reachability in the heap the cycle started from. */
  ghost predicate Justified(h: Heap, root: seq<Edge>, k: Heap) {
    forall p :: p in k ==>
      (!Uncolored(k[p].color) ==> Live(h, root, p)) && (!k[p].color.White? ==> Remembered(h, root, p))
  }

  /** The pointers in `es` lead to live or remembered objects only. */
  ghost predicate LiveEdges(h: Heap, root: seq<Edge>, es: seq<Edge>) {
    forall e :: e in es ==> if e.Strong? then Live(h, root, e.to) else Remembered(h, root, e.to)
  }

  lemma LiveEdgesOf(h: Heap, root: seq<Edge>, q: Ptr)
    requires Live(h, root, q) && q in h
    ensures LiveEdges(h, root, h[q].edges)
  {
    forall e | e in h[q].edges ensures if e.Strong? then Live(h, root, e.to) else Remembered(h, root, e.to) {
      match e
      case Strong(p) => ReachStep(h, root, {}, q, p);
      case Weak(p) =>
    }
  }

  lemma LiveEdgesRoot(h: Heap, root: seq<Edge>)
    ensures LiveEdges(h, root, root)
  {
    forall e | e in root ensures if e.Strong? then Live(h, root, e.to) else Remembered(h, root, e.to) {
      match e
      case Strong(p) => ReachRoot(h, root, {}, p);
      case Weak(p) =>
    }
  }

  lemma {:induction false} TraceEdgesJustified(h: Heap, root: seq<Edge>, s: State, es: seq<Edge>)
    requires Justified(h, root, s.heap) && EdgesIn(s.heap, es) && LiveEdges(h, root, es)
    ensures Justified(h, root, TraceEdges(s, es).heap)
    decreases |es|
  {
    if es != [] {
      var e := es[0];
      assert e in es;
      assert e.Strong? ==> Live(h, root, e.to);
      assert Justified(h, root, TraceEdge(s, e).heap);
      TraceEdgesJustified(h, root, TraceEdge(s, e), es[1..]);
    }
  }

  /** Where a cycle that started in the sleeping state `s0` has got to. */
  ghost predicate MarkPart(s0: State, root: seq<Edge>, s: State) {
    SameBoxes(s0.heap, s.heap) && Justified(s0.heap, root, s.heap)
  }

  /** What the sweep leaves of box `p`. */
  ghost predicate Outcome(h: Heap, root: seq<Edge>, k: Heap, p: Ptr)
    requires p in h
  {
    if Live(h, root, p) then p in k && k[p].live && k[p].edges == h[p].edges
    else if Remembered(h, root, p) then p in k && !k[p].live
    else p !in k
  }

  /** A box not yet swept: marked exactly if live, weakly marked exactly if only remembered. */
  ghost predicate Pending(h: Heap, root: seq<Edge>, k: Heap, p: Ptr)
    requires p in h
  {
    && p in k && k[p].live == h[p].live && k[p].edges == h[p].edges
    && (k[p].color.Black? <==> Live(h, root, p))
    && (!k[p].color.White? <==> Remembered(h, root, p))
  }

  ghost predicate SweepPart(s0: State, root: seq<Edge>, s: State, todo: seq<Ptr>) {
    && (forall p :: p in s.heap ==> p in s0.heap)
    && (forall p :: p in s0.heap ==>
          if p in todo then Pending(s0.heap, root, s.heap, p) else Outcome(s0.heap, root, s.heap, p))
  }

  lemma WakePart(s: State, root: seq<Edge>, kept: seq<Ptr>)
    requires Inv(s, root, kept, []) && s.phase.Sleep?
    ensures MarkPart(s, root, Wake(s))
  {
    assert kept + [] == kept;
  }

  lemma MarkOnePart(s0: State, root: seq<Edge>, s: State, kept: seq<Ptr>)
    requires Inv(s, root, kept, []) && s.phase.Mark? && MarkPart(s0, root, s)
    ensures MarkReady(s, root) && MarkPart(s0, root, MarkOne(s, root))
  {
    MarkOneReady(s, root, kept);
    MarkOneKeeps(s, root, kept);
    var t := MarkOne(s, root);
    forall p | p in s0.heap ensures SameBut(s0.heap[p], t.heap[p]) {
      assert SameBut(s0.heap[p], s.heap[p]) && SameBut(s.heap[p], t.heap[p]);
    }
    match Popped(s)
    case Some(p) =>
      assert SameBut(s0.heap[p], s.heap[p]);
      assert Live(s0.heap, root, p);
      LiveEdgesOf(s0.heap, root, p);
      TraceEdgesJustified(s0.heap, root, Blacken(s), s.heap[p].edges);
    case None =>
      if s.rootNeedsTrace {
        LiveEdgesRoot(s0.heap, root);
        TraceEdgesJustified(s0.heap, root, s, root);
      }
  }

  lemma {:induction false} SameReachIn(h: Heap, k: Heap, root: seq<Edge>, p: Ptr, n: nat)
    requires SameBoxes(h, k) && ReachIn(h, root, {}, p, n)
    ensures ReachIn(k, root, {}, p, n)
    decreases n
  {
    if n > 0 {
      var q :| ReachIn(h, root, {}, q, n - 1) && q in h && Strong(p) in h[q].edges;
      SameReachIn(h, k, root, q, n - 1);
      assert SameBut(h[q], k[q]);
    }
  }

  lemma SameReachable(h: Heap, k: Heap, root: seq<Edge>, p: Ptr)
    requires SameBoxes(h, k) && Live(h, root, p)
    ensures Live(k, root, p)
  {
    var n: nat :| ReachIn(h, root, {}, p, n);
    SameReachIn(h, k, root, p, n);
  }

  lemma SameRemembered(h: Heap, k: Heap, root: seq<Edge>, p: Ptr)
    requires SameBoxes(h, k) && Remembered(h, root, p)
    ensures Remembered(k, root, p)
  {
    if Live(h, root, p) {
      SameReachable(h, k, root, p);
    } else if Weak(p) !in root {
      var q :| Reachable(h, root, {}, q) && q in h && Weak(p) in h[q].edges;
      assert Live(h, root, q);
      SameReachable(h, k, root, q);
      assert SameBut(h[q], k[q]);
    }
  }

  lemma StartSweepPart(s0: State, root: seq<Edge>, s: State, kept: seq<Ptr>)
    requires Inv(s, root, kept, []) && Marked(s) && MarkPart(s0, root, s)
    ensures SweepPart(s0, root, StartSweep(s), kept)
  {
    assert kept + [] == kept;
    MarkingIsComplete(s, root, kept);
    NoGrayLeft(s);
    forall p | p in s0.heap ensures p in kept && Pending(s0.heap, root, s.heap, p) {
      assert SameBut(s0.heap[p], s.heap[p]);
      if Live(s0.heap, root, p) { SameReachable(s0.heap, s.heap, root, p); }
      if Remembered(s0.heap, root, p) { SameRemembered(s0.heap, s.heap, root, p); }
    }
  }

  lemma SweptPart(h: Heap, root: seq<Edge>, k: Heap, k': Heap, todo: seq<Ptr>, p: Ptr)
    requires todo != [] && todo[0] in k && todo[0] !in todo[1..] && Swept(k, k', todo[0]) && !k[todo[0]].color.Gray?
    requires Intact(k) && p in h
    requires if p in todo then Pending(h, root, k, p) else Outcome(h, root, k, p)
    ensures if p in todo[1..] then Pending(h, root, k', p) else Outcome(h, root, k', p)
  {
    assert p in todo <==> p == todo[0] || p in todo[1..];
  }

  lemma SweepOnePart(s0: State, root: seq<Edge>, s: State, kept: seq<Ptr>, todo: seq<Ptr>)
    requires Inv(s, root, kept, todo) && s.phase.Sweep? && todo != [] && SweepPart(s0, root, s, todo)
    ensures SweepReady(s) && SweepPart(s0, root, SweepOne(s), todo[1..])
  {
    SweepOneKeeps(s, root, kept, todo);
    SweepFacts(s, kept, todo);
    SweepOneSweeps(s);
    var t := SweepOne(s);
    forall p | p in s0.heap
      ensures if p in todo[1..] then Pending(s0.heap, root, t.heap, p) else Outcome(s0.heap, root, t.heap, p)
    {
      SweptPart(s0.heap, root, s.heap, t.heap, todo, p);
    }
    forall p | p in t.heap ensures p in s0.heap {
      assert p in s.heap;
    }
  }

  /**
   * The result of an exact cycle: the boxes left are those strongly reachable from the root and
   * those weakly referenced from there; values are left only in the strongly reachable ones, and
   * unchanged; every survivor is white again and both queues are empty.
   */
  ghost predicate Exact(s0: State, root: seq<Edge>, s: State) {
    && s.phase.Sleep? && s.gray == [] && s.grayAgain == []
    && (forall p :: p in s.heap <==> p in s0.heap && Remembered(s0.heap, root, p))
    && (forall p :: p in s.heap ==> s.heap[p].color.White? && (s.heap[p].live <==> Live(s0.heap, root, p)))
    && (forall p :: p in s.heap && s.heap[p].live ==> s.heap[p].edges == s0.heap[p].edges)
  }

  lemma EndCyclePart(s0: State, root: seq<Edge>, s: State, kept: seq<Ptr>, hasSlept: bool)
    requires Inv(s, root, kept, []) && s.phase.Sweep? && SweepPart(s0, root, s, [])
    ensures Exact(s0, root, EndCycle(s, hasSlept))
  {
    assert kept + [] == kept;
    forall p | p in s0.heap ensures Outcome(s0.heap, root, s.heap, p) {
      assert p !in [];
    }
    forall p | p in s.heap ensures p in s0.heap && Outcome(s0.heap, root, s.heap, p) {}
  }
}
