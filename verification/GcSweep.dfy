/** Waking up, ending the mark phase, and sweeping the list box by box. */
module GcSweep {
  import opened Prelude
  import opened GcTypes
  import opened GcSpec
  import opened GcInvariant

  lemma WakeKeeps(s: State, root: seq<Edge>, kept: seq<Ptr>)
    requires Inv(s, root, kept, []) && s.phase.Sleep?
    ensures Inv(Wake(s), root, kept, [])
  {
    var t := Wake(s);
    assert kept + [] == kept;
    assert Recolored(s, t.(phase := s.phase));
    forall p | p in t.heap && Safe(t.heap, [], p) ensures EdgesSafe(t.heap, [], t.heap[p].edges) {
      assert Safe(s.heap, [], p);
    }
  }

  predicate Marked(s: State) {
    s.phase.Mark? && !GrayRemaining(s)
  }

  lemma NoGrayLeft(s: State)
    requires Queued(s) && s.gray == [] && s.grayAgain == []
    ensures NoneGray(s.heap)
  {
    forall p | p in s.heap ensures !s.heap[p].color.Gray? {
      assert p in s.gray + s.grayAgain <==> ColorIs(s, p, Gray);
    }
  }

  lemma DoneIsSafe(s: State, todo: seq<Ptr>, es: seq<Edge>)
    requires Done(s.heap, es) && NoneGray(s.heap) && Intact(s.heap)
    ensures EdgesSafe(s.heap, todo, es)
  {
    forall e | e in es ensures EdgeSafe(s.heap, todo, e) { assert EdgeDone(s.heap, e); }
  }

  /** When nothing is left to mark, the whole list becomes the part to sweep. */
  lemma StartSweepKeeps(s: State, root: seq<Edge>, kept: seq<Ptr>)
    requires Inv(s, root, kept, []) && Marked(s)
    ensures Inv(StartSweep(s), root, [], kept)
  {
    var t := StartSweep(s);
    NoGrayLeft(s);
    assert kept + [] == kept && [] + kept == kept;
    DoneIsSafe(t, kept, root);
    forall p | p in t.heap && Safe(t.heap, kept, p) ensures EdgesSafe(t.heap, kept, t.heap[p].edges) {
      assert p in kept;
      assert Done(s.heap, s.heap[p].edges);
      DoneIsSafe(t, kept, t.heap[p].edges);
    }
  }

  lemma EndCycleKeeps(s: State, root: seq<Edge>, kept: seq<Ptr>, hasSlept: bool)
    requires Inv(s, root, kept, []) && s.phase.Sweep?
    ensures Inv(EndCycle(s, hasSlept), root, kept, [])
  {
    var t := EndCycle(s, hasSlept);
    forall p | p in t.heap && Safe(t.heap, [], p) ensures EdgesSafe(t.heap, [], t.heap[p].edges) {
      assert Safe(s.heap, [], p);
    }
  }

  // ----- one step of the sweep -----

  /** The list after the step: a white box leaves it, any other moves to the kept part. */
  function KeptAfter(s: State, kept: seq<Ptr>, p: Ptr): seq<Ptr>
    requires p in s.heap
  {
    if s.heap[p].color.White? then kept else kept + [p]
  }

  lemma SweepFacts(s: State, kept: seq<Ptr>, todo: seq<Ptr>)
    requires Linked(s, kept, todo) && Positioned(s, kept, todo) && s.phase.Sweep? && todo != []
    ensures SweepReady(s) && s.sweep == Some(todo[0])
    ensures todo[0] !in kept && todo[0] !in todo[1..]
    ensures s.heap[todo[0]].next == At(todo[1..], 0, None)
  {
    var l := kept + todo;
    var k := |kept|;
    assert l[k] == todo[0] && l[k] in s.heap;
    assert NextAt(s.heap, l, k);
    NoDupSplit(kept, todo);
    if kept != [] {
      assert l[k - 1] == kept[k - 1] && l[k - 1] in s.heap;
    }
  }

  /** How a sweep step changes the memory: `h` before, `k` after, `p` the box it handles. */
  ghost predicate Swept(h: Heap, k: Heap, p: Ptr)
    requires p in h
  {
    && (forall q :: q in h && q != p ==> q in k && k[q] == h[q].(next := k[q].next))
    && (forall q :: q in k ==> q in h)
    && match h[p].color
       case White => p !in k
       case WhiteWeak => p in k && k[p] == h[p].(color := White, live := false, edges := [])
       case Black => p in k && k[p] == h[p].(color := White)
       case Gray => true
  }

  lemma SweepOneSweeps(s: State)
    requires SweepReady(s) && Tidy(s.heap)
    ensures Swept(s.heap, SweepOne(s).heap, s.sweep.value)
  {
  }

  lemma SweepUnlinks(s: State, kept: seq<Ptr>, todo: seq<Ptr>)
    requires Linked(s, kept, todo) && Positioned(s, kept, todo) && s.phase.Sweep? && todo != []
    requires SweepReady(s) && s.sweep == Some(todo[0]) && s.heap[todo[0]].color.White?
    ensures var t := SweepOne(s); Linked(t, kept, todo[1..]) && Positioned(t, kept, todo[1..])
  {
    SweepFacts(s, kept, todo);
    var l, k := kept + todo, |kept|;
    assert l[..k] + l[k + 1..] == kept + todo[1..];
    ListCut(s.heap, s.all, l, k);
    assert SweepOne(s).heap == Cut(s.heap, l, k);
  }

  lemma SweepMovesHeap(s: State)
    requires SweepReady(s)
    requires s.heap[s.sweep.value].color.WhiteWeak? || s.heap[s.sweep.value].color.Black?
    ensures var t := SweepOne(s);
      && t.heap.Keys == s.heap.Keys && t.all == s.all && t.phase == s.phase
      && t.sweep == s.heap[s.sweep.value].next && t.sweepPrev == s.sweep
      && forall q :: q in s.heap ==> t.heap[q].next == s.heap[q].next
  {
  }

  lemma SweepMoves(s: State, kept: seq<Ptr>, todo: seq<Ptr>)
    requires Linked(s, kept, todo) && Positioned(s, kept, todo) && s.phase.Sweep? && todo != []
    requires SweepReady(s) && s.sweep == Some(todo[0])
    requires s.heap[todo[0]].color.WhiteWeak? || s.heap[todo[0]].color.Black?
    ensures var t := SweepOne(s); Linked(t, kept + [todo[0]], todo[1..]) && Positioned(t, kept + [todo[0]], todo[1..])
  {
    SweepFacts(s, kept, todo);
    SweepMovesHeap(s);
    Moved(s, SweepOne(s), kept, todo);
  }

  lemma Moved(s: State, t: State, kept: seq<Ptr>, todo: seq<Ptr>)
    requires Linked(s, kept, todo) && s.phase.Sweep? && todo != []
    requires t.heap.Keys == s.heap.Keys && t.all == s.all && t.phase == s.phase
    requires forall q :: q in s.heap ==> t.heap[q].next == s.heap[q].next
    requires t.sweep == At(todo[1..], 0, None) && t.sweepPrev == Some(todo[0])
    ensures Linked(t, kept + [todo[0]], todo[1..]) && Positioned(t, kept + [todo[0]], todo[1..])
  {
    assert kept + todo == kept + [todo[0]] + todo[1..];
    ListSame(s.heap, t.heap, s.all, kept + todo);
  }

  /** What is safe to hold stays safe to hold across a sweep step, and nothing else becomes so. */
  lemma SweptSafe(h: Heap, k: Heap, todo: seq<Ptr>)
    requires todo != [] && todo[0] in h && todo[0] !in todo[1..]
    requires Swept(h, k, todo[0]) && !h[todo[0]].color.Gray?
    ensures forall q :: Safe(h, todo, q) <==> Safe(k, todo[1..], q)
    ensures forall q :: WeakSafe(h, todo, q) <==> WeakSafe(k, todo[1..], q)
    ensures forall q :: Safe(h, todo, q) ==> k[q].edges == h[q].edges
  {
    var p := todo[0];
    forall q ensures q in todo <==> q == p || q in todo[1..] {}
    forall q ensures Safe(h, todo, q) <==> Safe(k, todo[1..], q) {}
    forall q ensures WeakSafe(h, todo, q) <==> WeakSafe(k, todo[1..], q) {}
  }

  lemma SweptColors(h: Heap, k: Heap, kept: seq<Ptr>, p: Ptr)
    requires p in h && p !in kept && Swept(h, k, p)
    requires NoneGray(h) && AllWhite(h, kept) && Intact(h) && Tidy(h)
    ensures AllWhite(k, kept + [p]) && NoneGray(k) && Intact(k) && Tidy(k)
  {
    forall q | q in k ensures q in h {}
  }

  lemma SweptCloses(h: Heap, k: Heap, todo: seq<Ptr>, root: seq<Edge>)
    requires todo != [] && todo[0] in h && todo[0] !in todo[1..]
    requires Swept(h, k, todo[0]) && !h[todo[0]].color.Gray?
    requires Closed(h, todo) && EdgesSafe(h, todo, root)
    ensures Closed(k, todo[1..]) && EdgesSafe(k, todo[1..], root)
  {
    SweptSafe(h, k, todo);
    SafeEdgesCarry(h, k, todo, todo[1..], root);
    forall q | q in k && Safe(k, todo[1..], q) ensures EdgesSafe(k, todo[1..], k[q].edges) {
      assert Safe(h, todo, q);
      SafeEdgesCarry(h, k, todo, todo[1..], h[q].edges);
    }
  }

  lemma SafeEdgesCarry(h: Heap, k: Heap, todo: seq<Ptr>, rest: seq<Ptr>, es: seq<Edge>)
    requires forall p :: Safe(h, todo, p) <==> Safe(k, rest, p)
    requires forall p :: WeakSafe(h, todo, p) <==> WeakSafe(k, rest, p)
    requires EdgesSafe(h, todo, es)
    ensures EdgesSafe(k, rest, es)
  {
    forall e | e in es ensures EdgeSafe(k, rest, e) { assert EdgeSafe(h, todo, e); }
  }

  /** A sweep step keeps the invariant; in particular it never meets a gray object. */
  lemma SweepOneKeeps(s: State, root: seq<Edge>, kept: seq<Ptr>, todo: seq<Ptr>)
    requires Inv(s, root, kept, todo) && s.phase.Sweep? && todo != []
    ensures SweepReady(s) && s.sweep == Some(todo[0]) && todo[0] in s.heap && !s.heap[todo[0]].color.Gray?
    ensures Inv(SweepOne(s), root, KeptAfter(s, kept, todo[0]), todo[1..])
  {
    SweepFacts(s, kept, todo);
    var t, p := SweepOne(s), todo[0];
    SweepOneSweeps(s);
    SweptCloses(s.heap, t.heap, todo, root);
    SweptColors(s.heap, t.heap, kept, p);
    if s.heap[p].color.White? {
      SweepUnlinks(s, kept, todo);
    } else {
      SweepMoves(s, kept, todo);
    }
  }
}
