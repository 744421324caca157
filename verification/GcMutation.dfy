/** What a mutator can do between collections keeps the invariant. */
module GcMutation {
  import opened Prelude
  import opened GcTypes
  import opened GcSpec
  import opened GcInvariant

  /** Pointers that may be held before the step may still be held after it. */
  ghost predicate KeepsSafe(h: Heap, k: Heap, todo: seq<Ptr>) {
    && (forall p :: Safe(h, todo, p) ==> Safe(k, todo, p))
    && (forall p :: WeakSafe(h, todo, p) ==> WeakSafe(k, todo, p))
  }

  lemma KeepsEdges(h: Heap, k: Heap, todo: seq<Ptr>, es: seq<Edge>)
    requires KeepsSafe(h, k, todo) && EdgesSafe(h, todo, es)
    ensures EdgesSafe(k, todo, es)
  {
    forall e | e in es ensures EdgeSafe(k, todo, e) {
      assert EdgeSafe(h, todo, e);
    }
  }

  lemma ColorStepKeeps(s: State, t: State, root: seq<Edge>, kept: seq<Ptr>)
    requires Inv(s, root, kept, []) && s.phase.Mark?
    requires Recolored(s, t) && Settles(s.heap, t.heap) && Marking(t, {}) && t.rootNeedsTrace == s.rootNeedsTrace
    ensures Inv(t, root, kept, []) && KeepsSafe(s.heap, t.heap, [])
  {
    RecoloredKeeps(s, t, root, kept);
    if !s.rootNeedsTrace {
      SettlesDone(s.heap, t.heap, root);
    }
    forall p | p in s.heap ensures t.heap[p].live == s.heap[p].live {
      assert SameBut(s.heap[p], t.heap[p]);
    }
  }

  lemma MakeGrayAgainKeeps(s: State, p: Ptr)
    requires Marking(s, {}) && ColorIs(s, p, Black)
    ensures var t := MakeGrayAgain(s, p);
      Recolored(s, t) && Settles(s.heap, t.heap) && Marking(t, {}) && t.rootNeedsTrace == s.rootNeedsTrace
  {
    var t := MakeGrayAgain(s, p);
    PushGray(s, t, p);
    forall q | q in t.heap && t.heap[q].color.Black? && q !in {} ensures Done(t.heap, t.heap[q].edges) {
      assert Done(s.heap, s.heap[q].edges);
      SettlesDone(s.heap, t.heap, s.heap[q].edges);
    }
  }

  lemma ResurrectColors(s: State, p: Ptr)
    requires Marking(s, {}) && p in s.heap && s.heap[p].live
    ensures var t := Resurrect(s, p);
      Recolored(s, t) && Settles(s.heap, t.heap) && Marking(t, {}) && t.rootNeedsTrace == s.rootNeedsTrace
      && !Uncolored(t.heap[p].color)
  {
    var t := Resurrect(s, p);
    if Uncolored(s.heap[p].color) {
      PushGray(s, t, p);
    }
    forall q | q in t.heap && t.heap[q].color.Black? && q !in {} ensures Done(t.heap, t.heap[q].edges) {
      assert Done(s.heap, s.heap[q].edges);
      SettlesDone(s.heap, t.heap, s.heap[q].edges);
    }
  }

  /** A backward barrier keeps the invariant; afterwards the parent may adopt the child. */
  lemma BackwardBarrierKeeps(s: State, root: seq<Edge>, kept: seq<Ptr>, todo: seq<Ptr>, parent: Ptr, child: Option<Ptr>)
    requires Inv(s, root, kept, todo) && parent in s.heap
    requires child.Some? ==> child.value in s.heap
    ensures var t := BackwardBarrier(s, parent, child);
      && Inv(t, root, kept, todo) && KeepsSafe(s.heap, t.heap, todo) && Settles(s.heap, t.heap)
      && (t.phase.Mark? && t.heap[parent].color.Black? ==>
            child.Some? && !Uncolored(t.heap[child.value].color))
  {
    if BackwardFires(s, parent, child) {
      MakeGrayAgainKeeps(s, parent);
      ColorStepKeeps(s, BackwardBarrier(s, parent, child), root, kept);
    }
  }

  lemma BackwardBarrierWeakKeeps(s: State, root: seq<Edge>, kept: seq<Ptr>, todo: seq<Ptr>, parent: Ptr, child: Ptr)
    requires Inv(s, root, kept, todo) && parent in s.heap && child in s.heap
    ensures var t := BackwardBarrierWeak(s, parent, child);
      && Inv(t, root, kept, todo) && KeepsSafe(s.heap, t.heap, todo) && Settles(s.heap, t.heap)
      && (t.phase.Mark? && t.heap[parent].color.Black? ==> !t.heap[child].color.White?)
  {
    if s.phase.Mark? && ColorIs(s, parent, Black) && ColorIs(s, child, White) {
      MakeGrayAgainKeeps(s, parent);
      ColorStepKeeps(s, BackwardBarrierWeak(s, parent, child), root, kept);
    }
  }

  /** A forward barrier marks the child unless the named parent is known not to be black. */
  lemma ForwardBarrierKeeps(s: State, root: seq<Edge>, kept: seq<Ptr>, todo: seq<Ptr>, parent: Option<Ptr>, child: Ptr)
    requires Inv(s, root, kept, todo) && Safe(s.heap, todo, child)
    requires parent.Some? ==> parent.value in s.heap
    ensures var t := ForwardBarrier(s, parent, child);
      && Inv(t, root, kept, todo) && KeepsSafe(s.heap, t.heap, todo) && Settles(s.heap, t.heap)
      && (t.phase.Mark? && (parent.Some? ==> s.heap[parent.value].color.Black?) ==> !Uncolored(t.heap[child].color))
  {
    if ForwardFires(s, parent) {
      TraceKeeps(s, child, {});
      ColorStepKeeps(s, Trace(s, child), root, kept);
    }
  }

  lemma ForwardBarrierWeakKeeps(s: State, root: seq<Edge>, kept: seq<Ptr>, todo: seq<Ptr>, parent: Option<Ptr>,
    child: Ptr)
    requires Inv(s, root, kept, todo) && child in s.heap
    requires parent.Some? ==> parent.value in s.heap
    ensures var t := ForwardBarrierWeak(s, parent, child);
      && Inv(t, root, kept, todo) && KeepsSafe(s.heap, t.heap, todo) && Settles(s.heap, t.heap)
      && (t.phase.Mark? && (parent.Some? ==> s.heap[parent.value].color.Black?) ==> !t.heap[child].color.White?)
  {
    if ForwardFires(s, parent) {
      TraceWeakKeeps(s, child, {});
      ColorStepKeeps(s, TraceWeak(s, child), root, kept);
    }
  }

  /** Resurrection, during marking, of a box whose value is intact. */
  lemma ResurrectKeeps(s: State, root: seq<Edge>, kept: seq<Ptr>, todo: seq<Ptr>, p: Ptr)
    requires Inv(s, root, kept, todo) && s.phase.Mark? && p in s.heap && s.heap[p].live
    ensures var t := Resurrect(s, p);
      && Inv(t, root, kept, todo) && KeepsSafe(s.heap, t.heap, todo) && Settles(s.heap, t.heap)
      && !Uncolored(t.heap[p].color) && Safe(t.heap, todo, p)
  {
    ResurrectColors(s, p);
    ColorStepKeeps(s, Resurrect(s, p), root, kept);
  }

  lemma RootBarrierKeeps(s: State, root: seq<Edge>, newRoot: seq<Edge>, kept: seq<Ptr>, todo: seq<Ptr>)
    requires Inv(s, root, kept, todo)
    ensures Inv(RootBarrier(s), root, kept, todo) && KeepsSafe(s.heap, RootBarrier(s).heap, todo)
  {
    var t := RootBarrier(s);
    KeepsEdges(s.heap, t.heap, todo, root);
    forall p | p in t.heap && Safe(t.heap, todo, p) ensures EdgesSafe(t.heap, todo, t.heap[p].edges) {
      assert Safe(s.heap, todo, p);
      KeepsEdges(s.heap, t.heap, todo, s.heap[p].edges);
    }
  }

  /** The root may be replaced once its barrier has been called (or while no cycle is marking). */
  lemma SetRootKeeps(s: State, root: seq<Edge>, newRoot: seq<Edge>, kept: seq<Ptr>, todo: seq<Ptr>)
    requires Inv(s, root, kept, todo) && (s.phase.Mark? ==> s.rootNeedsTrace)
    requires EdgesSafe(s.heap, todo, newRoot)
    ensures Inv(s, newRoot, kept, todo)
  {
  }

  // ----- storing -----

  lemma StoreKeeps(s: State, root: seq<Edge>, kept: seq<Ptr>, todo: seq<Ptr>, p: Ptr, value: seq<Edge>)
    requires Inv(s, root, kept, todo) && Safe(s.heap, todo, p) && EdgesSafe(s.heap, todo, value)
    requires !s.heap[p].needsTrace ==> value == []
    requires s.phase.Mark? && s.heap[p].color.Black? ==> Done(s.heap, value)
    ensures var t := Store(s, p, value);
      Inv(t, root, kept, todo) && KeepsSafe(s.heap, t.heap, todo) && Settles(s.heap, t.heap)
  {
    var t := Store(s, p, value);
    StoreCloses(s.heap, todo, p, value);
    ListSame(s.heap, t.heap, s.all, kept + todo);
    KeepsEdges(s.heap, t.heap, todo, root);
    if s.phase.Mark? {
      StoreColors(s, root, p, value);
    }
  }

  lemma StoreCloses(h: Heap, todo: seq<Ptr>, p: Ptr, value: seq<Edge>)
    requires Closed(h, todo) && Safe(h, todo, p) && EdgesSafe(h, todo, value)
    ensures var k := h[p := h[p].(edges := value)]; Closed(k, todo) && KeepsSafe(h, k, todo)
  {
    var k := h[p := h[p].(edges := value)];
    assert KeepsSafe(h, k, todo);
    forall q | q in k && Safe(k, todo, q) ensures EdgesSafe(k, todo, k[q].edges) {
      assert Safe(h, todo, q);
      KeepsEdges(h, k, todo, k[q].edges);
    }
  }

  lemma StoreColors(s: State, root: seq<Edge>, p: Ptr, value: seq<Edge>)
    requires Marking(s, {}) && (!s.rootNeedsTrace ==> Done(s.heap, root)) && p in s.heap
    requires s.heap[p].color.Black? ==> Done(s.heap, value)
    ensures var t := Store(s, p, value); Marking(t, {}) && (!t.rootNeedsTrace ==> Done(t.heap, root))
  {
    var t := Store(s, p, value);
    SameQueue(s, t);
    if !s.rootNeedsTrace { SettlesDone(s.heap, t.heap, root); }
    forall q | q in t.heap && t.heap[q].color.Black? && q !in {} ensures Done(t.heap, t.heap[q].edges) {
      SettlesDone(s.heap, t.heap, t.heap[q].edges);
    }
  }

  // ----- allocation -----

  lemma AllocateLinks(s: State, kept: seq<Ptr>, todo: seq<Ptr>, p: Ptr, size: nat, needsTrace: bool, value: seq<Edge>)
    requires Linked(s, kept, todo) && Positioned(s, kept, todo) && p !in s.heap
    ensures var t := Allocate(s, p, size, needsTrace, value);
      Linked(t, [p] + kept, todo) && Positioned(t, [p] + kept, todo)
  {
    assert [p] + kept + todo == [p] + (kept + todo);
    ListPush(s.heap, s.all, kept + todo, p, GcBox(s.all, White, true, needsTrace, size, value));
  }

  lemma AllocateColors(s: State, root: seq<Edge>, kept: seq<Ptr>, todo: seq<Ptr>, p: Ptr, size: nat, needsTrace: bool,
    value: seq<Edge>)
    requires Colors(s, root, kept, todo) && p !in s.heap
    ensures Colors(Allocate(s, p, size, needsTrace, value), root, [p] + kept, todo)
  {
    var t := Allocate(s, p, size, needsTrace, value);
    if s.phase.Mark? {
      SameQueue(s, t);
      if !s.rootNeedsTrace { SettlesDone(s.heap, t.heap, root); }
      forall q | q in t.heap && t.heap[q].color.Black? && q !in {} ensures Done(t.heap, t.heap[q].edges) {
        SettlesDone(s.heap, t.heap, t.heap[q].edges);
      }
    }
  }

  /** A new box goes to the front of the list, white, and is never part of the current sweep. */
  lemma AllocateKeeps(s: State, root: seq<Edge>, kept: seq<Ptr>, todo: seq<Ptr>, p: Ptr, size: nat, needsTrace: bool,
    value: seq<Edge>)
    requires Inv(s, root, kept, todo) && p !in s.heap && EdgesSafe(s.heap, todo, value)
    requires !needsTrace ==> value == []
    ensures var t := Allocate(s, p, size, needsTrace, value);
      && Inv(t, root, [p] + kept, todo) && KeepsSafe(s.heap, t.heap, todo) && Settles(s.heap, t.heap)
      && Safe(t.heap, todo, p)
  {
    var t := Allocate(s, p, size, needsTrace, value);
    AllocateLinks(s, kept, todo, p, size, needsTrace, value);
    AllocateColors(s, root, kept, todo, p, size, needsTrace, value);
    assert p !in kept + todo;
    AllocateCloses(s.heap, todo, p, t.heap[p]);
    KeepsEdges(s.heap, t.heap, todo, root);
  }

  lemma AllocateCloses(h: Heap, todo: seq<Ptr>, p: Ptr, b: GcBox)
    requires Closed(h, todo) && p !in h && p !in todo && EdgesSafe(h, todo, b.edges)
    ensures Closed(h[p := b], todo) && KeepsSafe(h, h[p := b], todo)
  {
    var k := h[p := b];
    assert KeepsSafe(h, k, todo);
    forall q | q in k && Safe(k, todo, q) ensures EdgesSafe(k, todo, k[q].edges) {
      assert q != p ==> Safe(h, todo, q);
      KeepsEdges(h, k, todo, k[q].edges);
    }
  }

  // ----- weak pointers -----

  /** The value at `p` is gone, or is certain to be dropped by the sweep under way. */
  predicate Doomed(s: State, todo: seq<Ptr>, p: Ptr) {
    p in s.heap ==> !s.heap[p].live || (s.phase.Sweep? && p in todo && s.heap[p].color.WhiteWeak?)
  }

  /**
   * Upgrading is exact: for a weak pointer that may be held, `upgrade` succeeds if and only if
   * the strong pointer may be held, and fails if and only if the value is gone or doomed.
   */
  lemma UpgradeIsExact(s: State, root: seq<Edge>, kept: seq<Ptr>, todo: seq<Ptr>, p: Ptr)
    requires Inv(s, root, kept, todo) && WeakSafe(s.heap, todo, p)
    ensures Upgrade(s, p) <==> Safe(s.heap, todo, p)
    ensures Upgrade(s, p) <==> !Doomed(s, todo, p)
  {
    assert p in kept + todo;
    if s.phase.Sweep? && p in kept {
      assert s.heap[p].color.White?;
      if p in todo {
        NoDupSplit(kept, todo);
      }
    }
  }

  // ----- barriers do no more than that -----

  /** While marking, a black parent would come to hold an unmarked child. */
  predicate Endangers(s: State, parent: Ptr, child: Ptr) {
    && s.phase.Mark? && parent in s.heap && s.heap[parent].color.Black?
    && child in s.heap && (s.heap[child].color.White? || s.heap[child].color.WhiteWeak?)
  }

  /** The same for a weak pointer, which only asks that the child is not white. */
  predicate EndangersWeakly(s: State, parent: Ptr, child: Ptr) {
    Endangers(s, parent, child) && s.heap[child].color.White?
  }

  /** A barrier for a parent and a child acts if and only if the store would break the invariant. */
  lemma BarriersActIfNeeded(s: State, parent: Ptr, child: Ptr)
    requires child in s.heap
    ensures BackwardBarrier(s, parent, Some(child)) != s <==> Endangers(s, parent, child)
    ensures BackwardBarrierWeak(s, parent, child) != s <==> EndangersWeakly(s, parent, child)
    ensures ForwardBarrier(s, Some(parent), child) != s <==> Endangers(s, parent, child)
    ensures ForwardBarrierWeak(s, Some(parent), child) != s <==> EndangersWeakly(s, parent, child)
  {
    var t := MakeGrayAgain(s, if parent in s.heap then parent else child);
    assert t.grayAgain != s.grayAgain;
    assert ForwardFires(s, Some(parent)) && Uncolored(s.heap[child].color) ==>
        Trace(s, child).heap[child].color != s.heap[child].color;
    assert ForwardFires(s, Some(parent)) && s.heap[child].color.White? ==>
        TraceWeak(s, child).heap[child].color != s.heap[child].color;
  }

  /** Barriers that do not know the other side act on a black parent, or on any unmarked child. */
  lemma OpenBarriersActIfNeeded(s: State, parent: Ptr, child: Ptr)
    requires child in s.heap
    ensures BackwardBarrier(s, parent, None) != s <==>
            s.phase.Mark? && parent in s.heap && s.heap[parent].color.Black?
    ensures ForwardBarrier(s, None, child) != s <==>
            s.phase.Mark? && (s.heap[child].color.White? || s.heap[child].color.WhiteWeak?)
    ensures ForwardBarrierWeak(s, None, child) != s <==> s.phase.Mark? && s.heap[child].color.White?
    ensures RootBarrier(s) != s <==> s.phase.Mark? && !s.rootNeedsTrace
  {
    var t := MakeGrayAgain(s, if parent in s.heap then parent else child);
    assert t.grayAgain != s.grayAgain;
    assert Uncolored(s.heap[child].color) ==> Trace(s, child).heap[child].color != s.heap[child].color;
    assert s.heap[child].color.White? ==> TraceWeak(s, child).heap[child].color != s.heap[child].color;
  }
}
