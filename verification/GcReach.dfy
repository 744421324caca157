/** Reachability through strong pointers, independent of colors. */
module GcReach {
  import opened GcTypes

  /** `p` is reached from the root or from a held pointer by following `n` strong pointers. */
  ghost predicate ReachIn(h: Heap, root: seq<Edge>, held: set<Ptr>, p: Ptr, n: nat)
    decreases n
  {
    if n == 0 then Strong(p) in root || p in held
    else exists q :: ReachIn(h, root, held, q, n - 1) && q in h && Strong(p) in h[q].edges
  }

  ghost predicate Reachable(h: Heap, root: seq<Edge>, held: set<Ptr>, p: Ptr) {
    exists n: nat :: ReachIn(h, root, held, p, n)
  }

  /** A weak pointer to `p` is held by the root or by a reachable object. */
  ghost predicate WeaklyReferenced(h: Heap, root: seq<Edge>, held: set<Ptr>, p: Ptr) {
    Weak(p) in root || exists q :: Reachable(h, root, held, q) && q in h && Weak(p) in h[q].edges
  }

  lemma ReachStep(h: Heap, root: seq<Edge>, held: set<Ptr>, q: Ptr, p: Ptr)
    requires Reachable(h, root, held, q) && q in h && Strong(p) in h[q].edges
    ensures Reachable(h, root, held, p)
  {
    var n: nat :| ReachIn(h, root, held, q, n);
    assert ReachIn(h, root, held, p, n + 1);
  }

  lemma ReachRoot(h: Heap, root: seq<Edge>, held: set<Ptr>, p: Ptr)
    requires Strong(p) in root
    ensures Reachable(h, root, held, p)
  {
    assert ReachIn(h, root, held, p, 0);
  }
}
