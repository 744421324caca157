/** The garbage-collected heap: raw memory holding boxes, addressed by pointers. */
module GcTypes {
  import opened Prelude

  type Ptr = nat

  datatype Color = White | WhiteWeak | Gray | Black

  datatype Phase = Mark | Sweep | Sleep | Drop

  /** A pointer held inside a value: `Gc` or `GcWeak`. */
  datatype Edge = Strong(to: Ptr) | Weak(to: Ptr)

  /**
   * One allocation. `edges` is the stored value as far as the collector can see it: the
   * pointers its `Collect::trace` visits, in the order it visits them. Dropping the value
   * empties it; freeing the box removes it from the heap.
   */
  datatype GcBox = GcBox(
    next: Option<Ptr>,
    color: Color,
    live: bool,
    needsTrace: bool,
    size: nat,
    edges: seq<Edge>)

  type Heap = map<Ptr, GcBox>

  function SetColor(h: Heap, p: Ptr, c: Color): Heap
    requires p in h
  {
    h[p := h[p].(color := c)]
  }

  function SetNext(h: Heap, p: Ptr, n: Option<Ptr>): Heap
    requires p in h
  {
    h[p := h[p].(next := n)]
  }

  /** `set_live(false)` followed by `drop_in_place`. */
  function DropValue(h: Heap, p: Ptr): Heap
    requires p in h
  {
    h[p := h[p].(live := false, edges := [])]
  }

  predicate Uncolored(c: Color) {
    c.White? || c.WhiteWeak?
  }

  predicate EdgesIn(h: Heap, es: seq<Edge>) {
    forall e :: e in es ==> e.to in h
  }

  /** What happened to the memory at a pointer, in order; used to state drop-once and free-once. */
  datatype Event = Allocated(p: Ptr) | Dropped(p: Ptr) | Freed(p: Ptr)
}
