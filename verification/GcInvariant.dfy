/**
 * The invariant of the collector context. It is stated over a split `kept + todo` of the
 * linked list of boxes: during the sweep, `todo` is the part not yet swept and `kept` holds
 * the boxes already swept or allocated since; in the other phases `todo` is empty.
 */
module GcInvariant {
  import opened Prelude
  import opened GcTypes
  import opened GcSpec

  // ----- the list -----

  /** The box at position `i` points to the one at position `i + 1`, the last one to nothing. */
  predicate NextAt(h: Heap, l: seq<Ptr>, i: nat)
    requires i < |l|
  {
    l[i] in h && h[l[i]].next == At(l, i + 1, None)
  }

  /** `l` is the whole heap, in the order of the linked list that starts at `head`. */
  ghost predicate IsList(h: Heap, head: Option<Ptr>, l: seq<Ptr>) {
    && NoDup(l)
    && (forall p :: p in h <==> p in l)
    && head == At(l, 0, None)
    && (forall i :: 0 <= i < |l| ==> NextAt(h, l, i))
  }

  ghost predicate Linked(s: State, kept: seq<Ptr>, todo: seq<Ptr>) {
    IsList(s.heap, s.all, kept + todo)
  }

  lemma ListPush(h: Heap, head: Option<Ptr>, l: seq<Ptr>, p: Ptr, b: GcBox)
    requires IsList(h, head, l) && p !in h && b.next == head
    ensures IsList(h[p := b], Some(p), [p] + l)
  {
    var r, k := [p] + l, h[p := b];
    forall i | 0 <= i < |r| ensures NextAt(k, r, i) {
      if i > 0 {
        assert r[i] == l[i - 1];
        assert NextAt(h, l, i - 1);
      }
    }
  }

  /** The heap after cutting the box at position `i` out of the list. */
  function Cut(h: Heap, l: seq<Ptr>, i: nat): Heap
    requires i < |l| && l[i] in h && (i > 0 ==> l[i - 1] in h)
  {
    if i == 0 then h - {l[0]} else SetNext(h, l[i - 1], h[l[i]].next) - {l[i]}
  }

  lemma ListCut(h: Heap, head: Option<Ptr>, l: seq<Ptr>, i: nat)
    requires IsList(h, head, l) && i < |l| && l[i] in h && (i > 0 ==> l[i - 1] in h)
    ensures IsList(Cut(h, l, i), if i == 0 then h[l[0]].next else head, l[..i] + l[i + 1..])
  {
    assert NextAt(h, l, i);
    NoDupRemove(l, i);
    IsListWithout(h, Cut(h, l, i), head, l, i, l[..i] + l[i + 1..]);
  }

  lemma IsListWithout(h: Heap, k: Heap, head: Option<Ptr>, l: seq<Ptr>, i: nat, r: seq<Ptr>)
    requires IsList(h, head, l) && i < |l| && |r| == |l| - 1
    requires forall j :: 0 <= j < |r| ==> r[j] == l[if j < i then j else j + 1]
    requires NoDup(r) && forall p :: p in r <==> p in l && p != l[i]
    requires forall p :: p in k <==> p in h && p != l[i]
    requires forall p :: p in k ==> k[p].next == if i > 0 && p == l[i - 1] then At(l, i + 1, None) else h[p].next
    ensures IsList(k, if i == 0 then At(l, 1, None) else head, r)
  {
    forall j | 0 <= j < |r| ensures NextAt(k, r, j) {
      var m := if j < i then j else j + 1;
      assert r[j] == l[m];
      assert NextAt(h, l, m);
    }
  }

  lemma ListSame(h: Heap, k: Heap, head: Option<Ptr>, l: seq<Ptr>)
    requires IsList(h, head, l) && k.Keys == h.Keys && forall p :: p in h ==> k[p].next == h[p].next
    ensures IsList(k, head, l)
  {
    forall p ensures p in k <==> p in l {
      assert p in k.Keys <==> p in h.Keys;
    }
    forall i | 0 <= i < |l| ensures NextAt(k, l, i) {
      assert NextAt(h, l, i);
    }
  }

  function LastOf(l: seq<Ptr>): Option<Ptr> {
    if l == [] then None else Some(l[|l| - 1])
  }

  predicate Positioned(s: State, kept: seq<Ptr>, todo: seq<Ptr>) {
    if s.phase.Sweep? then s.sweep == At(todo, 0, None) && s.sweepPrev == LastOf(kept)
    else todo == [] && s.sweepPrev.None?
  }

  // ----- which pointers may be held -----

  /** A strong pointer to `p` may be held: its value is intact and this cycle will keep it. */
  predicate Safe(h: Heap, todo: seq<Ptr>, p: Ptr) {
    p in h && h[p].live && (p in todo ==> h[p].color.Black?)
  }

  /** A weak pointer to `p` may be held: this cycle will keep the box. */
  predicate WeakSafe(h: Heap, todo: seq<Ptr>, p: Ptr) {
    p in h && (p in todo ==> !h[p].color.White?)
  }

  predicate EdgeSafe(h: Heap, todo: seq<Ptr>, e: Edge) {
    match e
    case Strong(p) => Safe(h, todo, p)
    case Weak(p) => WeakSafe(h, todo, p)
  }

  predicate EdgesSafe(h: Heap, todo: seq<Ptr>, es: seq<Edge>) {
    forall e :: e in es ==> EdgeSafe(h, todo, e)
  }

  ghost predicate Closed(h: Heap, todo: seq<Ptr>) {
    forall p :: p in h && Safe(h, todo, p) ==> EdgesSafe(h, todo, h[p].edges)
  }

  /** Dropped values hold nothing, and neither do values that need no tracing. */
  ghost predicate Tidy(h: Heap) {
    forall p :: p in h && (!h[p].live || !h[p].needsTrace) ==> h[p].edges == []
  }

  // ----- colors -----

  predicate EdgeDone(h: Heap, e: Edge) {
    e.to in h &&
    match e
    case Strong(p) => !Uncolored(h[p].color)
    case Weak(p) => !h[p].color.White?
  }

  predicate Done(h: Heap, es: seq<Edge>) {
    forall e :: e in es ==> EdgeDone(h, e)
  }

  /** Black objects other than `exempt` have only marked children. */
  ghost predicate Tricolor(h: Heap, exempt: set<Ptr>) {
    forall p :: p in h && h[p].color.Black? && p !in exempt ==> Done(h, h[p].edges)
  }

  ghost predicate Queued(s: State) {
    NoDup(s.gray + s.grayAgain) && forall p :: p in s.gray + s.grayAgain <==> ColorIs(s, p, Gray)
  }

  /** Only intact values are marked. */
  ghost predicate Intact(h: Heap) {
    forall p :: p in h && !Uncolored(h[p].color) ==> h[p].live
  }

  ghost predicate AllWhite(h: Heap, l: seq<Ptr>) {
    forall p :: p in l && p in h ==> h[p].color.White?
  }

  ghost predicate NoneGray(h: Heap) {
    forall p :: p in h ==> !h[p].color.Gray?
  }

  ghost predicate Marking(s: State, exempt: set<Ptr>) {
    Tricolor(s.heap, exempt) && Queued(s) && Intact(s.heap)
  }

  ghost predicate Colors(s: State, root: seq<Edge>, kept: seq<Ptr>, todo: seq<Ptr>) {
    match s.phase
    case Sleep => AllWhite(s.heap, kept) && s.gray == [] && s.grayAgain == [] && s.rootNeedsTrace
    case Mark => Marking(s, {}) && (!s.rootNeedsTrace ==> Done(s.heap, root))
    case Sweep => AllWhite(s.heap, kept) && NoneGray(s.heap) && Intact(s.heap) && s.gray == [] && s.grayAgain == []
    case Drop => false
  }

  ghost predicate Inv(s: State, root: seq<Edge>, kept: seq<Ptr>, todo: seq<Ptr>) {
    && Linked(s, kept, todo)
    && Positioned(s, kept, todo)
    && Tidy(s.heap)
    && Closed(s.heap, todo)
    && EdgesSafe(s.heap, todo, root)
    && Colors(s, root, kept, todo)
  }

  lemma InitialInv()
    ensures Inv(INITIAL, [], [], [])
  {
  }

  // ----- changes of color only -----

  ghost predicate SameBut(b: GcBox, c: GcBox) {
    c == b.(color := c.color)
  }

  /** Only colors, queues, the root flag and counters differ. */
  ghost predicate Recolored(s: State, t: State) {
    && t.phase == s.phase && t.all == s.all && t.sweep == s.sweep && t.sweepPrev == s.sweepPrev && t.log == s.log
    && t.heap.Keys == s.heap.Keys
    && forall p :: p in s.heap ==> SameBut(s.heap[p], t.heap[p])
  }

  lemma RecoloredKeeps(s: State, t: State, root: seq<Edge>, kept: seq<Ptr>)
    requires Linked(s, kept, []) && Tidy(s.heap) && Closed(s.heap, []) && EdgesSafe(s.heap, [], root)
    requires Recolored(s, t)
    ensures Linked(t, kept, []) && Tidy(t.heap) && Closed(t.heap, []) && EdgesSafe(t.heap, [], root)
  {
    forall p | p in s.heap ensures t.heap[p].next == s.heap[p].next {
      assert SameBut(s.heap[p], t.heap[p]);
    }
    ListSame(s.heap, t.heap, s.all, kept + []);
    forall p | p in t.heap && Safe(t.heap, [], p) ensures EdgesSafe(t.heap, [], t.heap[p].edges) {
      assert SameBut(s.heap[p], t.heap[p]);
      assert Safe(s.heap, [], p);
      assert EdgesSafe(s.heap, [], s.heap[p].edges);
      RecoloredEdges(s, t, t.heap[p].edges);
    }
    RecoloredEdges(s, t, root);
    forall p | p in t.heap && (!t.heap[p].live || !t.heap[p].needsTrace) ensures t.heap[p].edges == [] {
      assert SameBut(s.heap[p], t.heap[p]);
    }
  }

  lemma RecoloredEdges(s: State, t: State, es: seq<Edge>)
    requires Recolored(s, t) && EdgesSafe(s.heap, [], es)
    ensures EdgesSafe(t.heap, [], es)
  {
    forall e | e in es ensures EdgeSafe(t.heap, [], e) {
      assert EdgeSafe(s.heap, [], e);
      assert SameBut(s.heap[e.to], t.heap[e.to]);
    }
  }

  /**
   * What every mutator action does to colors: marked objects stay marked, weakly marked ones
   * do not become white again, and no object that holds pointers becomes black.
   */
  ghost predicate Settles(h: Heap, k: Heap) {
    forall p :: p in h ==>
      && p in k && k[p].needsTrace == h[p].needsTrace
      && (!Uncolored(h[p].color) ==> !Uncolored(k[p].color))
      && (!h[p].color.White? ==> !k[p].color.White?)
      && (h[p].needsTrace && k[p].color.Black? ==> h[p].color.Black?)
  }

  lemma SettlesDone(h: Heap, k: Heap, es: seq<Edge>)
    requires Settles(h, k) && Done(h, es)
    ensures Done(k, es)
  {
    forall e | e in es ensures EdgeDone(k, e) {
      assert EdgeDone(h, e);
    }
  }

  // ----- queue bookkeeping -----

  lemma PushGray(s: State, t: State, p: Ptr)
    requires Queued(s) && p in s.heap && !s.heap[p].color.Gray?
    requires t.heap == SetColor(s.heap, p, Gray)
    requires (t.gray == s.gray + [p] && t.grayAgain == s.grayAgain)
          || (t.gray == s.gray && t.grayAgain == s.grayAgain + [p])
    ensures Queued(t)
  {
    var q, r := s.gray + s.grayAgain, t.gray + t.grayAgain;
    assert p !in q;
    if t.gray == s.gray + [p] {
      NoDupInsert(s.gray, s.grayAgain, p);
    } else {
      NoDupInsert(q, [], p);
      assert q + [] == q && q + [p] + [] == r;
    }
    forall x ensures x in r <==> ColorIs(t, x, Gray) {
      assert x in r <==> x in q || x == p;
      assert x in q <==> ColorIs(s, x, Gray);
    }
  }

  lemma PopGray(s: State, t: State, p: Ptr)
    requires Queued(s) && Popped(s) == Some(p)
    requires t.gray == Pop(s).gray && t.grayAgain == Pop(s).grayAgain
    requires p in s.heap && t.heap == SetColor(s.heap, p, Black)
    ensures Queued(t)
  {
    var q, r := s.gray + s.grayAgain, t.gray + t.grayAgain;
    var k := if s.gray != [] then |s.gray| - 1 else |q| - 1;
    assert q[k] == p;
    assert r == q[..k] + q[k + 1..];
    NoDupRemove(q, k);
    forall x ensures x in r <==> ColorIs(t, x, Gray) {
      assert x in q <==> ColorIs(s, x, Gray);
      assert x in r <==> x in q && x != p;
    }
  }

  lemma SameQueue(s: State, t: State)
    requires Queued(s) && t.gray == s.gray && t.grayAgain == s.grayAgain
    requires forall p :: ColorIs(s, p, Gray) <==> ColorIs(t, p, Gray)
    ensures Queued(t)
  {
  }

  // ----- tracing -----

  lemma SettlesTricolor(s: State, t: State, exempt: set<Ptr>)
    requires Recolored(s, t) && Settles(s.heap, t.heap) && Tidy(s.heap) && Tricolor(s.heap, exempt)
    ensures Tricolor(t.heap, exempt)
  {
    forall q | q in t.heap && t.heap[q].color.Black? && q !in exempt ensures Done(t.heap, t.heap[q].edges) {
      assert SameBut(s.heap[q], t.heap[q]);
      if s.heap[q].color.Black? {
        SettlesDone(s.heap, t.heap, s.heap[q].edges);
      }
    }
  }

  lemma TraceKeeps(s: State, p: Ptr, exempt: set<Ptr>)
    requires p in s.heap && s.heap[p].live && Marking(s, exempt) && Tidy(s.heap)
    ensures var t := Trace(s, p);
      Recolored(s, t) && Settles(s.heap, t.heap) && Marking(t, exempt) && !Uncolored(t.heap[p].color)
  {
    var t := Trace(s, p);
    if Uncolored(s.heap[p].color) {
      if s.heap[p].needsTrace {
        PushGray(s, t, p);
      } else {
        SameQueue(s, t);
      }
    }
    SettlesTricolor(s, t, exempt);
  }

  lemma TraceWeakKeeps(s: State, p: Ptr, exempt: set<Ptr>)
    requires p in s.heap && Marking(s, exempt)
    ensures var t := TraceWeak(s, p);
      Recolored(s, t) && Settles(s.heap, t.heap) && Marking(t, exempt) && !t.heap[p].color.White?
  {
    var t := TraceWeak(s, p);
    SameQueue(s, t);
    forall q | q in t.heap && t.heap[q].color.Black? && q !in exempt ensures Done(t.heap, t.heap[q].edges) {
      assert Done(s.heap, s.heap[q].edges);
      SettlesDone(s.heap, t.heap, s.heap[q].edges);
    }
  }

  lemma {:induction false} TraceEdgesKeeps(s: State, es: seq<Edge>, exempt: set<Ptr>)
    requires EdgesSafe(s.heap, [], es) && Marking(s, exempt) && Tidy(s.heap)
    ensures EdgesIn(s.heap, es)
    ensures var t := TraceEdges(s, es);
      Recolored(s, t) && Settles(s.heap, t.heap) && Marking(t, exempt) && Done(t.heap, es)
      && t.rootNeedsTrace == s.rootNeedsTrace
    decreases |es|
  {
    assert forall e :: e in es ==> EdgeSafe(s.heap, [], e);
    if es != [] {
      var e := es[0];
      assert EdgeSafe(s.heap, [], e);
      var u := TraceEdge(s, e);
      match e {
        case Strong(p) => TraceKeeps(s, p, exempt);
        case Weak(p) => TraceWeakKeeps(s, p, exempt);
      }
      RecoloredEdges(s, u, es);
      forall p | p in u.heap && (!u.heap[p].live || !u.heap[p].needsTrace) ensures u.heap[p].edges == [] {
        assert SameBut(s.heap[p], u.heap[p]);
      }
      assert EdgesSafe(u.heap, [], es[1..]) by {
        forall f | f in es[1..] ensures EdgeSafe(u.heap, [], f) { assert f in es; }
      }
      TraceEdgesKeeps(u, es[1..], exempt);
      var t := TraceEdges(u, es[1..]);
      RecoloredTransitive(s, u, t);
      SettlesDone(u.heap, t.heap, [e]);
      forall f | f in es ensures EdgeDone(t.heap, f) {
        if f != e { assert f in es[1..]; } else { assert f in [e]; }
      }
    }
  }

  lemma RecoloredTransitive(s: State, u: State, t: State)
    requires Recolored(s, u) && Recolored(u, t) && Settles(s.heap, u.heap) && Settles(u.heap, t.heap)
    ensures Recolored(s, t) && Settles(s.heap, t.heap)
  {
    forall p | p in s.heap ensures SameBut(s.heap[p], t.heap[p]) {
      assert SameBut(s.heap[p], u.heap[p]) && SameBut(u.heap[p], t.heap[p]);
    }
  }

  // ----- one step of marking -----

  lemma MarkOneReady(s: State, root: seq<Edge>, kept: seq<Ptr>)
    requires Inv(s, root, kept, []) && s.phase.Mark?
    ensures MarkReady(s, root)
    ensures Popped(s).Some? ==>
              ColorIs(s, Popped(s).value, Gray) && EdgesSafe(s.heap, [], s.heap[Popped(s).value].edges)
  {
    match Popped(s)
    case Some(p) =>
      assert p in s.gray + s.grayAgain;
      assert Safe(s.heap, [], p);
      assert EdgesSafe(s.heap, [], s.heap[p].edges);
      forall e | e in s.heap[p].edges ensures e.to in s.heap { assert EdgeSafe(s.heap, [], e); }
    case None =>
      forall e | e in root ensures e.to in s.heap { assert EdgeSafe(s.heap, [], e); }
  }

  lemma BlackenKeeps(s: State, p: Ptr)
    requires Marking(s, {}) && Popped(s) == Some(p) && ColorIs(s, p, Gray) && Tidy(s.heap)
    ensures var t := Blacken(s);
      && Recolored(s, t) && t.rootNeedsTrace == s.rootNeedsTrace && Marking(t, {p}) && Tidy(t.heap)
      && (forall e :: EdgeDone(s.heap, e) ==> EdgeDone(t.heap, e))
  {
    var t := Blacken(s);
    BlackenTricolor(s, t, p);
    PopGray(s, t, p);
  }

  lemma BlackenTricolor(s: State, t: State, p: Ptr)
    requires Tricolor(s.heap, {}) && p in s.heap && s.heap[p].color.Gray? && t.heap == SetColor(s.heap, p, Black)
    ensures Tricolor(t.heap, {p})
    ensures forall e :: EdgeDone(s.heap, e) ==> EdgeDone(t.heap, e)
  {
    forall q | q in t.heap && t.heap[q].color.Black? && q !in {p} ensures Done(t.heap, t.heap[q].edges) {
      assert Done(s.heap, s.heap[q].edges);
    }
  }

  /** Marking one object, or the root, keeps the invariant. */
  lemma MarkOneKeeps(s: State, root: seq<Edge>, kept: seq<Ptr>)
    requires Inv(s, root, kept, []) && s.phase.Mark?
    ensures MarkReady(s, root)
    ensures Inv(MarkOne(s, root), root, kept, []) && Recolored(s, MarkOne(s, root))
  {
    MarkOneReady(s, root, kept);
    var t := MarkOne(s, root);
    match Popped(s)
    case Some(p) =>
      BlackenKeeps(s, p);
      var u := Blacken(s);
      RecoloredEdges(s, u, s.heap[p].edges);
      TraceEdgesKeeps(u, s.heap[p].edges, {p});
      forall q | q in s.heap ensures SameBut(s.heap[q], t.heap[q]) {
        assert SameBut(s.heap[q], u.heap[q]) && SameBut(u.heap[q], t.heap[q]);
      }
      forall q | q in t.heap && t.heap[q].color.Black? && q !in {} ensures Done(t.heap, t.heap[q].edges) {
        if q == p { assert SameBut(s.heap[p], t.heap[p]); }
      }
      if !s.rootNeedsTrace {
        assert Done(u.heap, root) by {
          forall e | e in root ensures EdgeDone(u.heap, e) { assert EdgeDone(s.heap, e); }
        }
        SettlesDone(u.heap, t.heap, root);
      }
      RecoloredKeeps(s, t, root, kept);
    case None =>
      if s.rootNeedsTrace {
        TraceEdgesKeeps(s, root, {});
        assert Queued(t) by { SameQueue(TraceEdges(s, root), t); }
        RecoloredKeeps(s, t, root, kept);
      }
  }
}
