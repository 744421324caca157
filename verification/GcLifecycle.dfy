/** Every value is dropped exactly once and every box freed exactly once, in that order. */
module GcLifecycle {
  import opened Prelude
  import opened GcTypes
  import opened GcSpec
  import opened GcInvariant
  import opened GcRuns

  /** What the log says about an address; `Broken` is a double drop, a double free, or a leak of order. */
  datatype Fate = Absent | Present | Hollow | Broken

  function FateAfter(f: Fate, e: Event, p: Ptr): Fate {
    if e.p != p then f
    else match (e, f)
      case (Allocated(_), Absent) => Present
      case (Dropped(_), Present) => Hollow
      case (Freed(_), Hollow) => Absent
      case _ => Broken
  }

  function FateOf(log: seq<Event>, p: Ptr): Fate {
    if log == [] then Absent else FateAfter(FateOf(log[..|log| - 1], p), log[|log| - 1], p)
  }

  function Count(log: seq<Event>, e: Event): nat {
    if log == [] then 0 else Count(log[..|log| - 1], e) + (if log[|log| - 1] == e then 1 else 0)
  }

  /** In an unbroken log the counts of an address balance. */
  lemma {:induction false} FateCounts(log: seq<Event>, p: Ptr)
    requires !FateOf(log, p).Broken?
    ensures Count(log, Allocated(p)) == Count(log, Dropped(p)) + (if FateOf(log, p).Present? then 1 else 0)
    ensures Count(log, Dropped(p)) == Count(log, Freed(p)) + (if FateOf(log, p).Hollow? then 1 else 0)
    decreases |log|
  {
    if log != [] {
      FateCounts(log[..|log| - 1], p);
    }
  }

  lemma FateOfAppend(log: seq<Event>, e: Event, p: Ptr)
    ensures FateOf(log + [e], p) == FateAfter(FateOf(log, p), e, p)
  {
    assert (log + [e])[..|log|] == log;
  }

  function Expected(h: Heap, p: Ptr): Fate {
    if p !in h then Absent else if h[p].live then Present else Hollow
  }

  /** The log agrees with the memory, at every address. */
  ghost predicate Logged(h: Heap, log: seq<Event>) {
    forall p :: FateOf(log, p) == Expected(h, p)
  }

  lemma EventLogged(h: Heap, k: Heap, log: seq<Event>, e: Event)
    requires Logged(h, log) && forall q :: Expected(k, q) == FateAfter(Expected(h, q), e, q)
    ensures Logged(k, log + [e])
  {
    forall q ensures FateOf(log + [e], q) == Expected(k, q) {
      assert FateOf(log, q) == Expected(h, q);
      FateOfAppend(log, e, q);
    }
  }

  lemma ReleaseLogged(s: State, p: Ptr)
    requires p in s.heap && Logged(s.heap, s.log)
    ensures Logged(Release(s, p).heap, Release(s, p).log)
  {
    if s.heap[p].live {
      EventLogged(s.heap, DropValue(s.heap, p), s.log, Dropped(p));
      EventLogged(DropValue(s.heap, p), s.heap - {p}, s.log + [Dropped(p)], Freed(p));
      assert s.log + [Dropped(p)] + [Freed(p)] == Release(s, p).log;
    } else {
      EventLogged(s.heap, s.heap - {p}, s.log, Freed(p));
    }
  }

  lemma AllocateLogged(s: State, p: Ptr, size: nat, needsTrace: bool, value: seq<Edge>)
    requires p !in s.heap && Logged(s.heap, s.log)
    ensures var t := Allocate(s, p, size, needsTrace, value); Logged(t.heap, t.log)
  {
    EventLogged(s.heap, Allocate(s, p, size, needsTrace, value).heap, s.log, Allocated(p));
  }

  /** Nothing is allocated, freed or dropped. */
  lemma SameLogged(s: State, t: State)
    requires Logged(s.heap, s.log) && t.log == s.log && t.heap.Keys == s.heap.Keys
    requires forall p :: p in s.heap ==> t.heap[p].live == s.heap[p].live
    ensures Logged(t.heap, t.log)
  {
    forall q ensures FateOf(t.log, q) == Expected(t.heap, q) {
      assert FateOf(s.log, q) == Expected(s.heap, q);
      assert q in t.heap.Keys <==> q in s.heap.Keys;
    }
  }

  lemma UnlinkLogged(s: State)
    requires SweepReady(s) && Logged(s.heap, s.log)
    ensures Logged(Unlink(s).heap, Unlink(s).log) && s.sweep.value in Unlink(s).heap
  {
    SameLogged(s, Unlink(s));
  }

  lemma SweepOneLogged(s: State)
    requires SweepReady(s) && Logged(s.heap, s.log)
    ensures Logged(SweepOne(s).heap, SweepOne(s).log)
  {
    var p, t := s.sweep.value, SweepOne(s);
    if s.heap[p].color.White? {
      UnlinkLogged(s);
      ReleaseLogged(Unlink(s), p);
    } else if s.heap[p].color.WhiteWeak? && s.heap[p].live {
      EventLogged(s.heap, t.heap, s.log, Dropped(p));
    } else {
      SameLogged(s, t);
    }
  }

  lemma RecoloredLogged(s: State, t: State)
    requires Logged(s.heap, s.log) && Recolored(s, t)
    ensures Logged(t.heap, t.log)
  {
    forall p | p in s.heap ensures t.heap[p].live == s.heap[p].live {
      assert SameBut(s.heap[p], t.heap[p]);
    }
    SameLogged(s, t);
  }

  lemma QuietLogged(w: World, st: Step)
    requires Enabled(w, st) && Logged(w.s.heap, w.s.log)
    requires st.Enter? || st.Leave? || st.LoadRoot? || st.Load? || st.Downgrade? || st.TryUpgrade? || st.WriteRoot?
          || st.SetPacing? || st.WakeUp? || st.BeginSweep? || st.Finish?
    ensures Logged(Do(w, st).s.heap, Do(w, st).s.log)
  {
  }

  lemma BarrierLogged(w: World, st: Step)
    requires Enabled(w, st) && Logged(w.s.heap, w.s.log)
    requires st.Backward? || st.BackwardWeak? || st.Forward? || st.ForwardWeak? || st.ResurrectStrong?
      || st.ResurrectWeak?
          || st.Write?
    ensures Logged(Do(w, st).s.heap, Do(w, st).s.log)
  {
    SameLogged(w.s, Do(w, st).s);
  }

  lemma StepLogged(w: World, st: Step, kept: seq<Ptr>, todo: seq<Ptr>)
    requires WorldInv(w, kept, todo) && Enabled(w, st) && Logged(w.s.heap, w.s.log)
    ensures Logged(Do(w, st).s.heap, Do(w, st).s.log)
  {
    if st.Alloc? {
      AllocateLogged(w.s, st.p, st.size, st.needsTrace, st.value);
    } else if st.SweepStep? {
      SweepOneLogged(w.s);
    } else if st.MarkStep? {
      MarkOneKeeps(w.s, w.root, kept);
      RecoloredLogged(w.s, MarkOne(w.s, w.root));
    } else if st.Backward? || st.BackwardWeak? || st.Forward? || st.ForwardWeak? || st.ResurrectStrong?
      || st.ResurrectWeak?
        || st.Write? {
      BarrierLogged(w, st);
    } else {
      QuietLogged(w, st);
    }
  }

  lemma {:induction false} RunLogged(w: World, steps: seq<Step>, kept: seq<Ptr>, todo: seq<Ptr>)
    returns (kept': seq<Ptr>, todo': seq<Ptr>)
    requires WorldInv(w, kept, todo) && Runs(w, steps) && Logged(w.s.heap, w.s.log)
    ensures WorldInv(After(w, steps), kept', todo')
    ensures Logged(After(w, steps).s.heap, After(w, steps).s.log)
    decreases |steps|
  {
    if steps == [] {
      kept', todo' := kept, todo;
    } else {
      StepKeeps(w, steps[0], kept, todo);
      StepLogged(w, steps[0], kept, todo);
      kept', todo' := RunLogged(Do(w, steps[0]), steps[1..],
        KeptNext(w, steps[0], kept, todo), TodoNext(steps[0], kept, todo));
    }
  }

  // ----- the end of the arena -----

  /** `Context::drop`: every box of the list is dropped if it still holds a value, and freed. */
  function ReleaseAll(s: State, l: seq<Ptr>): State
    requires forall i :: 0 <= i < |l| ==> l[i] in s.heap
    requires NoDup(l)
    decreases |l|
  {
    if l == [] then s
    else
      var t := Release(s, l[0]);
      assert forall i :: 0 <= i < |l[1..]| ==> l[1..][i] == l[i + 1];
      ReleaseAll(t, l[1..])
  }

  /** A list is fit to be released. */
  lemma ListIsReleasable(h: Heap, head: Option<Ptr>, l: seq<Ptr>)
    requires IsList(h, head, l)
    ensures NoDup(l) && forall i :: 0 <= i < |l| ==> l[i] in h
  {
  }

  /** One box of the list released: the rest is the list that its successor heads. */
  lemma ReleaseHead(s: State, l: seq<Ptr>)
    requires l != [] && IsList(s.heap, Some(l[0]), l) && l[0] in s.heap
    ensures IsList(Release(s, l[0]).heap, s.heap[l[0]].next, l[1..]) && NoDup(l)
    ensures forall i :: 0 <= i < |l| ==> l[i] in s.heap
    ensures NoDup(l[1..]) && forall i :: 0 <= i < |l[1..]| ==> l[1..][i] in Release(s, l[0]).heap
    ensures ReleaseAll(s, l) == ReleaseAll(Release(s, l[0]), l[1..])
  {
    ListCut(s.heap, Some(l[0]), l, 0);
    assert l[..0] + l[1..] == l[1..];
    ListIsReleasable(s.heap, Some(l[0]), l);
    ListIsReleasable(Release(s, l[0]).heap, s.heap[l[0]].next, l[1..]);
  }

  lemma {:induction false} ReleaseAllLogged(s: State, l: seq<Ptr>)
    requires NoDup(l) && (forall p :: p in s.heap <==> p in l) && Logged(s.heap, s.log)
    ensures ReleaseAll(s, l).heap == map[] && Logged(map[], ReleaseAll(s, l).log)
    decreases |l|
  {
    if l != [] {
      ReleaseLogged(s, l[0]);
      assert forall p :: p in l <==> p == l[0] || p in l[1..];
      ReleaseAllLogged(Release(s, l[0]), l[1..]);
    }
  }

  /**
   * Drop once, free once: over any run ended by dropping the context, every address was
   * allocated, dropped and freed the same number of times, in that order each time.
   */
  lemma DroppedOnceFreedOnce(steps: seq<Step>) returns (l: seq<Ptr>, end: State)
    requires Runs(START, steps)
    ensures var s := After(START, steps).s;
      && IsList(s.heap, s.all, l) && end == ReleaseAll(s.(phase := Phase.Drop), l) && end.heap == map[]
      && forall p :: FateOf(end.log, p) == Absent
                  && Count(end.log, Allocated(p)) == Count(end.log, Dropped(p)) == Count(end.log, Freed(p))
  {
    InitialInv();
    var kept, todo := RunLogged(START, steps, [], []);
    l := kept + todo;
    var s := After(START, steps).s;
    end := ReleaseAll(s.(phase := Phase.Drop), l);
    ReleaseAllLogged(s.(phase := Phase.Drop), l);
    forall p ensures FateOf(end.log, p) == Absent
      && Count(end.log, Allocated(p)) == Count(end.log, Dropped(p)) == Count(end.log, Freed(p)) {
      assert FateOf(end.log, p) == Expected(map[], p);
      FateCounts(end.log, p);
    }
  }

  /** At every point of a run, no value is dropped twice and no box freed before its value is dropped. */
  lemma NothingIsBroken(steps: seq<Step>, p: Ptr)
    requires Runs(START, steps)
    ensures FateOf(After(START, steps).s.log, p) == Expected(After(START, steps).s.heap, p)
  {
    InitialInv();
    var kept, todo := RunLogged(START, steps, [], []);
  }
}
