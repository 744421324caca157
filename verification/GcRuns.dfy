/**
 * Whole runs of an arena: mutator actions inside callbacks and collector steps between them,
 * in any order the API allows.
 */
module GcRuns {
  import opened Prelude
  import opened GcTypes
  import opened GcSpec
  import opened GcInvariant
  import opened GcMutation
  import opened GcSweep
  import opened GcReach
  import M = GcMetrics

  datatype Mode = Outside | Mutate | MutateRoot | Finalize

  /** What a write barrier called in the current callback permits until that callback ends. */
  datatype Grant =
    | AnyChild(parent: Ptr)
    | Child(parent: Ptr, child: Ptr)
    | WeakChild(parent: Ptr, child: Ptr)
    | AnyParent(child: Ptr)
    | AnyParentWeak(child: Ptr)

  /** `temps` and `weakTemps` are the `Gc` and `GcWeak` pointers the running callback holds. */
  datatype World = World(
    s: State,
    root: seq<Edge>,
    mode: Mode,
    temps: set<Ptr>,
    weakTemps: set<Ptr>,
    grants: set<Grant>)

  const START := World(INITIAL, [], Outside, {}, {}, {})

  datatype Step =
    | Enter(mode: Mode)
    | Leave
    | Alloc(p: Ptr, size: nat, needsTrace: bool, value: seq<Edge>)
    | LoadRoot(i: nat)
    | Load(p: Ptr, i: nat)
    | Downgrade(p: Ptr)
    | TryUpgrade(p: Ptr)
    | Backward(parent: Ptr, any: Option<Ptr>)
    | BackwardWeak(parent: Ptr, child: Ptr)
    | Forward(from: Option<Ptr>, child: Ptr)
    | ForwardWeak(from: Option<Ptr>, child: Ptr)
    | Write(p: Ptr, value: seq<Edge>)
    | WriteRoot(value: seq<Edge>)
    | ResurrectStrong(p: Ptr)
    | ResurrectWeak(p: Ptr)
    | SetPacing(pacing: M.Pacing)
    | WakeUp
    | MarkStep
    | BeginSweep
    | SweepStep
    | Finish(hasSlept: bool)

  predicate Holds(w: World, e: Edge) {
    match e
    case Strong(p) => p in w.temps
    case Weak(p) => p in w.weakTemps
  }

  predicate Granted(grants: set<Grant>, parent: Ptr, e: Edge) {
    AnyChild(parent) in grants ||
    match e
    case Strong(c) => Child(parent, c) in grants || AnyParent(c) in grants
    case Weak(c) => WeakChild(parent, c) in grants || AnyParentWeak(c) in grants
  }

  predicate ParentHeld(w: World, parent: Option<Ptr>) {
    parent.Some? ==> parent.value in w.temps
  }

  /** When a step may be taken. Collector steps are taken only between callbacks. */
  predicate Enabled(w: World, st: Step) {
    match st
    case Enter(mode) =>
      w.mode.Outside? && !mode.Outside? && (mode.Finalize? ==> Marked(w.s))
    case Leave => !w.mode.Outside?
    case Alloc(p, size, needsTrace, value) =>
      !w.mode.Outside? && p !in w.s.heap && (forall e :: e in value ==> Holds(w, e)) && (!needsTrace ==> value == [])
    case LoadRoot(i) => !w.mode.Outside? && i < |w.root|
    case Load(p, i) => p in w.temps && p in w.s.heap && i < |w.s.heap[p].edges|
    case Downgrade(p) => p in w.temps
    case TryUpgrade(p) => p in w.weakTemps && p in w.s.heap
    case Backward(parent, any) => parent in w.temps && ParentHeld(w, any)
    case BackwardWeak(parent, child) => parent in w.temps && child in w.weakTemps
    case Forward(from, child) => ParentHeld(w, from) && child in w.temps && child in w.s.heap
    case ForwardWeak(from, child) => ParentHeld(w, from) && child in w.weakTemps && child in w.s.heap
    case Write(p, value) =>
      p in w.temps && p in w.s.heap && (!w.s.heap[p].needsTrace ==> value == [])
      && forall e :: e in value ==> e in w.s.heap[p].edges || (Holds(w, e) && Granted(w.grants, p, e))
    case WriteRoot(value) =>
      w.mode.MutateRoot? && forall e :: e in value ==> e in w.root || Holds(w, e)
    case ResurrectStrong(p) => w.mode.Finalize? && p in w.temps && p in w.s.heap
    case ResurrectWeak(p) => w.mode.Finalize? && p in w.weakTemps && p in w.s.heap
    case SetPacing(_) => true
    case WakeUp => w.mode.Outside? && w.s.phase.Sleep?
    case MarkStep => w.mode.Outside? && w.s.phase.Mark? && GrayRemaining(w.s) && MarkReady(w.s, w.root)
    case BeginSweep => w.mode.Outside? && Marked(w.s)
    case SweepStep => w.mode.Outside? && w.s.phase.Sweep? && SweepReady(w.s)
    case Finish(_) => w.mode.Outside? && w.s.phase.Sweep? && w.s.sweep.None?
  }

  function Hold(w: World, e: Edge): World {
    match e
    case Strong(p) => w.(temps := w.temps + {p})
    case Weak(p) => w.(weakTemps := w.weakTemps + {p})
  }

  function BackwardGrant(parent: Ptr, child: Option<Ptr>): Grant {
    match child
    case None => AnyChild(parent)
    case Some(c) => Child(parent, c)
  }

  function ForwardGrant(parent: Option<Ptr>, child: Ptr): Grant {
    match parent
    case None => AnyParent(child)
    case Some(p) => Child(p, child)
  }

  function ForwardWeakGrant(parent: Option<Ptr>, child: Ptr): Grant {
    match parent
    case None => AnyParentWeak(child)
    case Some(p) => WeakChild(p, child)
  }

  function Do(w: World, st: Step): World
    requires Enabled(w, st)
  {
    match st
    case Enter(mode) =>
      w.(mode := mode, s := if mode.MutateRoot? then RootBarrier(w.s) else w.s)
    case Leave => w.(mode := Outside, temps := {}, weakTemps := {}, grants := {})
    case Alloc(p, size, needsTrace, value) =>
      w.(s := Allocate(w.s, p, size, needsTrace, value), temps := w.temps + {p})
    case LoadRoot(i) => Hold(w, w.root[i])
    case Load(p, i) => Hold(w, w.s.heap[p].edges[i])
    case Downgrade(p) => w.(weakTemps := w.weakTemps + {p})
    case TryUpgrade(p) => if Upgrade(w.s, p) then w.(temps := w.temps + {p}) else w
    case Backward(parent, any) =>
      w.(s := BackwardBarrier(w.s, parent, any), grants := w.grants + {BackwardGrant(parent, any)})
    case BackwardWeak(parent, child) =>
      w.(s := BackwardBarrierWeak(w.s, parent, child), grants := w.grants + {WeakChild(parent, child)})
    case Forward(from, child) =>
      w.(s := ForwardBarrier(w.s, from, child), grants := w.grants + {ForwardGrant(from, child)})
    case ForwardWeak(from, child) =>
      w.(s := ForwardBarrierWeak(w.s, from, child), grants := w.grants + {ForwardWeakGrant(from, child)})
    case Write(p, value) => w.(s := Store(w.s, p, value))
    case WriteRoot(value) => w.(root := value)
    case ResurrectStrong(p) => w.(s := Resurrect(w.s, p))
    case ResurrectWeak(p) =>
      if w.s.heap[p].live then w.(s := Resurrect(w.s, p), temps := w.temps + {p}) else w
    case SetPacing(pacing) => w.(s := w.s.(m := w.s.m.(pacing := pacing)))
    case WakeUp => w.(s := Wake(w.s))
    case MarkStep => w.(s := MarkOne(w.s, w.root))
    case BeginSweep => w.(s := StartSweep(w.s))
    case SweepStep => w.(s := SweepOne(w.s))
    case Finish(hasSlept) => w.(s := EndCycle(w.s, hasSlept))
  }

  // ----- the invariant of a run -----

  predicate GrantOk(s: State, g: Grant) {
    match g
    case AnyChild(p) =>
      p in s.heap && (s.phase.Mark? && s.heap[p].needsTrace ==> !s.heap[p].color.Black?)
    case Child(p, c) =>
      p in s.heap && c in s.heap
      && (s.phase.Mark? && s.heap[p].needsTrace && s.heap[p].color.Black? ==> !Uncolored(s.heap[c].color))
    case WeakChild(p, c) =>
      p in s.heap && c in s.heap
      && (s.phase.Mark? && s.heap[p].needsTrace && s.heap[p].color.Black? ==> !s.heap[c].color.White?)
    case AnyParent(c) =>
      c in s.heap && (s.phase.Mark? ==> !Uncolored(s.heap[c].color))
    case AnyParentWeak(c) =>
      c in s.heap && (s.phase.Mark? ==> !s.heap[c].color.White?)
  }

  ghost predicate HeldOk(w: World, todo: seq<Ptr>) {
    && (forall p :: p in w.temps ==> Safe(w.s.heap, todo, p))
    && (forall p :: p in w.weakTemps ==> WeakSafe(w.s.heap, todo, p))
    && (forall g :: g in w.grants ==> GrantOk(w.s, g))
  }

  predicate ModeOk(w: World) {
    match w.mode
    case Outside => w.temps == {} && w.weakTemps == {} && w.grants == {}
    case Mutate => true
    case MutateRoot => w.s.phase.Mark? ==> w.s.rootNeedsTrace
    case Finalize => w.s.phase.Mark?
  }

  ghost predicate WorldInv(w: World, kept: seq<Ptr>, todo: seq<Ptr>) {
    Inv(w.s, w.root, kept, todo) && HeldOk(w, todo) && ModeOk(w)
  }

  /** How a step splits the list anew. */
  function KeptNext(w: World, st: Step, kept: seq<Ptr>, todo: seq<Ptr>): seq<Ptr> {
    match st
    case Alloc(p, _, _, _) => [p] + kept
    case BeginSweep => []
    case SweepStep => if todo != [] && todo[0] in w.s.heap then KeptAfter(w.s, kept, todo[0]) else kept
    case _ => kept
  }

  function TodoNext(st: Step, kept: seq<Ptr>, todo: seq<Ptr>): seq<Ptr> {
    match st
    case BeginSweep => kept
    case SweepStep => if todo != [] then todo[1..] else []
    case _ => todo
  }

  /** Steps that only touch the heap inside a callback: the held pointers and grants survive. */
  lemma HeldKeeps(w: World, t: State, todo: seq<Ptr>)
    requires HeldOk(w, todo) && t.phase == w.s.phase
    requires KeepsSafe(w.s.heap, t.heap, todo) && Settles(w.s.heap, t.heap)
    ensures HeldOk(w.(s := t), todo)
  {
    forall g | g in w.grants ensures GrantOk(t, g) {
      assert GrantOk(w.s, g);
    }
  }

  lemma GrantKeeps(w: World, t: State, g: Grant, kept: seq<Ptr>, todo: seq<Ptr>)
    requires WorldInv(w, kept, todo) && Inv(t, w.root, kept, todo)
    requires t.phase == w.s.phase && t.rootNeedsTrace == w.s.rootNeedsTrace
    requires KeepsSafe(w.s.heap, t.heap, todo) && Settles(w.s.heap, t.heap)
    requires GrantOk(t, g) && !w.mode.Outside?
    ensures WorldInv(w.(s := t, grants := w.grants + {g}), kept, todo)
  {
    HeldKeeps(w, t, todo);
  }

  lemma BackwardKeeps(w: World, st: Step, kept: seq<Ptr>, todo: seq<Ptr>)
    requires WorldInv(w, kept, todo) && Enabled(w, st) && (st.Backward? || st.BackwardWeak?)
    ensures WorldInv(Do(w, st), kept, todo)
  {
    assert Safe(w.s.heap, todo, st.parent);
    match st {
      case Backward(parent, any) =>
        assert any.Some? ==> Safe(w.s.heap, todo, any.value);
        BackwardBarrierKeeps(w.s, w.root, kept, todo, parent, any);
        GrantKeeps(w, BackwardBarrier(w.s, parent, any), BackwardGrant(parent, any), kept, todo);
      case BackwardWeak(parent, child) =>
        assert WeakSafe(w.s.heap, todo, child);
        BackwardBarrierWeakKeeps(w.s, w.root, kept, todo, parent, child);
        GrantKeeps(w, BackwardBarrierWeak(w.s, parent, child), WeakChild(parent, child), kept, todo);
    }
  }

  lemma ForwardKeeps(w: World, st: Step, kept: seq<Ptr>, todo: seq<Ptr>)
    requires WorldInv(w, kept, todo) && Enabled(w, st) && st.Forward?
    ensures WorldInv(Do(w, st), kept, todo)
  {
    assert st.from.Some? ==> Safe(w.s.heap, todo, st.from.value);
    ForwardBarrierKeeps(w.s, w.root, kept, todo, st.from, st.child);
    GrantKeeps(w, ForwardBarrier(w.s, st.from, st.child), ForwardGrant(st.from, st.child), kept, todo);
  }

  lemma ForwardWeakKeeps(w: World, st: Step, kept: seq<Ptr>, todo: seq<Ptr>)
    requires WorldInv(w, kept, todo) && Enabled(w, st) && st.ForwardWeak?
    ensures WorldInv(Do(w, st), kept, todo)
  {
    assert st.from.Some? ==> Safe(w.s.heap, todo, st.from.value);
    ForwardBarrierWeakKeeps(w.s, w.root, kept, todo, st.from, st.child);
    GrantKeeps(w, ForwardBarrierWeak(w.s, st.from, st.child), ForwardWeakGrant(st.from, st.child), kept, todo);
  }

  /** Every stored pointer was in the value before or is covered by a barrier. */
  lemma WriteIsDone(w: World, p: Ptr, value: seq<Edge>, kept: seq<Ptr>, todo: seq<Ptr>)
    requires WorldInv(w, kept, todo) && Enabled(w, Write(p, value))
    ensures EdgesSafe(w.s.heap, todo, value)
    ensures w.s.phase.Mark? && w.s.heap[p].color.Black? ==> Done(w.s.heap, value)
  {
    forall e | e in value ensures EdgeSafe(w.s.heap, todo, e) {
      if e in w.s.heap[p].edges {
        assert Safe(w.s.heap, todo, p);
      }
    }
    if w.s.phase.Mark? && w.s.heap[p].color.Black? {
      forall e | e in value ensures EdgeDone(w.s.heap, e) {
        if e in w.s.heap[p].edges {
          assert Done(w.s.heap, w.s.heap[p].edges);
        } else {
          GrantCovers(w, p, e);
        }
      }
    }
  }

  lemma GrantCovers(w: World, p: Ptr, e: Edge)
    requires forall g :: g in w.grants ==> GrantOk(w.s, g)
    requires Granted(w.grants, p, e) && p in w.s.heap && w.s.heap[p].needsTrace
    requires w.s.phase.Mark? && w.s.heap[p].color.Black?
    ensures EdgeDone(w.s.heap, e)
  {
    assert AnyChild(p) in w.grants ==> GrantOk(w.s, AnyChild(p));
    match e
    case Strong(c) =>
      assert Child(p, c) in w.grants ==> GrantOk(w.s, Child(p, c));
      assert AnyParent(c) in w.grants ==> GrantOk(w.s, AnyParent(c));
    case Weak(c) =>
      assert WeakChild(p, c) in w.grants ==> GrantOk(w.s, WeakChild(p, c));
      assert AnyParentWeak(c) in w.grants ==> GrantOk(w.s, AnyParentWeak(c));
  }

  lemma HoldStepKeeps(w: World, st: Step, kept: seq<Ptr>, todo: seq<Ptr>)
    requires WorldInv(w, kept, todo) && Enabled(w, st)
    requires st.LoadRoot? || st.Load? || st.Downgrade? || st.TryUpgrade?
    ensures WorldInv(Do(w, st), kept, todo)
  {
    match st {
      case LoadRoot(i) =>
        assert EdgeSafe(w.s.heap, todo, w.root[i]);
      case Load(p, i) =>
        assert Safe(w.s.heap, todo, p);
        assert EdgeSafe(w.s.heap, todo, w.s.heap[p].edges[i]);
      case Downgrade(p) =>
        assert Safe(w.s.heap, todo, p);
      case TryUpgrade(p) =>
        UpgradeIsExact(w.s, w.root, kept, todo, p);
    }
  }

  lemma CallbackStepKeeps(w: World, st: Step, kept: seq<Ptr>, todo: seq<Ptr>)
    requires WorldInv(w, kept, todo) && Enabled(w, st)
    requires st.Enter? || st.Leave? || st.LoadRoot? || st.Load? || st.Downgrade? || st.TryUpgrade? || st.WriteRoot?
          || st.SetPacing?
    ensures WorldInv(Do(w, st), kept, todo)
  {
    match st {
      case Enter(mode) =>
        RootBarrierKeeps(w.s, w.root, w.root, kept, todo);
      case WriteRoot(value) =>
        forall e | e in value ensures EdgeSafe(w.s.heap, todo, e) {}
        SetRootKeeps(w.s, w.root, value, kept, todo);
      case SetPacing(_) =>
        forall g | g in w.grants ensures GrantOk(Do(w, st).s, g) { assert GrantOk(w.s, g); }
      case Leave =>
      case _ => HoldStepKeeps(w, st, kept, todo);
    }
  }

  lemma AllocStepKeeps(w: World, st: Step, kept: seq<Ptr>, todo: seq<Ptr>)
    requires WorldInv(w, kept, todo) && Enabled(w, st) && st.Alloc?
    ensures WorldInv(Do(w, st), KeptNext(w, st, kept, todo), todo)
  {
    match st {
      case Alloc(p, size, needsTrace, value) =>
        forall e | e in value ensures EdgeSafe(w.s.heap, todo, e) {}
        AllocateKeeps(w.s, w.root, kept, todo, p, size, needsTrace, value);
        HeldKeeps(w, Do(w, st).s, todo);
    }
  }

  lemma WriteStepKeeps(w: World, p: Ptr, value: seq<Edge>, kept: seq<Ptr>, todo: seq<Ptr>)
    requires WorldInv(w, kept, todo) && Enabled(w, Write(p, value))
    ensures WorldInv(Do(w, Write(p, value)), kept, todo)
  {
    WriteIsDone(w, p, value, kept, todo);
    StoreKeeps(w.s, w.root, kept, todo, p, value);
    HeldKeeps(w, Store(w.s, p, value), todo);
  }

  lemma ResurrectStepKeeps(w: World, st: Step, kept: seq<Ptr>, todo: seq<Ptr>)
    requires WorldInv(w, kept, todo) && Enabled(w, st) && (st.ResurrectStrong? || st.ResurrectWeak?)
    ensures WorldInv(Do(w, st), kept, todo)
  {
    if st.ResurrectStrong? || w.s.heap[st.p].live {
      ResurrectKeeps(w.s, w.root, kept, todo, st.p);
      HeldKeeps(w, Resurrect(w.s, st.p), todo);
    }
  }

  lemma HeapStepKeeps(w: World, st: Step, kept: seq<Ptr>, todo: seq<Ptr>)
    requires WorldInv(w, kept, todo) && Enabled(w, st)
    requires st.Alloc? || st.Write? || st.ResurrectStrong? || st.ResurrectWeak?
    ensures WorldInv(Do(w, st), KeptNext(w, st, kept, todo), todo)
  {
    match st {
      case Alloc(_, _, _, _) => AllocStepKeeps(w, st, kept, todo);
      case Write(p, value) => WriteStepKeeps(w, p, value, kept, todo);
      case _ => ResurrectStepKeeps(w, st, kept, todo);
    }
  }

  lemma CollectStepKeeps(w: World, st: Step, kept: seq<Ptr>, todo: seq<Ptr>)
    requires WorldInv(w, kept, todo) && Enabled(w, st)
    requires st.WakeUp? || st.MarkStep? || st.BeginSweep? || st.SweepStep? || st.Finish?
    ensures WorldInv(Do(w, st), KeptNext(w, st, kept, todo), TodoNext(st, kept, todo))
  {
    match st {
      case WakeUp => WakeKeeps(w.s, w.root, kept);
      case MarkStep => MarkOneKeeps(w.s, w.root, kept);
      case BeginSweep => StartSweepKeeps(w.s, w.root, kept);
      case SweepStep => SweepOneKeeps(w.s, w.root, kept, todo);
      case Finish(hasSlept) => EndCycleKeeps(w.s, w.root, kept, hasSlept);
    }
  }

  /** Every step of a run keeps the invariant. */
  lemma StepKeeps(w: World, st: Step, kept: seq<Ptr>, todo: seq<Ptr>)
    requires WorldInv(w, kept, todo) && Enabled(w, st)
    ensures WorldInv(Do(w, st), KeptNext(w, st, kept, todo), TodoNext(st, kept, todo))
  {
    if st.Backward? || st.BackwardWeak? {
      BackwardKeeps(w, st, kept, todo);
    } else if st.Forward? {
      ForwardKeeps(w, st, kept, todo);
    } else if st.ForwardWeak? {
      ForwardWeakKeeps(w, st, kept, todo);
    } else if st.Alloc? || st.Write? || st.ResurrectStrong? || st.ResurrectWeak? {
      HeapStepKeeps(w, st, kept, todo);
    } else if st.WakeUp? || st.MarkStep? || st.BeginSweep? || st.SweepStep? || st.Finish? {
      CollectStepKeeps(w, st, kept, todo);
    } else {
      CallbackStepKeeps(w, st, kept, todo);
    }
  }

  // ----- runs -----

  /** `steps` can be taken one after the other from `w`. */
  predicate Runs(w: World, steps: seq<Step>)
    decreases |steps|
  {
    steps == [] || (Enabled(w, steps[0]) && Runs(Do(w, steps[0]), steps[1..]))
  }

  function After(w: World, steps: seq<Step>): World
    requires Runs(w, steps)
    decreases |steps|
  {
    if steps == [] then w else After(Do(w, steps[0]), steps[1..])
  }

  lemma {:induction false} RunKeeps(w: World, steps: seq<Step>, kept: seq<Ptr>, todo: seq<Ptr>)
    returns (kept': seq<Ptr>, todo': seq<Ptr>)
    requires WorldInv(w, kept, todo) && Runs(w, steps)
    ensures WorldInv(After(w, steps), kept', todo')
    decreases |steps|
  {
    if steps == [] {
      kept', todo' := kept, todo;
    } else {
      StepKeeps(w, steps[0], kept, todo);
      kept', todo' := RunKeeps(Do(w, steps[0]), steps[1..],
        KeptNext(w, steps[0], kept, todo), TodoNext(steps[0], kept, todo));
    }
  }

  // ----- what the invariant is for -----

  lemma {:induction false} ReachedIsSafe(w: World, kept: seq<Ptr>, todo: seq<Ptr>, p: Ptr, n: nat)
    requires WorldInv(w, kept, todo) && ReachIn(w.s.heap, w.root, w.temps, p, n)
    ensures Safe(w.s.heap, todo, p)
    decreases n
  {
    if n == 0 {
      if Strong(p) in w.root {
        assert EdgeSafe(w.s.heap, todo, Strong(p));
      }
    } else {
      var q :| ReachIn(w.s.heap, w.root, w.temps, q, n - 1) && q in w.s.heap && Strong(p) in w.s.heap[q].edges;
      ReachedIsSafe(w, kept, todo, q, n - 1);
      assert EdgeSafe(w.s.heap, todo, Strong(p));
    }
  }

  /** No pointer the program can get at dangles, and no value it can get at has been dropped. */
  ghost predicate MemorySafe(w: World) {
    && (forall p :: Reachable(w.s.heap, w.root, w.temps, p) ==> p in w.s.heap && w.s.heap[p].live)
    && (forall p :: WeaklyReferenced(w.s.heap, w.root, w.temps, p) || p in w.weakTemps ==> p in w.s.heap)
  }

  lemma InvIsSafe(w: World, kept: seq<Ptr>, todo: seq<Ptr>)
    requires WorldInv(w, kept, todo)
    ensures MemorySafe(w)
  {
    var h := w.s.heap;
    forall p | Reachable(h, w.root, w.temps, p) ensures Safe(h, todo, p) {
      var n: nat :| ReachIn(h, w.root, w.temps, p, n);
      ReachedIsSafe(w, kept, todo, p, n);
    }
    forall p | WeaklyReferenced(h, w.root, w.temps, p) ensures p in h {
      if Weak(p) in w.root {
        assert EdgeSafe(h, todo, Weak(p));
      } else {
        var q :| Reachable(h, w.root, w.temps, q) && q in h && Weak(p) in h[q].edges;
        assert EdgesSafe(h, todo, h[q].edges);
        assert EdgeSafe(h, todo, Weak(p));
      }
    }
  }

  /**
   * Safety over whole runs: after any interleaving of callbacks and collector steps, everything
   * strongly reachable from the root or from the pointers the callback holds is allocated and
   * its value intact, and every weak pointer in reach points to an allocated box.
   */
  lemma RunsAreSafe(steps: seq<Step>)
    requires Runs(START, steps)
    ensures MemorySafe(After(START, steps))
  {
    InitialInv();
    var kept, todo := RunKeeps(START, steps, [], []);
    InvIsSafe(After(START, steps), kept, todo);
  }

  lemma {:induction false} ReachedIsBlack(s: State, root: seq<Edge>, kept: seq<Ptr>, p: Ptr, n: nat)
    requires Inv(s, root, kept, []) && Marked(s) && ReachIn(s.heap, root, {}, p, n)
    ensures ColorIs(s, p, Black)
    decreases n
  {
    NoGrayLeft(s);
    if n == 0 {
      assert EdgeDone(s.heap, Strong(p));
    } else {
      var q :| ReachIn(s.heap, root, {}, q, n - 1) && q in s.heap && Strong(p) in s.heap[q].edges;
      ReachedIsBlack(s, root, kept, q, n - 1);
      assert Done(s.heap, s.heap[q].edges);
      assert EdgeDone(s.heap, Strong(p));
    }
  }

  /**
   * Marking is complete: whenever `mark_one` finds nothing left to do, however many barriers,
   * upgrades and resurrections came in between, everything strongly reachable from the root is
   * black and everything weakly referenced from there is not white.
   */
  lemma MarkingIsComplete(s: State, root: seq<Edge>, kept: seq<Ptr>)
    requires Inv(s, root, kept, []) && Marked(s)
    ensures forall p :: Reachable(s.heap, root, {}, p) ==> ColorIs(s, p, Black)
    ensures forall p :: WeaklyReferenced(s.heap, root, {}, p) ==> p in s.heap && !s.heap[p].color.White?
  {
    forall p | Reachable(s.heap, root, {}, p) ensures ColorIs(s, p, Black) {
      var n: nat :| ReachIn(s.heap, root, {}, p, n);
      ReachedIsBlack(s, root, kept, p, n);
    }
    forall p | WeaklyReferenced(s.heap, root, {}, p) ensures p in s.heap && !s.heap[p].color.White? {
      if Weak(p) in root {
        assert EdgeDone(s.heap, Weak(p));
      } else {
        var q :| Reachable(s.heap, root, {}, q) && q in s.heap && Weak(p) in s.heap[q].edges;
        assert Done(s.heap, s.heap[q].edges);
        assert EdgeDone(s.heap, Weak(p));
      }
    }
  }

  /** The same for runs: at any point of a run where marking has finished. */
  lemma RunsMarkCompletely(steps: seq<Step>)
    requires Runs(START, steps) && Marked(After(START, steps).s)
    ensures var w := After(START, steps);
      && (forall p :: Reachable(w.s.heap, w.root, {}, p) ==> ColorIs(w.s, p, Black))
      && (forall p :: WeaklyReferenced(w.s.heap, w.root, {}, p) ==> p in w.s.heap && !w.s.heap[p].color.White?)
  {
    InitialInv();
    var kept, todo := RunKeeps(START, steps, [], []);
    MarkingIsComplete(After(START, steps).s, After(START, steps).root, kept);
  }

  // ----- failed upgrades -----

  lemma DoomedInSweep(s: State, root: seq<Edge>, kept: seq<Ptr>, todo: seq<Ptr>, p: Ptr)
    requires Inv(s, root, kept, todo) && s.phase.Sweep? && todo != [] && Doomed(s, todo, p) && p in s.heap
    ensures SweepReady(s) && Doomed(SweepOne(s), todo[1..], p)
  {
    SweepOneKeeps(s, root, kept, todo);
    SweepFacts(s, kept, todo);
    SweepOneSweeps(s);
  }

  /** Until the sweep ends, a doomed value stays doomed, whatever runs in between. */
  lemma DoomedStays(w: World, st: Step, kept: seq<Ptr>, todo: seq<Ptr>, p: Ptr)
    requires WorldInv(w, kept, todo) && Enabled(w, st) && w.s.phase.Sweep?
    requires Doomed(w.s, todo, p) && p in w.s.heap && !(st.Alloc? && st.p == p)
    ensures Doomed(Do(w, st).s, TodoNext(st, kept, todo), p)
  {
    if st.SweepStep? {
      DoomedInSweep(w.s, w.root, kept, todo, p);
    }
  }

  /** `steps` is what happens up to the end of the sweep; the address `p` is not allocated anew. */
  predicate UntilSweepEnds(steps: seq<Step>, p: Ptr) {
    && steps != [] && steps[|steps| - 1].Finish?
    && (forall i :: 0 <= i < |steps| - 1 ==> !steps[i].Finish?)
    && forall i :: 0 <= i < |steps| ==> !(steps[i].Alloc? && steps[i].p == p)
  }

  lemma UntilSweepEndsTail(steps: seq<Step>, p: Ptr)
    requires UntilSweepEnds(steps, p) && |steps| > 1
    ensures !steps[0].Finish? && UntilSweepEnds(steps[1..], p)
  {
    var rest := steps[1..];
    assert forall i :: 0 <= i < |rest| ==> rest[i] == steps[i + 1];
  }

  lemma SweepGoesOn(w: World, st: Step)
    requires Enabled(w, st) && w.s.phase.Sweep? && !st.Finish?
    ensures Do(w, st).s.phase.Sweep?
  {
    if st.SweepStep? { assert SweepReady(w.s); }
  }

  lemma {:induction false} DoomedIsDropped(w: World, steps: seq<Step>, kept: seq<Ptr>, todo: seq<Ptr>, p: Ptr)
    requires WorldInv(w, kept, todo) && Runs(w, steps) && w.s.phase.Sweep?
    requires Doomed(w.s, todo, p) && p in w.s.heap && UntilSweepEnds(steps, p)
    ensures var h := After(w, steps).s.heap; p in h ==> !h[p].live
    decreases |steps|
  {
    assert steps[0] in steps;
    DoomedStays(w, steps[0], kept, todo, p);
    StepKeeps(w, steps[0], kept, todo);
    var v := Do(w, steps[0]);
    if |steps| > 1 {
      UntilSweepEndsTail(steps, p);
      SweepGoesOn(w, steps[0]);
      if p in v.s.heap {
        DoomedIsDropped(v, steps[1..], KeptNext(w, steps[0], kept, todo), TodoNext(steps[0], kept, todo), p);
      } else {
        GoneStaysGone(v, steps[1..], p);
      }
    } else {
      assert steps[1..] == [];
    }
  }

  // ----- boxes allocated during a sweep -----

  lemma KeptInSweep(s: State, root: seq<Edge>, kept: seq<Ptr>, todo: seq<Ptr>, p: Ptr)
    requires Inv(s, root, kept, todo) && s.phase.Sweep? && todo != [] && p in kept && p in s.heap
    ensures SweepReady(s) && p in SweepOne(s).heap && SweepOne(s).heap[p].live == s.heap[p].live
  {
    SweepOneKeeps(s, root, kept, todo);
    SweepFacts(s, kept, todo);
    SweepOneSweeps(s);
  }

  /** A box in front of the sweep is not touched by it. */
  lemma KeptStays(w: World, st: Step, kept: seq<Ptr>, todo: seq<Ptr>, p: Ptr)
    requires WorldInv(w, kept, todo) && Enabled(w, st) && w.s.phase.Sweep? && p in kept && p in w.s.heap
    ensures p in KeptNext(w, st, kept, todo) && p in Do(w, st).s.heap && Do(w, st).s.heap[p].live == w.s.heap[p].live
  {
    if st.SweepStep? { KeptInSweep(w.s, w.root, kept, todo, p); }
  }

  lemma {:induction false} KeptSurvives(w: World, steps: seq<Step>, kept: seq<Ptr>, todo: seq<Ptr>, p: Ptr)
    requires WorldInv(w, kept, todo) && Runs(w, steps) && w.s.phase.Sweep? && p in kept && p in w.s.heap
    requires forall i :: 0 <= i < |steps| - 1 ==> !steps[i].Finish?
    ensures var h := After(w, steps).s.heap; p in h && h[p].live == w.s.heap[p].live
    decreases |steps|
  {
    if steps != [] {
      var v, rest := Do(w, steps[0]), steps[1..];
      KeptStays(w, steps[0], kept, todo, p);
      if rest != [] {
        StepKeeps(w, steps[0], kept, todo);
        SweepGoesOn(w, steps[0]);
        assert forall i :: 0 <= i < |rest| ==> rest[i] == steps[i + 1];
        KeptSurvives(v, rest, KeptNext(w, steps[0], kept, todo), TodoNext(steps[0], kept, todo), p);
      }
    }
  }

  /** A box allocated during a sweep is neither freed nor its value dropped by that sweep, whatever runs in between. */
  lemma NewBoxSurvives(before: seq<Step>, st: Step, rest: seq<Step>)
    requires Runs(START, before) && Enabled(After(START, before), st) && st.Alloc?
    requires After(START, before).s.phase.Sweep?
    requires Runs(Do(After(START, before), st), rest) && forall i :: 0 <= i < |rest| - 1 ==> !rest[i].Finish?
    ensures var h := After(Do(After(START, before), st), rest).s.heap; st.p in h && h[st.p].live
  {
    InitialInv();
    var w := After(START, before);
    var kept, todo := RunKeeps(START, before, [], []);
    StepKeeps(w, st, kept, todo);
    KeptSurvives(Do(w, st), rest, KeptNext(w, st, kept, todo), todo, st.p);
  }

  lemma {:induction false} GoneStaysGone(w: World, steps: seq<Step>, p: Ptr)
    requires Runs(w, steps) && p !in w.s.heap
    requires forall i :: 0 <= i < |steps| ==> !(steps[i].Alloc? && steps[i].p == p)
    ensures p !in After(w, steps).s.heap
    decreases |steps|
  {
    if steps != [] {
      var rest := steps[1..];
      assert forall i :: 0 <= i < |rest| ==> rest[i] == steps[i + 1];
      StepFrees(w, steps[0], p);
      GoneStaysGone(Do(w, steps[0]), rest, p);
    }
  }

  lemma StepFrees(w: World, st: Step, p: Ptr)
    requires Enabled(w, st) && p !in w.s.heap && !(st.Alloc? && st.p == p)
    ensures p !in Do(w, st).s.heap
  {
    if st.SweepStep? {
      assert SweepReady(w.s);
    } else if st.MarkStep? {
      assert MarkReady(w.s, w.root);
    }
  }

  /**
   * Upgrading in a run: it succeeds only when the pointer may be held, and fails only when the
   * value is gone or is doomed.
   */
  lemma UpgradeInRuns(steps: seq<Step>, p: Ptr)
    returns (kept: seq<Ptr>, todo: seq<Ptr>)
    requires Runs(START, steps) && p in After(START, steps).weakTemps
    ensures var w := After(START, steps);
      && WorldInv(w, kept, todo) && p in w.s.heap
      && (Upgrade(w.s, p) ==> Safe(w.s.heap, todo, p) && w.s.heap[p].live)
      && (!Upgrade(w.s, p) ==> Doomed(w.s, todo, p))
  {
    InitialInv();
    kept, todo := RunKeeps(START, steps, [], []);
    var w := After(START, steps);
    assert WeakSafe(w.s.heap, todo, p);
    UpgradeIsExact(w.s, w.root, kept, todo, p);
    assert p in kept + todo;
  }
}
