/** Dynamic roots: reference-counted slots with a free list threaded through the vacant ones. */
module RootSlots {
  import opened Prelude

  /** An index is a machine word; the greatest one stands for none. */
  const NULL_INDEX: nat := 0xFFFF_FFFF_FFFF_FFFF

  datatype Slot = Vacant(nextFree: nat) | Occupied(root: nat, refCount: nat)

  /** The panics of the source. */
  datatype Panic = Corrupted | ImproperlyFreed | Overflow | OutOfBounds

  datatype Result<+T> = Ok(value: T) | Err(panic: Panic)

  datatype Table = Table(slots: seq<Slot>, nextFree: nat)

  // ----- the operations -----

  function AddSlot(t: Table, p: nat): Result<(nat, Table)> {
    if t.nextFree != NULL_INDEX then
      var idx := t.nextFree;
      if idx >= |t.slots| then Err(OutOfBounds)
      else
        match t.slots[idx]
        case Vacant(next) => Ok((idx, Table(t.slots[idx := Occupied(p, 0)], next)))
        case Occupied(_, _) => Err(Corrupted)
    else Ok((|t.slots|, t.(slots := t.slots + [Occupied(p, 0)])))
  }

  function IncSlot(t: Table, idx: nat): Result<Table> {
    if idx >= |t.slots| then Err(OutOfBounds)
    else
      match t.slots[idx]
      case Occupied(root, n) =>
        if n == NULL_INDEX then Err(Overflow) else Ok(t.(slots := t.slots[idx := Occupied(root, n + 1)]))
      case Vacant(_) => Err(ImproperlyFreed)
  }

  function DecSlot(t: Table, idx: nat): Result<Table> {
    if idx >= |t.slots| then Err(OutOfBounds)
    else
      match t.slots[idx]
      case Occupied(root, n) =>
        if n == 0 then Ok(Table(t.slots[idx := Vacant(t.nextFree)], idx))
        else Ok(t.(slots := t.slots[idx := Occupied(root, n - 1)]))
      case Vacant(_) => Err(ImproperlyFreed)
  }

  // ----- the free list -----

  /** `free` is the chain from `head`: each vacant slot once, each pointing at the next. */
  ghost predicate Chain(slots: seq<Slot>, head: nat, free: seq<nat>) {
    && NoDup(free) && |slots| <= NULL_INDEX
    && head == Head(free)
    && (forall k :: 0 <= k < |free| ==> Linked(slots, free, k))
    && (forall i :: 0 <= i < |slots| && slots[i].Vacant? ==> i in free)
  }

  function Head(free: seq<nat>): nat {
    if free == [] then NULL_INDEX else free[0]
  }

  predicate Linked(slots: seq<Slot>, free: seq<nat>, k: nat)
    requires k < |free|
  {
    free[k] < |slots| && slots[free[k]] == Vacant(Head(free[k + 1..]))
  }

  lemma PopKeeps(slots: seq<Slot>, head: nat, free: seq<nat>, p: nat)
    requires Chain(slots, head, free) && free != []
    ensures head < |slots| && head != NULL_INDEX && slots[head].Vacant?
    ensures Chain(slots[head := Occupied(p, 0)], slots[head].nextFree, free[1..])
  {
    assert Linked(slots, free, 0);
    var rest, now := free[1..], slots[head := Occupied(p, 0)];
    forall k | 0 <= k < |rest| ensures Linked(now, rest, k) {
      assert Linked(slots, free, k + 1);
      assert rest[k + 1..] == free[k + 2..] && rest[k] == free[k + 1];
    }
  }

  lemma PushKeeps(slots: seq<Slot>, head: nat, free: seq<nat>, i: nat)
    requires Chain(slots, head, free) && i < |slots| && slots[i].Occupied?
    ensures Chain(slots[i := Vacant(head)], i, [i] + free)
  {
    var now, after := [i] + free, slots[i := Vacant(head)];
    forall k | 0 <= k < |free| ensures free[k] != i { assert Linked(slots, free, k); }
    forall k | 0 <= k < |now| ensures Linked(after, now, k) {
      assert now[1..] == free;
      if k > 0 {
        assert Linked(slots, free, k - 1);
        assert now[k + 1..] == free[k..] && now[k] == free[k - 1];
      }
    }
  }

  lemma ChangeKeeps(slots: seq<Slot>, head: nat, free: seq<nat>, i: nat, s: Slot)
    requires Chain(slots, head, free) && i < |slots| && slots[i].Occupied? && s.Occupied?
    ensures Chain(slots[i := s], head, free)
  {
    var after := slots[i := s];
    forall k | 0 <= k < |free| ensures Linked(after, free, k) {
      assert Linked(slots, free, k);
    }
  }

  lemma GrowKeeps(slots: seq<Slot>, head: nat, free: seq<nat>, s: Slot)
    requires Chain(slots, head, free) && |slots| < NULL_INDEX && s.Occupied?
    ensures Chain(slots + [s], head, free)
  {
    var after := slots + [s];
    forall k | 0 <= k < |free| ensures Linked(after, free, k) {
      assert Linked(slots, free, k);
    }
  }

  // ----- handles -----

  /** A live handle: its pointer, its slot, and the stash it descends from. */
  datatype Handle = Handle(root: nat, index: nat, origin: nat)

  /** A root set and the handles it has given out; `alive` until the set is collected. */
  datatype World = World(table: Table, live: map<nat, Handle>, next: nat, alive: bool)

  datatype Step = Stash(root: nat) | Clone(handle: nat) | Drop(handle: nat) | DropSet

  /** Handles are used only while they live, and the slots fit in memory. */
  predicate Enabled(w: World, s: Step) {
    match s
    case Stash(_) => w.alive && |w.table.slots| < NULL_INDEX
    case Clone(h) => h in w.live && |w.live| < NULL_INDEX
    case Drop(h) => h in w.live
    case DropSet => w.alive
  }

  function Do(w: World, s: Step): Result<World>
    requires Enabled(w, s)
  {
    match s
    case Stash(root) =>
      (match AddSlot(w.table, root)
       case Err(e) => Err(e)
       case Ok((i, t)) =>
         Ok(w.(table := t, live := w.live[w.next := Handle(root, i, w.next)], next := w.next + 1)))
    case Clone(h) =>
      var live := w.live[w.next := w.live[h]];
      if !w.alive then Ok(w.(live := live, next := w.next + 1))
      else
        (match IncSlot(w.table, w.live[h].index)
         case Err(e) => Err(e)
         case Ok(t) => Ok(w.(table := t, live := live, next := w.next + 1)))
    case Drop(h) =>
      if !w.alive then Ok(w.(live := w.live - {h}))
      else
        (match DecSlot(w.table, w.live[h].index)
         case Err(e) => Err(e)
         case Ok(t) => Ok(w.(table := t, live := w.live - {h})))
    case DropSet => Ok(w.(alive := false))
  }

  function Holders(live: map<nat, Handle>, i: nat): set<nat> {
    set h | h in live && live[h].index == i
  }

  /** A slot counts all but one of its handles. */
  ghost predicate SlotOk(s: Slot, live: map<nat, Handle>, i: nat) {
    |Holders(live, i)| == if s.Vacant? then 0 else s.refCount + 1
  }

  /** A handle's slot holds its pointer. */
  predicate HandleOk(slots: seq<Slot>, h: Handle) {
    h.index < |slots| && slots[h.index].Occupied? && slots[h.index].root == h.root
  }

  ghost predicate Counted(slots: seq<Slot>, live: map<nat, Handle>) {
    forall i :: 0 <= i < |slots| ==> SlotOk(slots[i], live, i)
  }

  ghost predicate Held(slots: seq<Slot>, live: map<nat, Handle>) {
    forall h :: h in live ==> HandleOk(slots, live[h])
  }

  /** Handles share a slot only if they descend from the same stash. */
  ghost predicate Related(live: map<nat, Handle>) {
    forall h, g :: h in live && g in live && live[h].index == live[g].index ==> live[h].origin == live[g].origin
  }

  ghost predicate Listed(t: Table) {
    exists free :: Chain(t.slots, t.nextFree, free)
  }

  ghost predicate Inv(w: World) {
    && (forall h :: h in w.live ==> h < w.next)
    && (w.alive ==> Listed(w.table) && Counted(w.table.slots, w.live) && Held(w.table.slots, w.live) && Related(w.live))
  }

  const START: World := World(Table([], NULL_INDEX), map[], 0, true)

  lemma StartInv()
    ensures Inv(START)
  {
    assert Chain([], NULL_INDEX, []);
  }

  lemma HoldersAdded(live: map<nat, Handle>, h: nat, x: Handle, i: nat)
    requires h !in live
    ensures Holders(live[h := x], i) == if x.index == i then Holders(live, i) + {h} else Holders(live, i)
  {
  }

  lemma HoldersRemoved(live: map<nat, Handle>, h: nat, i: nat)
    requires h in live
    ensures Holders(live - {h}, i) == if live[h].index == i then Holders(live, i) - {h} else Holders(live, i)
  {
  }

  lemma HoldersBounded(live: map<nat, Handle>, i: nat)
    ensures |Holders(live, i)| <= |live|
  {
    assert Holders(live, i) <= live.Keys;
    Cardinal(Holders(live, i), live.Keys);
  }

  lemma Cardinal(a: set<nat>, b: set<nat>)
    requires a <= b
    ensures |a| <= |b|
  {
    if a != {} {
      var x :| x in a;
      Cardinal(a - {x}, b - {x});
    }
  }

  /** A slot in use by nobody has no handles. */
  lemma Unheld(slots: seq<Slot>, live: map<nat, Handle>, i: nat)
    requires Held(slots, live) && (i >= |slots| || slots[i].Vacant?)
    ensures Holders(live, i) == {} && forall h :: h in live ==> live[h].index != i
  {
    forall h | h in live ensures live[h].index != i { assert HandleOk(slots, live[h]); }
  }

  lemma AddListed(t: Table, p: nat)
    requires Listed(t) && |t.slots| < NULL_INDEX
    ensures AddSlot(t, p).Ok?
    ensures var (i, u) := AddSlot(t, p).value;
      && Listed(u) && (i >= |t.slots| || t.slots[i].Vacant?)
      && i < |u.slots| && u.slots[i] == Occupied(p, 0) && |t.slots| <= |u.slots| <= |t.slots| + 1
      && (|t.slots| < |u.slots| <==> i == |t.slots|)
      && (i == |t.slots| <==> forall k :: 0 <= k < |t.slots| ==> t.slots[k].Occupied?)
      && forall k :: 0 <= k < |t.slots| && k != i ==> u.slots[k] == t.slots[k]
  {
    var free :| Chain(t.slots, t.nextFree, free);
    if free != [] {
      PopKeeps(t.slots, t.nextFree, free, p);
      var u := AddSlot(t, p).value.1;
      assert Chain(u.slots, u.nextFree, free[1..]);
    } else {
      GrowKeeps(t.slots, t.nextFree, free, Occupied(p, 0));
      var u := AddSlot(t, p).value.1;
      assert Chain(u.slots, u.nextFree, free);
    }
  }

  lemma IncListed(t: Table, i: nat)
    requires Listed(t) && i < |t.slots| && t.slots[i].Occupied? && t.slots[i].refCount < NULL_INDEX
    ensures IncSlot(t, i).Ok? && Listed(IncSlot(t, i).value)
  {
    var free :| Chain(t.slots, t.nextFree, free);
    var u := IncSlot(t, i).value;
    ChangeKeeps(t.slots, t.nextFree, free, i, u.slots[i]);
    assert Chain(u.slots, u.nextFree, free);
  }

  lemma DecListed(t: Table, i: nat)
    requires Listed(t) && i < |t.slots| && t.slots[i].Occupied?
    ensures DecSlot(t, i).Ok? && Listed(DecSlot(t, i).value)
  {
    var free :| Chain(t.slots, t.nextFree, free);
    var u := DecSlot(t, i).value;
    if t.slots[i].refCount == 0 {
      PushKeeps(t.slots, t.nextFree, free, i);
      assert Chain(u.slots, u.nextFree, [i] + free);
    } else {
      ChangeKeeps(t.slots, t.nextFree, free, i, u.slots[i]);
      assert Chain(u.slots, u.nextFree, free);
    }
  }

  lemma StashKeeps(w: World, root: nat)
    requires Inv(w) && Enabled(w, Stash(root))
    ensures Do(w, Stash(root)).Ok? && Inv(Do(w, Stash(root)).value)
  {
    AddListed(w.table, root);
    var (i, u) := AddSlot(w.table, root).value;
    var x := Handle(root, i, w.next);
    var live := w.live[w.next := x];
    Unheld(w.table.slots, w.live, i);
    forall k | 0 <= k < |u.slots| ensures SlotOk(u.slots[k], live, k) {
      HoldersAdded(w.live, w.next, x, k);
      if k != i { assert SlotOk(w.table.slots[k], w.live, k); }
    }
    forall h | h in live ensures HandleOk(u.slots, live[h]) {
      if h != w.next { assert HandleOk(w.table.slots, w.live[h]); }
    }
  }

  lemma CloneKeeps(w: World, h: nat)
    requires Inv(w) && Enabled(w, Clone(h))
    ensures Do(w, Clone(h)).Ok? && Inv(Do(w, Clone(h)).value)
  {
    if w.alive {
      var t, i, x := w.table, w.live[h].index, w.live[h];
      var live := w.live[w.next := x];
      assert HandleOk(t.slots, x);
      assert SlotOk(t.slots[i], w.live, i);
      HoldersBounded(w.live, i);
      IncListed(t, i);
      var u := IncSlot(t, i).value;
      forall k | 0 <= k < |u.slots| ensures SlotOk(u.slots[k], live, k) {
        HoldersAdded(w.live, w.next, x, k);
        assert SlotOk(t.slots[k], w.live, k);
      }
      forall g | g in live ensures HandleOk(u.slots, live[g]) {
        if g != w.next { assert HandleOk(t.slots, w.live[g]); }
      }
    }
  }

  lemma DropKeeps(w: World, h: nat)
    requires Inv(w) && Enabled(w, Drop(h))
    ensures Do(w, Drop(h)).Ok? && Inv(Do(w, Drop(h)).value)
  {
    if w.alive {
      var t, i := w.table, w.live[h].index;
      assert HandleOk(t.slots, w.live[h]);
      assert SlotOk(t.slots[i], w.live, i) && h in Holders(w.live, i);
      DecListed(t, i);
      var u := DecSlot(t, i).value;
      forall k | 0 <= k < |u.slots| ensures SlotOk(u.slots[k], w.live - {h}, k) {
        HoldersRemoved(w.live, h, k);
        assert SlotOk(t.slots[k], w.live, k);
      }
      forall g | g in w.live - {h} ensures HandleOk(u.slots, (w.live - {h})[g]) {
        assert HandleOk(t.slots, w.live[g]);
        if w.live[g].index == i { OnlyHolder(w.live, i, h, g); }
      }
    }
  }

  /** Two handles of a slot make it count at least one. */
  lemma OnlyHolder(live: map<nat, Handle>, i: nat, h: nat, g: nat)
    requires h in live && g in live && h != g && live[h].index == i && live[g].index == i
    ensures |Holders(live, i)| >= 2
  {
    assert {h, g} <= Holders(live, i);
    Cardinal({h, g}, Holders(live, i));
  }

  lemma StepKeeps(w: World, s: Step)
    requires Inv(w) && Enabled(w, s)
    ensures Do(w, s).Ok? && Inv(Do(w, s).value)
  {
    match s {
      case Stash(r) => StashKeeps(w, r);
      case Clone(h) => CloneKeeps(w, h);
      case Drop(h) => DropKeeps(w, h);
      case DropSet =>
    }
  }

  // ----- runs -----

  ghost predicate Runs(w: World, steps: seq<Step>)
    decreases |steps|
  {
    steps == [] || (Enabled(w, steps[0]) && (Do(w, steps[0]).Ok? ==> Runs(Do(w, steps[0]).value, steps[1..])))
  }

  function After(w: World, steps: seq<Step>): Result<World>
    requires Runs(w, steps)
    decreases |steps|
  {
    if steps == [] then Ok(w)
    else
      match Do(w, steps[0])
      case Err(e) => Err(e)
      case Ok(x) => After(x, steps[1..])
  }

  /** No run of stashes, clones and drops ever panics, and the invariant holds at its end. */
  lemma {:induction false} RunsKeep(w: World, steps: seq<Step>)
    requires Inv(w) && Runs(w, steps)
    ensures After(w, steps).Ok? && Inv(After(w, steps).value)
    decreases |steps|
  {
    if steps != [] {
      StepKeeps(w, steps[0]);
      RunsKeep(Do(w, steps[0]).value, steps[1..]);
    }
  }

  /**
   * After any run: the chain from `next_free` has each vacant slot exactly once and ends at the
   * null index; a slot is occupied iff a handle to it lives, with that handle's pointer and one
   * less than the number of its handles; handles of different stashes never share a slot.
   */
  lemma RunsAreSound(steps: seq<Step>) returns (free: seq<nat>)
    requires Runs(START, steps) && After(START, steps).Ok? && After(START, steps).value.alive
    ensures var w := After(START, steps).value;
      && Chain(w.table.slots, w.table.nextFree, free)
      && (forall i :: 0 <= i < |w.table.slots| ==> (i in free <==> w.table.slots[i].Vacant?))
      && (forall i :: 0 <= i < |w.table.slots| ==> (w.table.slots[i].Occupied? <==> Holders(w.live, i) != {}))
      && (forall i :: 0 <= i < |w.table.slots| && w.table.slots[i].Occupied? ==>
            w.table.slots[i].refCount == |Holders(w.live, i)| - 1)
      && (forall h :: h in w.live ==>
            w.live[h].index < |w.table.slots| && w.table.slots[w.live[h].index].Occupied?
            && w.table.slots[w.live[h].index].root == w.live[h].root)
      && (forall h, g :: h in w.live && g in w.live && w.live[h].index == w.live[g].index ==>
            w.live[h].origin == w.live[g].origin)
  {
    StartInv();
    RunsKeep(START, steps);
    var w := After(START, steps).value;
    free :| Chain(w.table.slots, w.table.nextFree, free);
    forall i | 0 <= i < |w.table.slots|
      ensures SlotOk(w.table.slots[i], w.live, i) && (i in free <==> w.table.slots[i].Vacant?)
      ensures w.table.slots[i].Occupied? <==> Holders(w.live, i) != {}
    {
      if i in free {
        var k :| 0 <= k < |free| && free[k] == i;
        assert Linked(w.table.slots, free, k);
      }
    }
    forall h | h in w.live ensures HandleOk(w.table.slots, w.live[h]) {}
  }

  // ----- reuse -----

  /** The slots that live handles stand for. */
  function InUse(live: map<nat, Handle>): set<nat> {
    set h | h in live :: live[h].index
  }

  function Below(n: nat): set<nat> {
    if n == 0 then {} else Below(n - 1) + {n - 1}
  }

  lemma {:induction false} BelowCounts(n: nat)
    ensures |Below(n)| == n && forall i: nat :: i in Below(n) <==> i < n
  {
    if n > 0 { BelowCounts(n - 1); }
  }

  function Most(a: nat, b: nat): nat {
    if a < b then b else a
  }

  /** The greatest number of slots in use at once in a run. */
  ghost function Peak(w: World, steps: seq<Step>): nat
    requires Runs(w, steps)
    decreases |steps|
  {
    Most(|InUse(w.live)|, if steps == [] || Do(w, steps[0]).Err? then 0 else Peak(Do(w, steps[0]).value, steps[1..]))
  }

  lemma InUseFits(w: World)
    requires Inv(w) && w.alive
    ensures InUse(w.live) <= Below(|w.table.slots|) && |InUse(w.live)| <= |w.table.slots|
  {
    BelowCounts(|w.table.slots|);
    forall h | h in w.live ensures w.live[h].index < |w.table.slots| { assert HandleOk(w.table.slots, w.live[h]); }
    Cardinal(InUse(w.live), Below(|w.table.slots|));
  }

  lemma FullTable(w: World)
    requires Inv(w) && w.alive && forall k :: 0 <= k < |w.table.slots| ==> w.table.slots[k].Occupied?
    ensures InUse(w.live) == Below(|w.table.slots|)
  {
    InUseFits(w);
    BelowCounts(|w.table.slots|);
    forall k | 0 <= k < |w.table.slots| ensures k in InUse(w.live) {
      assert SlotOk(w.table.slots[k], w.live, k);
      var h :| h in Holders(w.live, k);
      assert w.live[h].index == k;
    }
  }

  lemma InUseAdded(live: map<nat, Handle>, h: nat, x: Handle)
    requires h !in live
    ensures InUse(live[h := x]) == InUse(live) + {x.index}
  {
    forall k | k in InUse(live) + {x.index} ensures k in InUse(live[h := x]) {
      if k == x.index {
        assert live[h := x][h].index == k;
      } else {
        var g :| g in live && live[g].index == k;
        assert live[h := x][g].index == k;
      }
    }
  }

  /** The table grows only when every slot is in use. */
  lemma StashReuses(w: World, root: nat)
    requires Inv(w) && w.alive && Enabled(w, Stash(root)) && Do(w, Stash(root)).Ok?
    ensures var v := Do(w, Stash(root)).value;
      |v.table.slots| == |w.table.slots| || |v.table.slots| == |w.table.slots| + 1 == |InUse(v.live)|
  {
    AddListed(w.table, root);
    var n := |w.table.slots|;
    var (i, u) := AddSlot(w.table, root).value;
    if i == n {
      FullTable(w);
      InUseAdded(w.live, w.next, Handle(root, i, w.next));
      BelowCounts(n + 1);
      assert Below(n) + {n} == Below(n + 1);
    }
  }

  lemma {:induction false} StaysDead(w: World, steps: seq<Step>)
    requires Runs(w, steps) && !w.alive && After(w, steps).Ok?
    ensures !After(w, steps).value.alive
    decreases |steps|
  {
    if steps != [] { StaysDead(Do(w, steps[0]).value, steps[1..]); }
  }

  /** A step makes the table as long as it was, or as the slots that are in use then. */
  lemma StepReuses(w: World, s: Step)
    requires Inv(w) && Enabled(w, s) && Do(w, s).Ok? && Do(w, s).value.alive && Inv(Do(w, s).value)
    ensures var v := Do(w, s).value;
      w.alive && |v.table.slots| == Most(|w.table.slots|, |InUse(v.live)|)
  {
    var v := Do(w, s).value;
    InUseFits(v);
    if s.Stash? { StashReuses(w, s.root); }
  }

  lemma {:induction false} RunsReuse(w: World, steps: seq<Step>)
    requires Inv(w) && Runs(w, steps) && After(w, steps).Ok? && After(w, steps).value.alive
    ensures |After(w, steps).value.table.slots| == Most(|w.table.slots|, Peak(w, steps))
    decreases |steps|
  {
    if !w.alive { StaysDead(w, steps); }
    InUseFits(w);
    if steps != [] {
      var v := Do(w, steps[0]).value;
      StepKeeps(w, steps[0]);
      if !v.alive { StaysDead(v, steps[1..]); }
      StepReuses(w, steps[0]);
      InUseFits(v);
      RunsReuse(v, steps[1..]);
    }
  }

  /** Vacant slots are reused: the table is as long as the most slots that were in use at once. */
  lemma SlotsAreReused(steps: seq<Step>)
    requires Runs(START, steps) && After(START, steps).Ok? && After(START, steps).value.alive
    ensures |After(START, steps).value.table.slots| == Peak(START, steps)
  {
    StartInv();
    RunsReuse(START, steps);
  }

  // ----- the mutable table -----

  class Slots {
    var slots: seq<Slot>
    var nextFree: nat

    ghost function View(): Table
      reads this
    {
      Table(slots, nextFree)
    }

    constructor ()
      ensures View() == START.table && Listed(View())
    {
      slots, nextFree := [], NULL_INDEX;
      new;
      assert Chain([], NULL_INDEX, []);
    }

    method Add(p: nat) returns (idx: nat)
      requires Listed(View()) && |slots| < NULL_INDEX
      modifies this
      ensures Listed(View()) && AddSlot(old(View()), p) == Ok((idx, View()))
    {
      AddListed(View(), p);
      if nextFree != NULL_INDEX {
        idx := nextFree;
        match slots[idx] {
          case Vacant(next) => nextFree := next;
          case Occupied(_, _) => assert false;
        }
        slots := slots[idx := Occupied(p, 0)];
      } else {
        idx := |slots|;
        slots := slots + [Occupied(p, 0)];
      }
    }

    method Inc(idx: nat)
      requires Listed(View()) && idx < |slots| && slots[idx].Occupied? && slots[idx].refCount < NULL_INDEX
      modifies this
      ensures Listed(View()) && IncSlot(old(View()), idx) == Ok(View())
    {
      IncListed(View(), idx);
      match slots[idx] {
        case Occupied(root, n) => slots := slots[idx := Occupied(root, n + 1)];
        case Vacant(_) => assert false;
      }
    }

    method Dec(idx: nat)
      requires Listed(View()) && idx < |slots| && slots[idx].Occupied?
      modifies this
      ensures Listed(View()) && DecSlot(old(View()), idx) == Ok(View())
    {
      DecListed(View(), idx);
      match slots[idx] {
        case Occupied(root, n) =>
          if n == 0 {
            slots := slots[idx := Vacant(nextFree)];
            nextFree := idx;
          } else {
            slots := slots[idx := Occupied(root, n - 1)];
          }
        case Vacant(_) => assert false;
      }
    }
  }
}
