/** Upvalue capture: free names are resolved through the enclosing functions and captured at every level. */
module Upvalues {
  import opened Prelude

  /** What a name is bound to in a scope. A `global` declaration stands there only to hide outer names. */
  datatype Binding = Register(reg: nat) | Constant(value: int) | Global

  type Scope = map<string, Binding>

  datatype Desc = ParentLocal(reg: nat) | ParentUpvalue(index: nat)

  /** One function under compilation: its scopes, innermost last, and its upvalue list. */
  datatype Func = Func(scopes: seq<Scope>, upvalues: seq<(string, Desc)>)

  /** A function and the functions that enclose it, from the inside out. */
  type Nest = seq<Func>

  // ----- scopes -----

  /** Scope `i` binds the name, and no scope inside it does. */
  predicate InnermostAt(scopes: seq<Scope>, name: string, i: nat) {
    i < |scopes| && name in scopes[i] && forall j :: i < j < |scopes| ==> name !in scopes[j]
  }

  /** The binding in force, if there is one: that of the innermost scope that binds the name. */
  ghost function Innermost(scopes: seq<Scope>, name: string): Option<Binding> {
    if exists i: nat :: InnermostAt(scopes, name, i) then
      var i: nat :| InnermostAt(scopes, name, i);
      Some(scopes[i][name])
    else None
  }

  lemma InnermostIs(scopes: seq<Scope>, name: string, i: nat)
    requires InnermostAt(scopes, name, i)
    ensures Innermost(scopes, name) == Some(scopes[i][name])
  {
    forall j: nat | InnermostAt(scopes, name, j) ensures j == i {
      assert name in scopes[i] && name in scopes[j];
    }
  }

  /** A name is bound exactly when some scope binds it. */
  lemma {:induction false} BoundSomewhere(scopes: seq<Scope>, name: string)
    ensures Innermost(scopes, name) == None <==> forall i :: 0 <= i < |scopes| ==> name !in scopes[i]
    decreases |scopes|
  {
    if scopes != [] {
      var last := |scopes| - 1;
      if name in scopes[last] {
        assert InnermostAt(scopes, name, last);
      } else {
        Outwards(scopes, name);
        BoundSomewhere(scopes[..last], name);
      }
    }
  }

  /** A scope that does not bind the name leaves the binding to those outside it. */
  lemma Outwards(scopes: seq<Scope>, name: string)
    requires scopes != [] && name !in scopes[|scopes| - 1]
    ensures Innermost(scopes, name) == Innermost(scopes[..|scopes| - 1], name)
  {
    var outer := scopes[..|scopes| - 1];
    if i: nat :| InnermostAt(outer, name, i) {
      InnermostIs(outer, name, i);
      assert InnermostAt(scopes, name, i);
      InnermostIs(scopes, name, i);
    } else if i: nat :| InnermostAt(scopes, name, i) {
      assert InnermostAt(outer, name, i);
    }
  }

  // ----- resolution as the compiler does it -----

  function ResolveLocal(scopes: seq<Scope>, name: string): (b: Option<Binding>)
    ensures b == Innermost(scopes, name)
  {
    ScopesFromInside(scopes, name);
    if scopes == [] then None
    else
      var last := scopes[|scopes| - 1];
      if name in last then Some(last[name]) else ResolveLocal(scopes[..|scopes| - 1], name)
  }

  /** One step of the search. */
  lemma ScopesFromInside(scopes: seq<Scope>, name: string)
    ensures scopes == [] ==> Innermost(scopes, name) == None
    ensures scopes != [] ==>
              var last := scopes[|scopes| - 1];
              Innermost(scopes, name) ==
              if name in last then Some(last[name]) else Innermost(scopes[..|scopes| - 1], name)
  {
    if scopes != [] {
      if name in scopes[|scopes| - 1] { InnermostIs(scopes, name, |scopes| - 1); } else { Outwards(scopes, name); }
    }
  }

  /** The search finds the binding of the innermost scope that binds the name, and nothing if there is none. */
  lemma ResolvesInnermost(scopes: seq<Scope>, name: string)
    ensures forall i: nat :: InnermostAt(scopes, name, i) ==> ResolveLocal(scopes, name) == Some(scopes[i][name])
    ensures ResolveLocal(scopes, name) == None <==> forall i :: 0 <= i < |scopes| ==> name !in scopes[i]
  {
    forall i: nat | InnermostAt(scopes, name, i) ensures ResolveLocal(scopes, name) == Some(scopes[i][name]) {
      InnermostIs(scopes, name, i);
    }
    BoundSomewhere(scopes, name);
  }

  function Find(upvalues: seq<(string, Desc)>, name: string): nat {
    if upvalues == [] || upvalues[0].0 == name then 0 else 1 + Find(upvalues[1..], name)
  }

  /** An upvalue number is kept in eight bits. */
  function Numbered(i: nat): nat {
    i % 256
  }

  datatype Answer = Inline(value: int) | Capture(desc: Desc)

  /** Asks the innermost function of the nest, on behalf of a function inside it. */
  function ResolveForChild(nest: Nest, name: string): (Option<Answer>, Nest)
    decreases |nest|
  {
    if nest == [] then (None, nest)
    else
      var f := nest[0];
      match ResolveLocal(f.scopes, name)
      case Some(Global) => (None, nest)
      case Some(Constant(v)) => (Some(Inline(v)), nest)
      case Some(Register(r)) => (Some(Capture(ParentLocal(r))), nest)
      case None =>
        var i := Find(f.upvalues, name);
        if i < |f.upvalues| then (Some(Capture(ParentUpvalue(Numbered(i)))), nest)
        else
          match ResolveForChild(nest[1..], name)
          case (None, outer) => (None, [f] + outer)
          case (Some(Inline(v)), outer) => (Some(Inline(v)), [f] + outer)
          case (Some(Capture(d)), outer) =>
            (Some(Capture(ParentUpvalue(Numbered(|f.upvalues|)))), [f.(upvalues := f.upvalues + [(name, d)])] + outer)
  }

  datatype Resolved = Const(value: int) | Upvalue(index: nat)

  /** Resolves a name that the innermost function does not bind itself. */
  function ResolveOrCapture(nest: Nest, name: string): (Option<Resolved>, Nest)
    requires nest != []
  {
    var f := nest[0];
    var i := Find(f.upvalues, name);
    if i < |f.upvalues| then (Some(Upvalue(Numbered(i))), nest)
    else
      match ResolveForChild(nest[1..], name)
      case (None, outer) => (None, [f] + outer)
      case (Some(Inline(v)), outer) => (Some(Const(v)), [f] + outer)
      case (Some(Capture(d)), outer) =>
        (Some(Upvalue(Numbered(|f.upvalues|))), [f.(upvalues := f.upvalues + [(name, d)])] + outer)
  }

  // ----- lexical scoping -----

  /** The meaning of a name: a constant, or a register of the function so many levels out. */
  datatype Place = Value(value: int) | At(depth: nat, reg: nat)

  function Outward(p: Place): Place {
    if p.At? then At(p.depth + 1, p.reg) else p
  }

  /** The innermost enclosing binding. */
  ghost function Lexical(nest: Nest, name: string): Option<Place>
    decreases |nest|
  {
    if nest == [] then None
    else
      match Innermost(nest[0].scopes, name)
      case Some(Global) => None
      case Some(Constant(v)) => Some(Value(v))
      case Some(Register(r)) => Some(At(0, r))
      case None =>
        match Lexical(nest[1..], name)
        case None => None
        case Some(p) => Some(Outward(p))
  }

  /** Where a descriptor leads, followed through the upvalue lists of the nest around its function. */
  function Follow(nest: Nest, d: Desc): Option<Place>
    decreases |nest|
  {
    if nest == [] then None
    else
      match d
      case ParentLocal(r) => Some(At(0, r))
      case ParentUpvalue(i) =>
        if i >= |nest[0].upvalues| then None
        else
          match Follow(nest[1..], nest[0].upvalues[i].1)
          case None => None
          case Some(p) => Some(Outward(p))
  }

  const ENV := "_ENV"

  /** Upvalue lists name each captured variable once, and lead to its innermost enclosing binding. */
  ghost predicate Sound(nest: Nest)
    decreases |nest|
  {
    nest != [] ==>
      && Sound(nest[1..])
      && |nest[0].upvalues| <= 256
      && (forall i, j :: 0 <= i < j < |nest[0].upvalues| ==> nest[0].upvalues[i].0 != nest[0].upvalues[j].0)
      && (forall i :: 0 <= i < |nest[0].upvalues| ==> Leads(nest, i))
  }

  ghost predicate Leads(nest: Nest, i: nat)
    requires nest != [] && i < |nest[0].upvalues|
  {
    var (name, d) := nest[0].upvalues[i];
    if name == ENV then Rooted(nest[1..], d)
    else Bound(nest[1..], name) && Follow(nest[1..], d) == Lexical(nest[1..], name)
  }

  /** The name is a variable in a register. */
  ghost predicate Bound(nest: Nest, name: string) {
    Lexical(nest, name).Some? && Lexical(nest, name).value.At?
  }

  /** A descriptor leads from entry to entry, to a register or out of the nest. */
  predicate Rooted(nest: Nest, d: Desc)
    decreases |nest|
  {
    || nest == [] || d.ParentLocal?
    || (d.index < |nest[0].upvalues| && Rooted(nest[1..], nest[0].upvalues[d.index].1))
  }

  lemma {:induction false} FollowedIsRooted(nest: Nest, d: Desc)
    requires Follow(nest, d).Some?
    ensures Rooted(nest, d)
    decreases |nest|
  {
    if d.ParentUpvalue? { FollowedIsRooted(nest[1..], nest[0].upvalues[d.index].1); }
  }

  /** The nest has only gained upvalues. */
  predicate Extends(a: Nest, b: Nest)
    decreases |a|
  {
    |a| == |b| && (a != [] ==> a[0].scopes == b[0].scopes && a[0].upvalues <= b[0].upvalues && Extends(a[1..], b[1..]))
  }

  /** No upvalue list outgrows its eight-bit numbers. */
  predicate Fits(nest: Nest) {
    forall k :: 0 <= k < |nest| ==> |nest[k].upvalues| <= 256
  }

  lemma {:induction false} ExtendsSelf(a: Nest)
    ensures Extends(a, a)
    decreases |a|
  {
    if a != [] { ExtendsSelf(a[1..]); }
  }

  /** Scoping does not depend on what has been captured. */
  lemma {:induction false} SameScoping(a: Nest, b: Nest, name: string)
    requires Extends(a, b)
    ensures Lexical(a, name) == Lexical(b, name)
    decreases |a|
  {
    if a != [] { SameScoping(a[1..], b[1..], name); }
  }

  /** Existing entries keep their index and their meaning. */
  lemma {:induction false} SameMeaning(a: Nest, b: Nest, d: Desc)
    requires Extends(a, b) && Rooted(a, d)
    ensures Follow(b, d) == Follow(a, d) && Rooted(b, d)
    decreases |a|
  {
    if a != [] && d.ParentUpvalue? {
      assert b[0].upvalues[d.index] == a[0].upvalues[d.index];
      SameMeaning(a[1..], b[1..], a[0].upvalues[d.index].1);
    }
  }

  lemma {:induction false} FindFinds(upvalues: seq<(string, Desc)>, name: string)
    ensures Find(upvalues, name) <= |upvalues|
    ensures Find(upvalues, name) < |upvalues| ==> upvalues[Find(upvalues, name)].0 == name
    ensures Find(upvalues, name) == |upvalues| ==> forall i :: 0 <= i < |upvalues| ==> upvalues[i].0 != name
    decreases |upvalues|
  {
    if upvalues != [] && upvalues[0].0 != name {
      FindFinds(upvalues[1..], name);
      assert forall i :: 0 < i < |upvalues| ==> upvalues[i] == upvalues[1..][i - 1];
    }
  }

  // ----- what resolution asks of the lists -----

  /** Does asking the nest for the name capture a variable? Else it inlines a constant or finds nothing. */
  predicate Capturable(nest: Nest, name: string)
    decreases |nest|
  {
    nest != [] &&
    match ResolveLocal(nest[0].scopes, name)
    case Some(b) => b.Register?
    case None => Find(nest[0].upvalues, name) < |nest[0].upvalues| || Capturable(nest[1..], name)
  }

  /** The innermost function, and every one it has to ask, has a number left for a name it must capture. */
  predicate RoomToCapture(nest: Nest, name: string)
    requires nest != []
    decreases |nest|, 0
  {
    || Find(nest[0].upvalues, name) < |nest[0].upvalues|
    || !Capturable(nest[1..], name)
    || (|nest[0].upvalues| < 256 && RoomFor(nest[1..], name))
  }

  /** The same on behalf of a function inside the nest. */
  predicate RoomFor(nest: Nest, name: string)
    decreases |nest|, 1
  {
    nest == [] || ResolveLocal(nest[0].scopes, name).Some? || RoomToCapture(nest, name)
  }

  lemma {:induction false} AnswerIs(nest: Nest, name: string)
    ensures var (a, after) := ResolveForChild(nest, name);
      && (a.Some? && a.value.Capture? <==> Capturable(nest, name))
      && (!Capturable(nest, name) ==> after == nest && RoomFor(nest, name))
    decreases |nest|
  {
    if nest != [] && ResolveLocal(nest[0].scopes, name).None? {
      assert [nest[0]] + nest[1..] == nest;
      AnswerIs(nest[1..], name);
    }
  }

  lemma FitsCons(f: Func, outer: Nest)
    ensures Fits([f] + outer) <==> |f.upvalues| <= 256 && Fits(outer)
  {
    var nest := [f] + outer;
    assert nest[0] == f;
    forall k | 0 <= k < |outer| ensures nest[k + 1] == outer[k] {}
    forall k | 0 < k < |nest| ensures nest[k] == outer[k - 1] {}
  }

  /** The condition is exact: the lists outgrow their numbers when, and only when, there is no room. */
  lemma {:induction false} RoomIsExact(nest: Nest, name: string)
    requires Fits(nest)
    ensures Fits(ResolveForChild(nest, name).1) <==> RoomFor(nest, name)
    decreases |nest|, 1
  {
    if nest != [] && ResolveLocal(nest[0].scopes, name).None? { CaptureRoomIsExact(nest, name); }
  }

  lemma {:induction false} CaptureRoomIsExact(nest: Nest, name: string)
    requires nest != [] && Fits(nest)
    ensures Fits(ResolveOrCapture(nest, name).1) <==> RoomToCapture(nest, name)
    decreases |nest|, 0
  {
    var f, inner := nest[0], nest[1..];
    assert [f] + inner == nest;
    FitsCons(f, inner);
    if Find(f.upvalues, name) >= |f.upvalues| {
      var (a, outer) := ResolveForChild(inner, name);
      AnswerIs(inner, name);
      RoomIsExact(inner, name);
      if Capturable(inner, name) { FitsCons(f.(upvalues := f.upvalues + [(name, a.value.desc)]), outer); }
    }
  }

  lemma {:induction false} SoundFits(nest: Nest)
    requires Sound(nest)
    ensures Fits(nest)
    decreases |nest|
  {
    if nest != [] {
      SoundFits(nest[1..]);
      assert [nest[0]] + nest[1..] == nest;
      FitsCons(nest[0], nest[1..]);
    }
  }

  // ----- what resolution promises -----

  /** The answer is the lexical one, and all it did to the nest was capture. */
  ghost predicate Resolves(nest: Nest, name: string, a: Option<Answer>, after: Nest) {
    && Extends(nest, after) && Sound(after)
    && match Lexical(nest, name)
       case None => a == None && after == nest
       case Some(Value(v)) => a == Some(Inline(v)) && after == nest
       case Some(p) => a.Some? && a.value.Capture? && Follow(after, a.value.desc) == Some(p)
  }

  /** A function whose enclosing functions have captured more, and which itself perhaps captures one name. */
  lemma CaptureKeeps(f: Func, inner: Nest, outer: Nest, name: string, d: Desc)
    requires Sound([f] + inner) && Extends(inner, outer) && Sound(outer) && |f.upvalues| < 256
    requires forall i :: 0 <= i < |f.upvalues| ==> f.upvalues[i].0 != name
    requires if name == ENV then Rooted(outer, d) else Bound(inner, name) && Follow(outer, d) == Lexical(inner, name)
    ensures Sound([f.(upvalues := f.upvalues + [(name, d)])] + outer)
    ensures Extends([f] + inner, [f.(upvalues := f.upvalues + [(name, d)])] + outer)
  {
    var before, after := [f] + inner, [f.(upvalues := f.upvalues + [(name, d)])] + outer;
    assert before[1..] == inner && after[1..] == outer;
    forall i | 0 <= i < |after[0].upvalues| ensures Leads(after, i) {
      SameScoping(inner, outer, after[0].upvalues[i].0);
      if i < |f.upvalues| { StillLeads(before, after, i); }
    }
  }

  /** What an entry leads to does not change when the enclosing functions capture more. */
  lemma StillLeads(before: Nest, after: Nest, i: nat)
    requires before != [] && after != [] && i < |before[0].upvalues| && Leads(before, i)
    requires Extends(before[1..], after[1..])
    requires i < |after[0].upvalues| && after[0].upvalues[i] == before[0].upvalues[i]
    ensures Leads(after, i)
  {
    var (x, d) := before[0].upvalues[i];
    SameScoping(before[1..], after[1..], x);
    if x != ENV { FollowedIsRooted(before[1..], d); }
    SameMeaning(before[1..], after[1..], d);
  }

  /** Asking a nest resolves lexically, provided there is room for what must be captured. */
  lemma {:induction false} ResolvesForChild(nest: Nest, name: string)
    requires Sound(nest) && name != ENV && RoomFor(nest, name)
    ensures Resolves(nest, name, ResolveForChild(nest, name).0, ResolveForChild(nest, name).1)
    decreases |nest|
  {
    ExtendsSelf(nest);
    if nest != [] && ResolveLocal(nest[0].scopes, name).None? {
      var f, inner := nest[0], nest[1..];
      FindFinds(f.upvalues, name);
      assert [f] + inner == nest;
      if Find(f.upvalues, name) < |f.upvalues| {
        assert Leads(nest, Find(f.upvalues, name));
      } else {
        var (a, outer) := ResolveForChild(inner, name);
        AnswerIs(inner, name);
        ResolvesForChild(inner, name);
        if Capturable(inner, name) { CaptureKeeps(f, inner, outer, name, a.value.desc); }
      }
    }
  }

  /**
   * A free name of the innermost function: a constant is inlined and captured at no level;
   * otherwise its upvalue leads to the register of the innermost enclosing binding; and a name
   * that is unbound, or hidden by a `global` declaration, is neither.
   */
  lemma ResolvesOrCaptures(nest: Nest, name: string)
    requires nest != [] && Sound(nest) && name != ENV && RoomToCapture(nest, name)
    ensures var (r, after) := ResolveOrCapture(nest, name);
      && Extends(nest, after) && Sound(after)
      && match Lexical(nest[1..], name)
         case None => r == None && after == nest
         case Some(Value(v)) => r == Some(Const(v)) && after == nest
         case Some(p) =>
           && r.Some? && r.value.Upvalue? && r.value.index < |after[0].upvalues|
           && after[0].upvalues[r.value.index].0 == name
           && Follow(after[1..], after[0].upvalues[r.value.index].1) == Some(p)
  {
    ExtendsSelf(nest);
    var f, inner := nest[0], nest[1..];
    FindFinds(f.upvalues, name);
    assert [f] + inner == nest;
    if Find(f.upvalues, name) < |f.upvalues| {
      assert Leads(nest, Find(f.upvalues, name));
    } else {
      var (a, outer) := ResolveForChild(inner, name);
      AnswerIs(inner, name);
      ResolvesForChild(inner, name);
      if Capturable(inner, name) { CaptureKeeps(f, inner, outer, name, a.value.desc); }
    }
  }

  /** Resolving a captured name again gives the same index and captures nothing. */
  lemma ResolvesOnce(nest: Nest, name: string)
    requires nest != [] && Sound(nest) && name != ENV && RoomToCapture(nest, name)
    requires ResolveOrCapture(nest, name).0.Some? && ResolveOrCapture(nest, name).0.value.Upvalue?
    ensures var (r, after) := ResolveOrCapture(nest, name); ResolveOrCapture(after, name) == (r, after)
  {
    var (r, after) := ResolveOrCapture(nest, name);
    ResolvesOrCaptures(nest, name);
    FindFinds(after[0].upvalues, name);
  }

  // ----- whole compilations -----

  /** `_ENV` is captured like any other name, wherever the main chunk has put it. */
  lemma {:induction false} EnvForChild(nest: Nest)
    requires Sound(nest) && RoomFor(nest, ENV)
    ensures var (a, after) := ResolveForChild(nest, ENV);
      && Extends(nest, after) && Sound(after)
      && (Capturable(nest, ENV) ==> a.Some? && a.value.Capture? && Rooted(after, a.value.desc))
    decreases |nest|, 1
  {
    ExtendsSelf(nest);
    if nest != [] && ResolveLocal(nest[0].scopes, ENV).None? {
      FindFinds(nest[0].upvalues, ENV);
      assert [nest[0]] + nest[1..] == nest;
      if Find(nest[0].upvalues, ENV) < |nest[0].upvalues| {
        assert Leads(nest, Find(nest[0].upvalues, ENV));
      } else {
        EnvCaptured(nest);
      }
    }
  }

  lemma {:induction false} EnvCaptured(nest: Nest)
    requires nest != [] && Sound(nest) && Find(nest[0].upvalues, ENV) >= |nest[0].upvalues| && RoomToCapture(nest, ENV)
    ensures var after := ResolveOrCapture(nest, ENV).1;
      && Extends(nest, after) && Sound(after)
      && (Capturable(nest[1..], ENV) ==>
            |after[0].upvalues| == |nest[0].upvalues| + 1 <= 256 && Rooted(after, ParentUpvalue(|nest[0].upvalues|)))
    decreases |nest|, 0
  {
    var f, inner := nest[0], nest[1..];
    var (a, outer) := ResolveForChild(inner, ENV);
    assert [f] + inner == nest;
    FindFinds(f.upvalues, ENV);
    AnswerIs(inner, ENV);
    if Capturable(inner, ENV) {
      EnvForChild(inner);
      CaptureKeeps(f, inner, outer, ENV, a.value.desc);
      assert ResolveOrCapture(nest, ENV).1[1..] == outer;
    } else {
      ExtendsSelf(nest);
    }
  }

  lemma EnvKeeps(nest: Nest)
    requires nest != [] && Sound(nest) && RoomToCapture(nest, ENV)
    ensures Extends(nest, ResolveOrCapture(nest, ENV).1) && Sound(ResolveOrCapture(nest, ENV).1)
  {
    ExtendsSelf(nest);
    if Find(nest[0].upvalues, ENV) >= |nest[0].upvalues| { EnvCaptured(nest); }
  }

  /** How an identifier is read: its own register, an inlined constant, an upvalue, or a field of `_ENV`. */
  datatype Read = Local(reg: nat) | Literal(value: int) | Captured(index: nat) | GlobalField

  /** `compile_expr_ident`, without the declaredness check of globals. */
  function ReadIdent(nest: Nest, name: string): (Read, Nest)
    requires nest != []
  {
    match ResolveLocal(nest[0].scopes, name)
    case Some(Constant(v)) => (Literal(v), nest)
    case Some(Register(r)) => (Local(r), nest)
    case Some(Global) => (GlobalField, ResolveOrCapture(nest, ENV).1)
    case None =>
      match ResolveOrCapture(nest, name)
      case (Some(Const(v)), after) => (Literal(v), after)
      case (Some(Upvalue(i)), after) => (Captured(i), after)
      case (None, after) => (GlobalField, ResolveOrCapture(after, ENV).1)
  }

  /** What a way of reading denotes. */
  function Denotes(nest: Nest, r: Read): Option<Place>
    requires nest != []
  {
    match r
    case Local(reg) => Some(At(0, reg))
    case Literal(v) => Some(Value(v))
    case GlobalField => None
    case Captured(i) => Follow(nest, ParentUpvalue(i))
  }

  /** Room for what reading the identifier captures: the name, or `_ENV` if it turns out to be a global. */
  ghost predicate RoomToRead(nest: Nest, name: string)
    requires nest != []
  {
    match ResolveLocal(nest[0].scopes, name)
    case Some(Global) => RoomToCapture(nest, ENV)
    case Some(_) => true
    case None => RoomToCapture(nest, name) && (Lexical(nest, name) == None ==> RoomToCapture(nest, ENV))
  }

  /** A name bound in no scope of the function itself. */
  lemma ReadsFree(nest: Nest, name: string)
    requires nest != [] && Sound(nest) && name != ENV && ResolveLocal(nest[0].scopes, name).None?
    requires RoomToRead(nest, name)
    ensures var (r, after) := ReadIdent(nest, name);
      after != [] && Extends(nest, after) && Sound(after) && Denotes(after, r) == Lexical(nest, name)
  {
    var (a, after) := ResolveOrCapture(nest, name);
    ResolvesOrCaptures(nest, name);
    if a.None? {
      assert ReadIdent(nest, name) == (GlobalField, ResolveOrCapture(nest, ENV).1);
      EnvKeeps(nest);
    } else {
      assert Lexical(nest[1..], name).Some?;
    }
  }

  /** Reading an identifier is lexical scoping: it denotes the innermost binding, or a global if there is none. */
  lemma ReadsLexically(nest: Nest, name: string)
    requires nest != [] && Sound(nest) && name != ENV && RoomToRead(nest, name)
    ensures var (r, after) := ReadIdent(nest, name);
      after != [] && Extends(nest, after) && Sound(after) && Denotes(after, r) == Lexical(nest, name)
  {
    ExtendsSelf(nest);
    match ResolveLocal(nest[0].scopes, name) {
      case Some(Global) => EnvKeeps(nest);
      case Some(_) =>
      case None => ReadsFree(nest, name);
    }
  }

  datatype Step = PushScope | PopScope | Bind(name: string, binding: Binding) | Open | Close | Use(name: string)

  predicate Enabled(nest: Nest, s: Step) {
    match s
    case PushScope => nest != []
    case PopScope => nest != [] && nest[0].scopes != []
    case Bind(_, _) => nest != [] && nest[0].scopes != []
    case Open => true
    case Close => nest != []
    case Use(_) => nest != []
  }

  function Do(nest: Nest, s: Step): Nest
    requires Enabled(nest, s)
  {
    match s
    case PushScope => nest[0 := nest[0].(scopes := nest[0].scopes + [map[]])]
    case PopScope => nest[0 := nest[0].(scopes := nest[0].scopes[..|nest[0].scopes| - 1])]
    case Bind(x, b) =>
      var top := |nest[0].scopes| - 1;
      nest[0 := nest[0].(scopes := nest[0].scopes[top := nest[0].scopes[top][x := b]])]
    case Open => [Func([map[]], [])] + nest
    case Close => nest[1..]
    case Use(x) => ReadIdent(nest, x).1
  }

  /** A binding holds from then on for its own name and for no other, and a scope closed takes its bindings with it. */
  lemma ScopesNest(nest: Nest, x: string, b: Binding, y: string)
    requires nest != []
    ensures Innermost(Do(nest, PushScope)[0].scopes, y) == Innermost(nest[0].scopes, y)
    ensures var inner := Do(Do(nest, PushScope), Bind(x, b));
      && Innermost(inner[0].scopes, y) == (if y == x then Some(b) else Innermost(nest[0].scopes, y))
      && Do(inner, PopScope) == nest
  {
    var scopes := nest[0].scopes;
    var open := scopes + [map[]];
    var bound := open[|scopes| := map[x := b]];
    assert open[..|scopes|] == scopes && bound[..|scopes|] == scopes;
    assert Do(Do(nest, PushScope), Bind(x, b))[0].scopes == bound;
    if y == x { InnermostIs(bound, y, |scopes|); } else { Outwards(bound, y); }
    Outwards(open, y);
  }

  /** A step is in range when there is room for what it captures, and `_ENV` is not used by name. */
  ghost predicate InRange(nest: Nest, s: Step) {
    Enabled(nest, s) && (s.Use? ==> s.name != ENV && RoomToRead(nest, s.name))
  }

  ghost predicate Runs(nest: Nest, steps: seq<Step>)
    decreases |steps|
  {
    steps == [] || (InRange(nest, steps[0]) && Runs(Do(nest, steps[0]), steps[1..]))
  }

  ghost function After(nest: Nest, steps: seq<Step>): Nest
    requires Runs(nest, steps)
    decreases |steps|
  {
    if steps == [] then nest else After(Do(nest, steps[0]), steps[1..])
  }

  /** Entering and leaving scopes and functions, binding and using names, in any order, keeps every list sound. */
  lemma {:induction false} RunsAreSound(nest: Nest, steps: seq<Step>)
    requires Sound(nest) && Runs(nest, steps)
    ensures Sound(After(nest, steps))
    decreases |steps|
  {
    if steps != [] {
      StepKeeps(nest, steps[0]);
      RunsAreSound(Do(nest, steps[0]), steps[1..]);
    }
  }

  lemma StepKeeps(nest: Nest, s: Step)
    requires Sound(nest) && InRange(nest, s)
    ensures Sound(Do(nest, s))
  {
    var after := Do(nest, s);
    match s {
      case Open => assert after[1..] == nest;
      case Close =>
      case Use(x) => ReadsLexically(nest, x);
      case _ =>
        assert after[1..] == nest[1..];
        forall i | 0 <= i < |after[0].upvalues| ensures Leads(after, i) { assert Leads(nest, i); }
    }
  }
}
