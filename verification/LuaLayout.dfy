/** What compiling a statement does to a chunk: it only adds code, and never panics. */
module LuaLayout {
  import opened Prelude
  import opened LuaVm
  import opened LuaCompile
  import opened LuaExec
  import opened LuaDesc
  import opened LuaGo
  import opened LuaDischarge
  import opened LuaCorrect
  import opened LuaStmt

  // ----- conditions -----

  /** A condition has been compiled; the jumps of `list` wait for the place to go when it is false. */
  ghost predicate Branched(ch: Chunk, list: seq<nat>, c: Chunk) {
    Follows(ch, c, |ch.tape|) && c.freereg == ch.freereg && ListsOk(c.tape, |ch.tape|, |c.tape|, [], list)
  }

  lemma BranchShape(ch: Chunk, cond: Expr)
    requires Room(ch) && WellScoped(cond, ch.nactvar)
    ensures CompileBranch(ch, cond).Err? ==> CompileBranch(ch, cond).fail != Panic
    ensures CompileBranch(ch, cond).Ok? ==>
              Branched(ch, CompileBranch(ch, cond).value.0, CompileBranch(ch, cond).value.1)
  {
    BranchCases(ch, cond);
    ExprShape(ch, cond);
    if CompileExpr(ch, cond).Ok? {
      var (d, c) := CompileExpr(ch, cond).value;
      LeftShape(c, |ch.tape|, ch.freereg, d, true);
      if Left(c, d, true).Ok? { FollowsTrans(ch, c, Left(c, d, true).value.1, |ch.tape|, |ch.tape|); }
    }
  }

  lemma BranchGoes(vm: Vm, ch: Chunk, cond: Expr, regs: Regs)
    requires Room(ch) && WellScoped(cond, ch.nactvar) && CompileBranch(ch, cond).Ok?
    requires !CompileBranch(ch, cond).value.1.orphans
    ensures var (list, c) := CompileBranch(ch, cond).value;
      Goes(vm, c, |ch.tape|, ch.freereg, [], list, true, Eval(vm, cond, regs), regs)
  {
    BranchCases(ch, cond);
    ExprShape(ch, cond);
    var (d, c) := CompileExpr(ch, cond).value;
    LeftShape(c, |ch.tape|, ch.freereg, d, true);
    ExprGood(vm, ch, cond);
    LeftGoes(vm, c, |ch.tape|, ch.freereg, d, true, Eval(vm, cond, regs), regs);
  }

  // ----- growth -----

  ghost predicate PatchOk(c: Chunk, i: nat)
    requires i < |c.patches|
  {
    c.patches[i].0 < |c.tape| && c.tape[c.patches[i].0].JMP? && c.patches[i].1 < |c.labels|
  }

  /** Every label jump is a jump of its own, to a label that exists. */
  ghost predicate Neat(c: Chunk) {
    && (forall i :: 0 <= i < |c.patches| ==> PatchOk(c, i))
    && (forall i, j :: 0 <= i < j < |c.patches| ==> c.patches[i].0 != c.patches[j].0)
  }

  /** The label jumps added since `a` stand at or after `mid`. */
  ghost predicate PatchesFrom(a: Chunk, b: Chunk, mid: nat) {
    a.patches <= b.patches && forall i :: |a.patches| <= i < |b.patches| ==> mid <= b.patches[i].0
  }

  ghost predicate Grown(a: Chunk, b: Chunk) {
    && a.tape <= b.tape && a.consts <= b.consts && b.nactvar == a.nactvar && b.freereg == a.freereg
    && (a.orphans ==> b.orphans)
    && PatchesFrom(a, b, |a.tape|)
    && |a.labels| <= |b.labels| && (|b.labels| <= LABELS ==> a.labels <= b.labels)
    && NoStray(b.tape, |a.tape|, {})
  }

  lemma GrownTrans(a: Chunk, b: Chunk, c: Chunk)
    requires Grown(a, b) && Grown(b, c)
    ensures Grown(a, c)
  {
    forall i | |a.patches| <= i < |c.patches| ensures |a.tape| <= c.patches[i].0 {
      if i < |b.patches| { assert c.patches[i] == b.patches[i]; }
    }
    forall i | |a.tape| <= i < |c.tape| ensures !Placeholder(c.tape[i]) {
      if i < |b.tape| { assert c.tape[i] == b.tape[i]; }
    }
  }

  /** A list has been patched: its controls carry no value, its jumps perhaps have their target. */
  ghost predicate Patched(tape: seq<Instr>, tape': seq<Instr>, list: seq<nat>, target: Option<nat>) {
    |tape'| == |tape| && forall i :: 0 <= i < |tape| ==> tape'[i] == PatchedAt(tape, list, target, i)
  }

  function PatchedAt(tape: seq<Instr>, list: seq<nat>, target: Option<nat>, i: nat): Instr
    requires i < |tape|
  {
    if i in list && target.Some? then JMP(target.value - (i + 1))
    else if i + 1 in list then Lowered(tape[i])
    else tape[i]
  }

  /** The list of a condition, in a tape that has grown since. */
  ghost predicate Waiting(tape: seq<Instr>, start: nat, mid: nat, list: seq<nat>) {
    start <= mid <= |tape| && NoDup(list) && forall j :: j in list ==> PendingAt(tape, start, mid, j)
  }

  lemma PatchedKeeps(tape: seq<Instr>, tape': seq<Instr>, start: nat, mid: nat, list: seq<nat>, target: Option<nat>,
    i: nat)
    requires Waiting(tape, start, mid, list) && Patched(tape, tape', list, target) && i < |tape|
    ensures i < start || mid <= i ==> tape'[i] == tape[i]
    ensures tape'[i].JMP? == tape[i].JMP?
    ensures NoStray(tape, start, Elems(list)) && start <= i ==> !Placeholder(tape'[i])
  {
    assert tape'[i] == PatchedAt(tape, list, target, i);
    assert i in list ==> PendingAt(tape, start, mid, i);
    assert i + 1 in list ==> PendingAt(tape, start, mid, i + 1);
  }

  lemma PatchedGrows(a: seq<Instr>, tape: seq<Instr>, tape': seq<Instr>, mid: nat, list: seq<nat>, target: Option<nat>)
    requires a <= tape && Waiting(tape, |a|, mid, list) && Patched(tape, tape', list, target)
    requires NoStray(tape, |a|, Elems(list))
    ensures a <= tape' && NoStray(tape', |a|, {})
    ensures forall i :: mid <= i < |tape| ==> tape'[i] == tape[i]
    ensures forall i :: 0 <= i < |tape| ==> tape'[i].JMP? == tape[i].JMP?
  {
    forall i | 0 <= i < |tape|
      ensures (i < |a| || mid <= i ==> tape'[i] == tape[i]) && tape'[i].JMP? == tape[i].JMP?
      ensures |a| <= i ==> !Placeholder(tape'[i])
    {
      PatchedKeeps(tape, tape', |a|, mid, list, target, i);
    }
  }

  /** After a condition, more code that leaves nothing pending. */
  lemma StillWaiting(ch: Chunk, list: seq<nat>, c: Chunk, more: seq<Instr>)
    requires Branched(ch, list, c) && c.tape <= more && NoStray(more, |c.tape|, {})
    ensures ch.tape <= more && Waiting(more, |ch.tape|, |c.tape|, list) && NoStray(more, |ch.tape|, Elems(list))
  {
    assert [] + list == list;
    assert ch.tape <= c.tape by { FollowsExtends(ch, c); }
    forall j | j in list ensures PendingAt(more, |ch.tape|, |c.tape|, j) {
      assert PendingAt(c.tape, |ch.tape|, |c.tape|, j);
    }
    forall i | |ch.tape| <= i < |more| && Placeholder(more[i]) ensures i + 1 in Elems(list) {
      assert i < |c.tape| && Placeholder(c.tape[i]);
      assert i + 1 in Elems([]) + Elems(list);
    }
  }

  lemma WaitingControlled(tape: seq<Instr>, start: nat, mid: nat, list: seq<nat>)
    requires Waiting(tape, start, mid, list)
    ensures Controlled(tape, list) && AreJumps(tape, list)
  {
    forall j | j in list ensures PendingAt(tape, start, mid, j) {}
  }

  lemma PatchToPatches(ch: Chunk, start: nat, mid: nat, list: seq<nat>, target: nat)
    requires Waiting(ch.tape, start, mid, list)
    ensures PatchTo(ch, list, target).Ok?
    ensures var c := PatchTo(ch, list, target).value;
      Patched(ch.tape, c.tape, list, Some(target)) && c == ch.(tape := c.tape, lastTarget := c.lastTarget)
  {
    WaitingControlled(ch.tape, start, mid, list);
    var c := PatchTo(ch, list, target).value;
    forall i | 0 <= i < |ch.tape| ensures c.tape[i] == PatchedAt(ch.tape, list, Some(target), i) {
      AimedAt(ch.tape, list, target, i);
    }
  }

  /** Jumps in the middle of the tape are not elided. */
  lemma PatchHerePatches(ch: Chunk, start: nat, mid: nat, list: seq<nat>)
    requires Waiting(ch.tape, start, mid, list) && mid < |ch.tape|
    ensures PatchToHere(ch, list).Ok?
    ensures var c := PatchToHere(ch, list).value;
      Patched(ch.tape, c.tape, list, Some(|ch.tape|)) && c == ch.(tape := c.tape, lastTarget := c.lastTarget)
  {
    PatchToHereStep(ch, list);
    PositionFinds(list, |ch.tape| - 1);
    assert |ch.tape| - 1 !in list;
    PatchToPatches(ch, start, mid, list, |ch.tape|);
  }

  // ----- the pieces -----

  lemma EmitGrows(ch: Chunk, i: Instr)
    requires !Placeholder(i)
    ensures Grown(ch, Emit(ch, i)) && (Neat(ch) ==> Neat(Emit(ch, i)))
  {
    if Neat(ch) {
      forall k | 0 <= k < |ch.patches| ensures PatchOk(Emit(ch, i), k) { assert PatchOk(ch, k); }
    }
  }

  lemma JumpGrows(ch: Chunk, l: nat)
    requires Neat(ch) && l < |ch.labels|
    ensures Grown(ch, EmitJump(ch, l)) && Neat(EmitJump(ch, l))
  {
    var c := EmitJump(ch, l);
    forall k | 0 <= k < |c.patches| ensures PatchOk(c, k) {
      if k < |ch.patches| { assert PatchOk(ch, k) && c.patches[k] == ch.patches[k]; }
    }
    forall i, j | 0 <= i < j < |c.patches| ensures c.patches[i].0 != c.patches[j].0 {
      assert PatchOk(ch, i) && c.patches[i] == ch.patches[i];
      if j < |ch.patches| { assert c.patches[j] == ch.patches[j]; }
    }
  }

  lemma LabelGrows(ch: Chunk)
    requires Neat(ch)
    ensures var (l, c) := NewLabel(ch);
      Grown(ch, c) && Neat(c) && l < |c.labels| && (|c.labels| <= LABELS ==> l == |ch.labels|)
  {
    var (l, c) := NewLabel(ch);
    forall k | 0 <= k < |c.patches| ensures PatchOk(c, k) { assert PatchOk(ch, k); }
  }

  /** Placing a label made since `a`. */
  lemma PlaceGrows(a: Chunk, c: Chunk, l: nat, at: nat)
    requires Grown(a, c) && Neat(c) && l < |c.labels| && (|c.labels| <= LABELS ==> |a.labels| <= l)
    ensures SetLabel(c, l, at).Ok? && Grown(a, SetLabel(c, l, at).value) && Neat(SetLabel(c, l, at).value)
  {
    var d := SetLabel(c, l, at).value;
    forall k | 0 <= k < |d.patches| ensures PatchOk(d, k) { assert PatchOk(c, k); }
    assert PatchesFrom(a, d, |a.tape|);
  }

  /** A patched tape keeps the label jumps neat. */
  lemma PatchedNeat(c: Chunk, d: Chunk)
    requires Neat(c) && d.patches == c.patches && d.labels == c.labels && |d.tape| == |c.tape|
    requires forall i :: 0 <= i < |c.tape| ==> d.tape[i].JMP? == c.tape[i].JMP?
    ensures Neat(d)
  {
    forall k | 0 <= k < |d.patches| ensures PatchOk(d, k) { assert PatchOk(c, k); }
  }
}
