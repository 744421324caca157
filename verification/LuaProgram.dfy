/** Whole programs: the assembled code runs as the source does. */
module LuaProgram {
  import opened Prelude
  import opened LuaVm
  import opened LuaCompile
  import opened LuaDesc
  import opened LuaCorrect
  import opened LuaStmt
  import opened LuaPlaced
  import opened LuaLayout
  import opened LuaGrowth
  import opened LuaAssemble
  import opened LuaIdle

  /** `w` is the machine code assembled from the chunk `f`. */
  ghost predicate Finished(w: Code, f: Chunk) {
    Neat(f) && Aimed(f, w.tape) && w.k == f.consts && w.n == f.nactvar && |f.labels| <= LABELS
  }

  function Target(f: Chunk, l: Option<nat>): Option<nat>
    requires BreakOk(f, l)
  {
    if l.None? then None else Some(f.labels[l.value])
  }

  /** Code with no label jump in it is as compiled. */
  lemma UntouchedIn(w: Code, ch: Chunk, c: Chunk, f: Chunk, mid: nat, i: nat)
    requires Finished(w, f) && Neat(ch) && Fixed(ch, c, f) && PatchesFrom(ch, c, mid)
    requires |ch.tape| <= i < mid <= |c.tape|
    ensures w.tape[i] == f.tape[i] == c.tape[i]
  {
    forall k | 0 <= k < |f.patches| ensures f.patches[k].0 != i {
      if k < |ch.patches| {
        assert PatchOk(ch, k) && f.patches[k] == c.patches[k] == ch.patches[k];
      } else if k < |c.patches| {
        assert f.patches[k] == c.patches[k];
      }
    }
    assert Untouched(f, i);
  }

  lemma JumpPlaced(w: Code, c: Chunk, l: nat, f: Chunk)
    requires Finished(w, f) && EmitJump(c, l).patches <= f.patches
    ensures l < |f.labels| && JumpAt(w, |c.tape|, f.labels[l])
  {
    var k := |c.patches|;
    assert f.patches[k] == EmitJump(c, l).patches[k] == (|c.tape|, l);
    assert AimedAt(f, w.tape, k);
  }

  lemma {:induction false} PlacesStmt(w: Code, f: Chunk, ch: Chunk, s: Stmt, brk: Option<nat>)
    requires Room(ch) && Neat(ch) && StmtOk(s, ch.nactvar) && BreakOk(ch, brk) && Finished(w, f) && w.n == ch.nactvar
    requires var r := CompileStmt(ch, s, brk); r.Ok? && !r.value.orphans && Fixed(ch, r.value, f)
    ensures PlacedStmt(w, s, |ch.tape|, |CompileStmt(ch, s, brk).value.tape|, Target(f, brk))
    decreases s, 1
  {
    StmtGrows(ch, s, brk);
    var c := CompileStmt(ch, s, brk).value;
    match s {
      case Work(id) => UntouchedIn(w, ch, c, f, |c.tape|, |ch.tape|);
      case Break => JumpPlaced(w, ch, brk.value, f);
      case Do(b) =>
        BlockGrows(ch, b, brk);
        PlacesBlock(w, f, ch, b, brk);
      case If(arms) => PlacesIf(w, f, ch, arms, brk);
      case While(cond, b) => PlacesWhile(w, f, ch, cond, b, brk);
      case Repeat(b, cond) => PlacesRepeat(w, f, ch, b, cond, brk);
    }
  }

  lemma {:induction false} PlacesBlock(w: Code, f: Chunk, ch: Chunk, b: Block, brk: Option<nat>)
    requires Room(ch) && Neat(ch) && BlockOk(b, ch.nactvar) && BreakOk(ch, brk) && Finished(w, f) && w.n == ch.nactvar
    requires var r := CompileBlock(ch, b, brk); r.Ok? && !r.value.orphans && Fixed(ch, r.value, f)
    ensures PlacedBlock(w, b, |ch.tape|, |CompileBlock(ch, b, brk).value.tape|, Target(f, brk))
    decreases b, 1
  {
    if b.Then? {
      var c, d := CompileStmt(ch, b.s, brk).value, CompileBlock(ch, b, brk).value;
      StmtGrows(ch, b.s, brk);
      BlockGrows(c, b.rest, brk);
      GrownSame(ch);
      GrownSame(d);
      GrownTrans(ch, c, d);
      FixedThen(ch, ch, c, d, f);
      FixedThen(ch, c, d, d, f);
      PlacesStmt(w, f, ch, b.s, brk);
      PlacesBlock(w, f, c, b.rest, brk);
    }
  }

  lemma {:induction false} PlacesIf(w: Code, f: Chunk, ch: Chunk, arms: Arms, brk: Option<nat>)
    requires Room(ch) && Neat(ch) && StmtOk(If(arms), ch.nactvar) && BreakOk(ch, brk) && Finished(w, f)
    requires w.n == ch.nactvar
    requires var r := CompileStmt(ch, If(arms), brk); r.Ok? && !r.value.orphans && Fixed(ch, r.value, f)
    ensures PlacedArms(w, arms, |ch.tape|, |CompileStmt(ch, If(arms), brk).value.tape|, Target(f, brk))
    decreases If(arms), 0
  {
    LabelGrows(ch);
    var (end, c) := NewLabel(ch);
    ArmsGrow(c, arms, end, brk);
    var c1 := CompileArms(c, arms, end, brk).value;
    var d := CompileStmt(ch, If(arms), brk).value;
    assert d == SetLabel(c1, end, |c1.tape|).value;
    assert Fixed(c, c1, d);
    FixedIn(ch, d, c, c1, f);
    PlacesArms(w, f, c, arms, end, brk);
  }

  lemma {:induction false} PlacesArms(w: Code, f: Chunk, ch: Chunk, arms: Arms, end: nat, brk: Option<nat>)
    requires Room(ch) && Neat(ch) && ArmsOk(arms, ch.nactvar) && BreakOk(ch, brk) && end < |ch.labels|
    requires Finished(w, f) && w.n == ch.nactvar
    requires var r := CompileArms(ch, arms, end, brk);
      r.Ok? && !r.value.orphans && Fixed(ch, r.value, f) && f.labels[end] == |r.value.tape|
    ensures PlacedArms(w, arms, |ch.tape|, |CompileArms(ch, arms, end, brk).value.tape|, Target(f, brk))
    decreases arms, 2
  {
    match arms {
      case Fi =>
      case Else(b) =>
        BlockGrows(ch, b, brk);
        PlacesBlock(w, f, ch, b, brk);
      case Arm(cond, b, rest) => PlacesArm(w, f, ch, cond, b, rest, end, brk);
    }
  }

  /** The chunks an arm goes through: condition, body, jump to the end, condition patched. */
  ghost predicate ArmSteps(ch: Chunk, cond: Expr, b: Block, rest: Arms, end: nat, brk: Option<nat>, list: seq<nat>,
    c1: Chunk, c2: Chunk, c4: Chunk, c: Chunk)
  {
    && CompileBranch(ch, cond) == Ok((list, c1)) && CompileBlock(c1, b, brk) == Ok(c2)
    && CompileArms(c4, rest, end, brk) == Ok(c)
    && Branched(ch, list, c1) && Neat(c1) && Grown(c1, c2) && Neat(c4) && Grown(ch, c4) && Grown(c4, c)
    && Patched(ArmEnd(c2, rest, end).tape, c4.tape, list, Some(|c4.tape|))
    && c4 == ArmEnd(c2, rest, end).(tape := c4.tape, lastTarget := c4.lastTarget)
    && (forall i :: |c1.tape| <= i < |c4.tape| ==> c4.tape[i] == ArmEnd(c2, rest, end).tape[i])
    && PatchesFrom(ch, c, |c1.tape|)
    && (if rest.Fi? then |c4.tape| == |c2.tape| else |c4.tape| == |c2.tape| + 1)
  }

  /** The last arm's body is compiled to nothing. */
  predicate LeavesNoCode(ch: Chunk, cond: Expr, b: Block, rest: Arms, brk: Option<nat>)
    requires CompileBranch(ch, cond).Ok?
  {
    var c1 := CompileBranch(ch, cond).value.1;
    rest.Fi? && CompileBlock(c1, b, brk).Ok? && |CompileBlock(c1, b, brk).value.tape| == |c1.tape|
  }

  lemma ArmUnfolds(ch: Chunk, cond: Expr, b: Block, rest: Arms, end: nat, brk: Option<nat>)
    returns (list: seq<nat>, c1: Chunk, c2: Chunk, c4: Chunk)
    requires Room(ch) && Neat(ch) && ArmsOk(Arm(cond, b, rest), ch.nactvar) && BreakOk(ch, brk) && end < |ch.labels|
    requires CompileArms(ch, Arm(cond, b, rest), end, brk).Ok? && !LeavesNoCode(ch, cond, b, rest, brk)
    ensures ArmSteps(ch, cond, b, rest, end, brk, list, c1, c2, c4, CompileArms(ch, Arm(cond, b, rest), end, brk).value)
  {
    BranchShape(ch, cond);
    list, c1 := CompileBranch(ch, cond).value.0, CompileBranch(ch, cond).value.1;
    BranchedNeat(ch, list, c1);
    BlockGrows(c1, b, brk);
    c2 := CompileBlock(c1, b, brk).value;
    ArmEndGrows(c1, c2, rest, end);
    var c3 := ArmEnd(c2, rest, end);
    StillWaiting(ch, list, c1, c3.tape);
    PatchHerePatches(c3, |ch.tape|, |c1.tape|, list);
    c4 := PatchToHere(c3, list).value;
    ConditionGrows(ch, list, c1, c3, c4, Some(|c3.tape|));
    ArmsGrow(c4, rest, end, brk);
  }

  /** The assembled code of a condition whose list was aimed on the tape itself. */
  lemma CondAssembled(w: Code, f: Chunk, ch: Chunk, list: seq<nat>, c1: Chunk, d: Chunk, t: seq<Instr>, no: nat)
    requires Finished(w, f) && Neat(ch) && Branched(ch, list, c1) && Fixed(ch, d, f) && PatchesFrom(ch, d, |c1.tape|)
    requires c1.tape <= t && |t| <= |d.tape| && Patched(t, d.tape[..|t|], list, Some(no))
    ensures CondPatched(c1.tape, w.tape, |ch.tape|, list, no)
  {
    forall i | |ch.tape| <= i < |c1.tape| ensures w.tape[i] == PatchedAt(c1.tape, list, Some(no), i) {
      UntouchedIn(w, ch, d, f, |c1.tape|, i);
      assert d.tape[i] == d.tape[..|t|][i] == PatchedAt(t, list, Some(no), i);
    }
  }

  lemma ArmFixes(ch: Chunk, cond: Expr, b: Block, rest: Arms, end: nat, brk: Option<nat>, list: seq<nat>, c1: Chunk,
    c2: Chunk, c4: Chunk, c: Chunk, f: Chunk)
    requires ArmSteps(ch, cond, b, rest, end, brk, list, c1, c2, c4, c) && Fixed(ch, c, f) && |f.labels| <= LABELS
    ensures Fixed(c1, c2, f) && Fixed(c4, c, f)
  {
    assert Fixed(c1, c2, c4);
    GrownFixes(ch, c4, c);
    FixedIn(ch, c4, c1, c2, c);
    FixedIn(ch, c, c1, c2, f);
    GrownSame(c);
    FixedThen(ch, c4, c, c, f);
  }

  lemma {:induction false} PlacesArm(w: Code, f: Chunk, ch: Chunk, cond: Expr, b: Block, rest: Arms, end: nat,
    brk: Option<nat>)
    requires Room(ch) && Neat(ch) && ArmsOk(Arm(cond, b, rest), ch.nactvar) && BreakOk(ch, brk) && end < |ch.labels|
    requires Finished(w, f) && w.n == ch.nactvar
    requires var r := CompileArms(ch, Arm(cond, b, rest), end, brk);
      r.Ok? && !r.value.orphans && Fixed(ch, r.value, f) && f.labels[end] == |r.value.tape|
    ensures PlacedArms(w, Arm(cond, b, rest), |ch.tape|, |CompileArms(ch, Arm(cond, b, rest), end, brk).value.tape|,
      Target(f, brk))
    decreases Arm(cond, b, rest), 1
  {
    if LeavesNoCode(ch, cond, b, rest, brk) {
      PlacesIdleArm(w, f, ch, cond, b, end, brk);
    } else {
      PlacesCodeArm(w, f, ch, cond, b, rest, end, brk);
    }
  }

  lemma {:induction false} PlacesCodeArm(w: Code, f: Chunk, ch: Chunk, cond: Expr, b: Block, rest: Arms, end: nat,
    brk: Option<nat>)
    requires Room(ch) && Neat(ch) && ArmsOk(Arm(cond, b, rest), ch.nactvar) && BreakOk(ch, brk) && end < |ch.labels|
    requires Finished(w, f) && w.n == ch.nactvar
    requires var r := CompileArms(ch, Arm(cond, b, rest), end, brk);
      r.Ok? && !r.value.orphans && Fixed(ch, r.value, f) && f.labels[end] == |r.value.tape|
    requires !LeavesNoCode(ch, cond, b, rest, brk)
    ensures PlacedArms(w, Arm(cond, b, rest), |ch.tape|, |CompileArms(ch, Arm(cond, b, rest), end, brk).value.tape|,
      Target(f, brk))
    decreases Arm(cond, b, rest), 0
  {
    var c := CompileArms(ch, Arm(cond, b, rest), end, brk).value;
    var list, c1, c2, c4 := ArmUnfolds(ch, cond, b, rest, end, brk);
    var mid, out, next := |c1.tape|, |c2.tape|, |c4.tape|;
    assert CondAt(w, cond, |ch.tape|, mid, next) by {
      var t := ArmEnd(c2, rest, end).tape;
      assert c.tape[..|t|] == c4.tape;
      CondAssembled(w, f, ch, list, c1, c, t, next);
      CondPlaced(w, ch, cond, next);
    }
    ArmFixes(ch, cond, b, rest, end, brk, list, c1, c2, c4, c, f);
    assert PlacedBlock(w, b, mid, out, Target(f, brk)) by { PlacesBlock(w, f, c1, b, brk); }
    assert PlacedArms(w, rest, next, |c.tape|, Target(f, brk)) by { PlacesArms(w, f, c4, rest, end, brk); }
    if !rest.Fi? { JumpPlaced(w, c2, end, f); }
  }

  /** The last arm's body is compiled to nothing: its condition's jumps meet right behind it. */
  lemma PlacesIdleArm(w: Code, f: Chunk, ch: Chunk, cond: Expr, b: Block, end: nat, brk: Option<nat>)
    requires Room(ch) && Neat(ch) && ArmsOk(Arm(cond, b, Fi), ch.nactvar) && BreakOk(ch, brk) && end < |ch.labels|
    requires Finished(w, f) && w.n == ch.nactvar
    requires var r := CompileArms(ch, Arm(cond, b, Fi), end, brk); r.Ok? && !r.value.orphans && Fixed(ch, r.value, f)
    requires LeavesNoCode(ch, cond, b, Fi, brk)
    ensures PlacedArms(w, Arm(cond, b, Fi), |ch.tape|, |CompileArms(ch, Arm(cond, b, Fi), end, brk).value.tape|,
      Target(f, brk))
  {
    BranchShape(ch, cond);
    var (list, c1) := CompileBranch(ch, cond).value;
    BranchedNeat(ch, list, c1);
    BlockGrows(c1, b, brk);
    var c2 := CompileBlock(c1, b, brk).value;
    BlankArmCloses(ch, list, c1, c2);
    var c4 := PatchToHere(c2, list).value;
    forall i | |ch.tape| <= i < |c4.tape| ensures w.tape[i] == c4.tape[i] { UntouchedIn(w, ch, c4, f, |c4.tape|, i); }
    forall regs ensures PassesFrom(w, cond, |ch.tape|, |c4.tape|, regs) {
      ClosedGoes(w.vm, ch, cond, list, c1, c2, regs);
      IdleCondPassed(w, c4, |ch.tape|, cond, ch.freereg, regs);
    }
    BlankDoes(w.vm, c1, b, brk);
  }

  // ----- repeat -----

  lemma RepeatUnfolds(ch: Chunk, b: Block, cond: Expr, brk: Option<nat>)
    returns (out: nat, c: Chunk, c1: Chunk, list: seq<nat>, c2: Chunk, c3: Chunk)
    requires Room(ch) && Neat(ch) && StmtOk(Repeat(b, cond), ch.nactvar) && CompileStmt(ch, Repeat(b, cond), brk).Ok?
    ensures (out, c) == NewLabel(ch) && Neat(c) && CompileBlock(c, b, Some(out)) == Ok(c1) && Grown(c, c1) && Neat(c1)
    ensures CompileBranch(c1, cond) == Ok((list, c2)) && Branched(c1, list, c2) && Grown(c1, c3)
    ensures c3 == c2.(tape := c3.tape, lastTarget := c3.lastTarget) && Patched(c2.tape, c3.tape, list, Some(|ch.tape|))
    ensures c3.labels == c1.labels && c3.patches == c1.patches && PatchesFrom(c1, c3, |c2.tape|) && out < |c3.labels|
    ensures CompileStmt(ch, Repeat(b, cond), brk).value == SetLabel(c3, out, |c3.tape|).value
  {
    LabelGrows(ch);
    out, c := NewLabel(ch).0, NewLabel(ch).1;
    BlockGrows(c, b, Some(out));
    c1 := CompileBlock(c, b, Some(out)).value;
    BranchShape(c1, cond);
    list, c2 := CompileBranch(c1, cond).value.0, CompileBranch(c1, cond).value.1;
    GrownSame(c2);
    BranchedNeat(c1, list, c2);
    StillWaiting(c1, list, c2, c2.tape);
    PatchToPatches(c2, |c1.tape|, |c2.tape|, list, |ch.tape|);
    c3 := PatchTo(c2, list, |ch.tape|).value;
    ConditionGrows(c1, list, c2, c2, c3, Some(|ch.tape|));
    assert Scoped(ch, c3) == c3;
  }

  lemma {:induction false} PlacesRepeat(w: Code, f: Chunk, ch: Chunk, b: Block, cond: Expr, brk: Option<nat>)
    requires Room(ch) && Neat(ch) && StmtOk(Repeat(b, cond), ch.nactvar) && BreakOk(ch, brk) && Finished(w, f)
    requires w.n == ch.nactvar
    requires var r := CompileStmt(ch, Repeat(b, cond), brk); r.Ok? && !r.value.orphans && Fixed(ch, r.value, f)
    ensures PlacedStmt(w, Repeat(b, cond), |ch.tape|, |CompileStmt(ch, Repeat(b, cond), brk).value.tape|,
      Target(f, brk))
    decreases Repeat(b, cond), 0
  {
    var d := CompileStmt(ch, Repeat(b, cond), brk).value;
    var out, c, c1, list, c2, c3 := RepeatUnfolds(ch, b, cond, brk);
    RepeatFixes(ch, out, c, c1, c3, d, f);
    assert PlacedBlock(w, b, |ch.tape|, |c1.tape|, Some(|d.tape|)) by { PlacesBlock(w, f, c, b, Some(out)); }
    assert CondAt(w, cond, |c1.tape|, |d.tape|, |ch.tape|) by {
      assert d.tape[..|c2.tape|] == c3.tape;
      CondAssembled(w, f, c1, list, c2, d, c2.tape, |ch.tape|);
      CondPlaced(w, c1, cond, |ch.tape|);
    }
  }

  lemma RepeatFixes(ch: Chunk, out: nat, c: Chunk, c1: Chunk, c3: Chunk, d: Chunk, f: Chunk)
    requires (out, c) == NewLabel(ch) && Grown(c, c1) && Grown(c1, c3) && c3.labels == c1.labels
    requires c3.patches == c1.patches
    requires out < |c3.labels| && d == SetLabel(c3, out, |c3.tape|).value && Fixed(ch, d, f) && |f.labels| <= LABELS
    ensures Fixed(c, c1, f) && Fixed(c1, d, f) && f.labels[out] == |d.tape|
  {
    assert Fixed(c, c1, d);
    FixedIn(ch, d, c, c1, f);
    assert Fixed(c1, d, d);
    FixedIn(ch, d, c1, d, f);
  }

  // ----- while -----

  /** The chunks a `while` goes through. */
  ghost predicate WhileSteps(ch: Chunk, cond: Expr, b: Block, out: nat, top: nat, c2: Chunk, list: seq<nat>, c3: Chunk,
    c4: Chunk, c6: Chunk, d: Chunk)
  {
    && (out, top, c2) == WhileStart(ch) && c2.tape == ch.tape && c2.patches == ch.patches && Neat(c2) && Room(c2)
    && c2.nactvar == ch.nactvar
    && CompileBranch(c2, cond) == Ok((list, c3)) && Branched(c2, list, c3) && Neat(c3)
    && CompileBlock(c3, b, Some(out)) == Ok(c4) && Grown(c3, c4)
    && c6 == WhileEnd(c4, top, list, out) && Grown(c2, c6)
    && d == c6.(labels := d.labels, lastTarget := d.lastTarget)
    && out < |c6.labels| && d.labels == c6.labels[out := |c6.tape|]
    && Patched(EmitJump(c4, top).tape, c6.tape, list, None)
    && (forall i :: |c3.tape| <= i < |c6.tape| ==> c6.tape[i] == EmitJump(c4, top).tape[i])
    && (forall j :: j in list ==> |ch.tape| < j < |c3.tape|)
    && (|d.labels| <= LABELS ==> out == |ch.labels| && top == out + 1 && c2.labels[top] == |ch.tape|)
    && |c2.labels| == |ch.labels| + 2
  }

  lemma WhileUnfolds(ch: Chunk, cond: Expr, b: Block, brk: Option<nat>)
    returns (out: nat, top: nat, c2: Chunk, list: seq<nat>, c3: Chunk, c4: Chunk, c6: Chunk)
    requires Room(ch) && Neat(ch) && StmtOk(While(cond, b), ch.nactvar) && CompileStmt(ch, While(cond, b), brk).Ok?
    ensures WhileSteps(ch, cond, b, out, top, c2, list, c3, c4, c6, CompileStmt(ch, While(cond, b), brk).value)
  {
    WhileCases(ch, cond, b, brk);
    WhileStartGrows(ch);
    out, top, c2 := WhileStart(ch).0, WhileStart(ch).1, WhileStart(ch).2;
    BranchShape(c2, cond);
    list, c3 := CompileBranch(c2, cond).value.0, CompileBranch(c2, cond).value.1;
    BranchedNeat(c2, list, c3);
    BlockGrows(c3, b, Some(out));
    c4 := CompileBlock(c3, b, Some(out)).value;
    c6 := WhileEnd(c4, top, list, out);
    WhileEndGrows(c2, list, c3, c4, top, out);
    WhileEndKeeps(c2, list, c3, c4, top, out);
  }

  lemma WhileEndKeeps(c2: Chunk, list: seq<nat>, c3: Chunk, c4: Chunk, top: nat, out: nat)
    requires Branched(c2, list, c3) && Grown(c3, c4) && Neat(c4) && top < |c4.labels|
    ensures var c5, c6 := EmitJump(c4, top), WhileEnd(c4, top, list, out);
      && Patched(c5.tape, c6.tape, list, None)
      && (forall i :: |c3.tape| <= i < |c6.tape| ==> c6.tape[i] == c5.tape[i])
      && (forall j :: j in list ==> |c2.tape| < j < |c3.tape|)
  {
    var c5 := EmitJump(c4, top);
    JumpGrows(c4, top);
    GrownTrans(c3, c4, c5);
    DowngradePatches(c5.tape, list);
    StillWaiting(c2, list, c3, c5.tape);
    PatchedGrows(c2.tape, c5.tape, DowngradeTestsets(c5.tape, list), |c3.tape|, list, None);
    forall j | j in list ensures |c2.tape| < j < |c3.tape| { assert PendingAt(c5.tape, |c2.tape|, |c3.tape|, j); }
  }

  /** The label jumps of a finished `while`: earlier ones, the body's, the back jump, the condition's. */
  lemma WhilePatch(ch: Chunk, cond: Expr, b: Block, out: nat, top: nat, c2: Chunk, list: seq<nat>, c3: Chunk, c4: Chunk,
    c6: Chunk, d: Chunk, k: nat)
    requires WhileSteps(ch, cond, b, out, top, c2, list, c3, c4, c6, d) && Neat(ch) && k < |d.patches|
    ensures |ch.patches| <= |c4.patches| && |d.patches| == |c4.patches| + 1 + |list|
    ensures d.patches[k] ==
      if k < |c4.patches| then c4.patches[k]
      else if k == |c4.patches| then (|c4.tape|, top)
      else (list[k - |c4.patches| - 1], out)
    ensures k < |ch.patches| ==> d.patches[k].0 < |ch.tape|
    ensures |ch.patches| <= k < |c4.patches| ==> |c3.tape| <= d.patches[k].0
  {
    assert c3.patches == ch.patches;
    if k < |ch.patches| { assert PatchOk(ch, k) && c4.patches[k] == ch.patches[k]; }
  }

  lemma WhileFixes(ch: Chunk, cond: Expr, b: Block, out: nat, top: nat, c2: Chunk, list: seq<nat>, c3: Chunk, c4: Chunk,
    c6: Chunk, d: Chunk, f: Chunk)
    requires WhileSteps(ch, cond, b, out, top, c2, list, c3, c4, c6, d) && Fixed(ch, d, f) && Neat(ch)
    requires |f.labels| <= LABELS
    ensures Fixed(c3, c4, f) && f.labels[out] == |d.tape| && f.labels[top] == |ch.tape|
    ensures EmitJump(c4, top).patches <= f.patches
  {
    forall k | |c4.patches| <= k < |d.patches| ensures d.patches[k].0 < |c3.tape| || |c4.tape| <= d.patches[k].0 {
      WhilePatch(ch, cond, b, out, top, c2, list, c3, c4, c6, d, k);
      if k > |c4.patches| { assert list[k - |c4.patches| - 1] in list; }
    }
    WhileBodyFixed(ch, cond, b, out, top, c2, list, c3, c4, c6, d);
    FixedIn(ch, d, c3, c4, f);
    assert EmitJump(c4, top).patches <= d.patches;
  }

  lemma WhileBodyFixed(ch: Chunk, cond: Expr, b: Block, out: nat, top: nat, c2: Chunk, list: seq<nat>, c3: Chunk,
    c4: Chunk, c6: Chunk, d: Chunk)
    requires WhileSteps(ch, cond, b, out, top, c2, list, c3, c4, c6, d) && |d.labels| <= LABELS
    requires forall k :: |c4.patches| <= k < |d.patches| ==> d.patches[k].0 < |c3.tape| || |c4.tape| <= d.patches[k].0
    ensures Fixed(c3, c4, d) && |ch.tape| <= |c3.tape| && |ch.labels| <= |c3.labels|
    ensures out < |d.labels| && top < |d.labels| && |ch.labels| <= out && |ch.labels| <= top
    ensures d.labels[out] == |d.tape| && d.labels[top] == |ch.tape|
  {
    assert c3.labels == c2.labels && c2.labels <= c6.labels;
    assert forall i :: |c3.tape| <= i < |c4.tape| ==> d.tape[i] == c4.tape[i];
    assert forall l :: |c3.labels| <= l < |c4.labels| ==> d.labels[l] == c4.labels[l];
  }

  lemma WhileExitPatch(ch: Chunk, cond: Expr, b: Block, out: nat, top: nat, c2: Chunk, list: seq<nat>, c3: Chunk,
    c4: Chunk, c6: Chunk, d: Chunk, i: nat)
    returns (k: nat)
    requires WhileSteps(ch, cond, b, out, top, c2, list, c3, c4, c6, d) && Neat(ch) && i in list
    ensures k < |d.patches| && d.patches[k] == (i, out)
  {
    var x :| 0 <= x < |list| && list[x] == i;
    k := |c4.patches| + 1 + x;
    assert |d.patches| == |c4.patches| + 1 + |list| by {
      WhilePatch(ch, cond, b, out, top, c2, list, c3, c4, c6, d, |c4.patches|);
    }
    WhilePatch(ch, cond, b, out, top, c2, list, c3, c4, c6, d, k);
  }

  /** In a finished `while` the jumps of the condition go to the exit label. */
  lemma WhileListAimed(w: Code, f: Chunk, ch: Chunk, cond: Expr, b: Block, out: nat, top: nat, c2: Chunk,
    list: seq<nat>, c3: Chunk, c4: Chunk, c6: Chunk, d: Chunk, i: nat)
    requires WhileSteps(ch, cond, b, out, top, c2, list, c3, c4, c6, d) && Fixed(ch, d, f) && Finished(w, f) && Neat(ch)
    requires |ch.tape| <= i < |c3.tape|
    ensures w.tape[i] == PatchedAt(c3.tape, list, Some(|d.tape|), i)
  {
    if i in list {
      var k := WhileExitPatch(ch, cond, b, out, top, c2, list, c3, c4, c6, d, i);
      assert f.labels[out] == |d.tape| by {
        WhileFixes(ch, cond, b, out, top, c2, list, c3, c4, c6, d, f);
      }
      assert f.patches[k] == d.patches[k];
      assert AimedAt(f, w.tape, k);
    } else {
      WhileRestAimed(w, f, ch, cond, b, out, top, c2, list, c3, c4, c6, d, i);
    }
  }

  lemma WhileRestAimed(w: Code, f: Chunk, ch: Chunk, cond: Expr, b: Block, out: nat, top: nat, c2: Chunk,
    list: seq<nat>, c3: Chunk, c4: Chunk, c6: Chunk, d: Chunk, i: nat)
    requires WhileSteps(ch, cond, b, out, top, c2, list, c3, c4, c6, d) && Fixed(ch, d, f) && Finished(w, f) && Neat(ch)
    requires |ch.tape| <= i < |c3.tape| && i !in list
    ensures w.tape[i] == PatchedAt(c3.tape, list, Some(|d.tape|), i)
  {
    forall k | 0 <= k < |f.patches| ensures f.patches[k].0 != i {
      if k < |d.patches| {
        WhilePatch(ch, cond, b, out, top, c2, list, c3, c4, c6, d, k);
        assert f.patches[k] == d.patches[k];
      }
    }
    assert Untouched(f, i);
    assert f.tape[i] == c6.tape[i] == PatchedAt(EmitJump(c4, top).tape, list, None, i);
  }

  lemma {:induction false} PlacesWhile(w: Code, f: Chunk, ch: Chunk, cond: Expr, b: Block, brk: Option<nat>)
    requires Room(ch) && Neat(ch) && StmtOk(While(cond, b), ch.nactvar) && BreakOk(ch, brk) && Finished(w, f)
    requires w.n == ch.nactvar
    requires var r := CompileStmt(ch, While(cond, b), brk); r.Ok? && !r.value.orphans && Fixed(ch, r.value, f)
    ensures PlacedStmt(w, While(cond, b), |ch.tape|, |CompileStmt(ch, While(cond, b), brk).value.tape|, Target(f, brk))
    decreases While(cond, b), 0
  {
    var d := CompileStmt(ch, While(cond, b), brk).value;
    var out, top, c2, list, c3, c4, c6 := WhileUnfolds(ch, cond, b, brk);
    WhileFixes(ch, cond, b, out, top, c2, list, c3, c4, c6, d, f);
    var mid, back := |c3.tape|, |c4.tape|;
    assert CondAt(w, cond, |ch.tape|, mid, |d.tape|) by {
      forall i | |c2.tape| <= i < mid ensures w.tape[i] == PatchedAt(c3.tape, list, Some(|d.tape|), i) {
        WhileListAimed(w, f, ch, cond, b, out, top, c2, list, c3, c4, c6, d, i);
      }
      CondPlaced(w, c2, cond, |d.tape|);
    }
    assert PlacedBlock(w, b, mid, back, Some(|d.tape|)) by { PlacesBlock(w, f, c3, b, Some(out)); }
    assert JumpAt(w, back, |ch.tape|) by { JumpPlaced(w, c4, top, f); }
  }
}
