/** Arms whose body leaves no code: their condition is still evaluated, unless it is taken away whole. */
module LuaIdle {
  import opened Prelude
  import opened LuaVm
  import opened LuaCompile
  import opened LuaExec
  import opened LuaDesc
  import opened LuaGo
  import opened LuaCorrect
  import opened LuaStmt
  import opened LuaPlaced
  import opened LuaLayout
  import opened LuaGrowth
  import opened LuaAssemble

  /** Running what is left of the condition: it raises as the condition does, or falls out. */
  ghost predicate FallsOut(x: Exit, base: nat, v: Option<Value>, regs: Regs) {
    match x
    case Raise => v == None
    case Fall(r) => Kept(regs, r, base) && v.Some?
    case _ => false
  }

  /** Whether a jump leaves or stays makes no difference when both ways meet. */
  lemma EitherWay(tape: seq<Instr>, base: nat, list: seq<nat>, v: Option<Value>, regs: Regs, x: Exit)
    requires GoesExit(tape, base, [], list, true, v, regs, x)
    ensures GoesExit(tape, base, list, [], v.Some? && Truthy(v.value), v, regs, x)
  {
  }

  /** The condition's list brought right behind its own code. */
  lemma ClosedGoes(vm: Vm, ch: Chunk, cond: Expr, list: seq<nat>, c1: Chunk, c3: Chunk, regs: Regs)
    requires Room(ch) && Neat(ch) && WellScoped(cond, ch.nactvar) && CompileBranch(ch, cond) == Ok((list, c1))
    requires Grown(c1, c3) && Neat(c3) && |c3.tape| == |c1.tape|
    requires PatchToHere(c3, list).Ok? && !PatchToHere(c3, list).value.orphans
    ensures var c4 := PatchToHere(c3, list).value;
      FallsOut(Exec(vm, c4.consts, c4.tape, {}, |ch.tape|, |c4.tape|, regs), ch.freereg, Eval(vm, cond, regs), regs)
  {
    var start, base, v := |ch.tape|, ch.freereg, Eval(vm, cond, regs);
    BranchShape(ch, cond);
    BlankPatches(ch, list, c1, c3);
    BlankArmCloses(ch, list, c1, c3);
    BranchGoes(vm, ch, cond, regs);
    var pend := Elems([]) + Elems(list);
    assert Elems(list) + Elems([]) == pend;
    ExecLocal(vm, c1.consts, c3.consts, c1.tape, c3.tape, pend, pend, start, |c1.tape|, regs);
    EitherWay(c1.tape, base, list, v, regs, Exec(vm, c1.consts, c1.tape, pend, start, |c1.tape|, regs));
    ListsSwapped(c1.tape, start, list);
    PatchToHereGoes(vm, c3, start, base, list, [], v.Some? && Truthy(v.value), v, regs);
    assert Elems([]) + Elems([]) == {};
  }

  // ----- blocks without code -----

  /** A block that leaves no code does nothing. */
  lemma {:induction false} BlankDoes(vm: Vm, ch: Chunk, b: Block, brk: Option<nat>)
    requires Room(ch) && Neat(ch) && BlockOk(b, ch.nactvar) && BreakOk(ch, brk) && CompileBlock(ch, b, brk).Ok?
    requires !CompileBlock(ch, b, brk).value.orphans && |CompileBlock(ch, b, brk).value.tape| == |ch.tape|
    ensures Idle(vm, b)
    decreases b, 1
  {
    forall fuel: nat, regs: Regs ensures RunBlock(vm, b, fuel, regs) == Done(regs) {
      match b {
        case Nothing =>
        case Then(s, rest) =>
          StmtGrows(ch, s, brk);
          var c := CompileStmt(ch, s, brk).value;
          BlockGrows(c, rest, brk);
          BlankStmtDoes(vm, ch, s, brk, fuel, regs);
          BlankDoes(vm, c, rest, brk);
          assert RunBlock(vm, rest, fuel, regs) == Done(regs);
      }
    }
  }

  lemma {:induction false} BlankStmtDoes(vm: Vm, ch: Chunk, s: Stmt, brk: Option<nat>, fuel: nat, regs: Regs)
    requires Room(ch) && Neat(ch) && StmtOk(s, ch.nactvar) && BreakOk(ch, brk) && CompileStmt(ch, s, brk).Ok?
    requires !CompileStmt(ch, s, brk).value.orphans && |CompileStmt(ch, s, brk).value.tape| == |ch.tape|
    ensures RunStmt(vm, s, fuel, regs) == Done(regs)
    decreases s, 1
  {
    match s {
      case Work(_) =>
      case Break =>
      case Do(b) =>
        BlockGrows(ch, b, brk);
        BlankDoes(vm, ch, b, brk);
      case If(arms) =>
        LabelGrows(ch);
        var (end, c) := NewLabel(ch);
        ArmsGrow(c, arms, end, brk);
        BlankArmsDo(vm, c, arms, end, brk, fuel, regs);
      case While(cond, b) => WhileLeavesCode(ch, cond, b, brk);
      case Repeat(b, cond) => BlankRepeatDoes(vm, ch, b, cond, brk, fuel, regs);
    }
  }

  lemma WhileLeavesCode(ch: Chunk, cond: Expr, b: Block, brk: Option<nat>)
    requires Room(ch) && Neat(ch) && StmtOk(While(cond, b), ch.nactvar) && CompileStmt(ch, While(cond, b), brk).Ok?
    ensures |CompileStmt(ch, While(cond, b), brk).value.tape| > |ch.tape|
  {
    WhileCases(ch, cond, b, brk);
    WhileStartGrows(ch);
    var (out, top, c2) := WhileStart(ch);
    BranchShape(c2, cond);
    var (list, c3) := CompileBranch(c2, cond).value;
    BranchedNeat(c2, list, c3);
    BlockGrows(c3, b, Some(out));
    WhileEndGrows(c2, list, c3, CompileBlock(c3, b, Some(out)).value, top, out);
  }

  lemma {:induction false} BlankArmsDo(vm: Vm, ch: Chunk, arms: Arms, end: nat, brk: Option<nat>, fuel: nat, regs: Regs)
    requires Room(ch) && Neat(ch) && ArmsOk(arms, ch.nactvar) && BreakOk(ch, brk) && end < |ch.labels|
    requires CompileArms(ch, arms, end, brk).Ok? && !CompileArms(ch, arms, end, brk).value.orphans
    requires |CompileArms(ch, arms, end, brk).value.tape| == |ch.tape|
    ensures RunArms(vm, arms, fuel, regs) == Done(regs)
    decreases arms, 1
  {
    match arms {
      case Fi =>
      case Else(b) =>
        BlockGrows(ch, b, brk);
        BlankDoes(vm, ch, b, brk);
        assert RunBlock(vm, b, fuel, regs) == Done(regs);
      case Arm(cond, b, rest) =>
        BranchShape(ch, cond);
        var (list, c1) := CompileBranch(ch, cond).value;
        BranchedNeat(ch, list, c1);
        BlockGrows(c1, b, brk);
        var c2 := CompileBlock(c1, b, brk).value;
        ArmEndGrows(c1, c2, rest, end);
        var c3 := ArmEnd(c2, rest, end);
        ArmCloses(ch, list, c1, c3);
        var c4 := PatchToHere(c3, list).value;
        ArmsGrow(c4, rest, end, brk);
        if |c3.tape| > |c1.tape| {
          StillWaiting(ch, list, c1, c3.tape);
          PatchHerePatches(c3, |ch.tape|, |c1.tape|, list);
          assert false;
        }
        BlankArmCloses(ch, list, c1, c3);
        ClosedGoes(vm, ch, cond, list, c1, c3, regs);
        BlankDoes(vm, c1, b, brk);
        assert RunBlock(vm, b, fuel, regs) == Done(regs);
    }
  }

  lemma {:induction false} BlankRepeatDoes(vm: Vm, ch: Chunk, b: Block, cond: Expr, brk: Option<nat>, fuel: nat,
    regs: Regs)
    requires Room(ch) && Neat(ch) && StmtOk(Repeat(b, cond), ch.nactvar) && CompileStmt(ch, Repeat(b, cond), brk).Ok?
    requires !CompileStmt(ch, Repeat(b, cond), brk).value.orphans
    requires |CompileStmt(ch, Repeat(b, cond), brk).value.tape| == |ch.tape|
    ensures RunStmt(vm, Repeat(b, cond), fuel, regs) == Done(regs)
    decreases Repeat(b, cond), 0
  {
    LabelGrows(ch);
    var (out, c) := NewLabel(ch);
    BlockGrows(c, b, Some(out));
    var c1 := CompileBlock(c, b, Some(out)).value;
    BranchShape(c1, cond);
    var (list, c2) := CompileBranch(c1, cond).value;
    BranchedNeat(c1, list, c2);
    BranchGoes(vm, c1, cond, regs);
    BlankDoes(vm, c, b, Some(out));
    assert RunBlock(vm, b, fuel, regs) == Done(regs);
  }

  // ----- placement -----

  lemma {:induction false} IdleCondPassed(w: Code, c: Chunk, start: nat, cond: Expr, base: nat, regs: Regs)
    requires ListsOk(c.tape, start, |c.tape|, [], []) && c.consts <= w.k && w.n <= base
    requires |c.tape| <= |w.tape| && forall i :: start <= i < |c.tape| ==> w.tape[i] == c.tape[i]
    requires FallsOut(Exec(w.vm, c.consts, c.tape, {}, start, |c.tape|, regs), base, Eval(w.vm, cond, regs), regs)
    ensures PassesFrom(w, cond, start, |c.tape|, regs)
  {
    assert Elems([]) == {};
    forall i | start <= i < |c.tape| ensures w.tape[i] == PatchedAt(c.tape, [], Some(0), i) {}
    var m := CondRuns(w, c.consts, c.tape, start, [], 0, start, regs);
    var x := Exec(w.vm, c.consts, c.tape, {}, start, |c.tape|, regs);
    var q := if x.Fall? then x.regs else regs;
    assert Passes(w, cond, start, |c.tape|, regs, m, q);
  }
}
