/** What goes wrong when label numbers run out: a loop whose jump back goes to itself. */
module LuaWrap {
  import opened Prelude
  import opened LuaVm
  import opened LuaCompile
  import opened LuaExec
  import opened LuaGo
  import opened LuaCorrect
  import opened LuaStmt
  import opened LuaLayout
  import opened LuaGrowth
  import opened LuaAssemble
  import opened LuaElision

  // ----- the program -----

  const ROUND: Stmt := Repeat(Then(Work(1), Nothing), Const(Bool(true)))

  /** `repeat work() until true`, `n` times. */
  function Rounds(n: nat): Block {
    if n == 0 then Nothing else Then(ROUND, Rounds(n - 1))
  }

  /** As many rounds as there are label numbers, or a multiple of that. */
  predicate Overflows(n: nat) {
    n > 0 && LabelNumber(n) == 0
  }

  /** `while q do ... end` around them. */
  function Loop(n: nat): Stmt {
    While(Local(0), Rounds(n))
  }

  // ----- its code -----

  lemma RoundCompiles(ch: Chunk, brk: Option<nat>)
    ensures CompileStmt(ch, ROUND, brk) == Ok(RoundAfter(ch))
  {
    var (out, c) := NewLabel(ch);
    var c1 := Emit(c, WORK(1));
    assert CompileBlock(c, Then(Work(1), Nothing), Some(out)) == Ok(c1);
    assert CompileBranch(c1, Const(Bool(true))) == Ok(([], c1.(lastTarget := Max(c1.lastTarget, |c1.tape|)))) by {
      PatchNothing(c1);
    }
    assert AimJumps(DowngradeTestsets(c1.tape, []), [], |ch.tape|) == c1.tape;
  }

  function RoundAfter(ch: Chunk): Chunk {
    var n := |ch.tape| + 1;
    ch.(tape := ch.tape + [WORK(1)], labels := (ch.labels + [0])[LabelNumber(|ch.labels|) := n],
    lastTarget := Max(Max(Max(ch.lastTarget, n), |ch.tape|), n))
  }

  /** The rounds: one instruction and one label each; the last label made is placed behind them. */
  ghost predicate RoundsOf(ch: Chunk, n: nat, c: Chunk) {
    && |c.tape| == |ch.tape| + n && ch.tape <= c.tape
    && (forall i :: |ch.tape| <= i < |c.tape| ==> c.tape[i] == WORK(1))
    && |c.labels| == |ch.labels| + n && c.labels != [] && c.labels[LabelNumber(|c.labels| - 1)] == |c.tape|
    && c == ch.(tape := c.tape, labels := c.labels, lastTarget := c.lastTarget)
  }

  lemma OneMoreRound(ch: Chunk, n: nat, d: Chunk)
    requires RoundsOf(RoundAfter(ch), n, d)
    ensures RoundsOf(ch, n + 1, d)
  {
    var c := RoundAfter(ch);
    forall i | |ch.tape| <= i < |d.tape| ensures d.tape[i] == WORK(1) {
      if i == |ch.tape| { assert d.tape[i] == c.tape[i]; }
    }
  }

  lemma RoundsUnfold(ch: Chunk, n: nat, brk: Option<nat>)
    requires n > 0
    ensures CompileBlock(ch, Rounds(n), brk) == CompileBlock(RoundAfter(ch), Rounds(n - 1), brk)
  {
    RoundCompiles(ch, brk);
  }

  lemma {:induction false} RoundsCompile(ch: Chunk, n: nat, brk: Option<nat>)
    requires n > 0
    ensures CompileBlock(ch, Rounds(n), brk).Ok? && RoundsOf(ch, n, CompileBlock(ch, Rounds(n), brk).value)
    decreases n
  {
    RoundsUnfold(ch, n, brk);
    if n > 1 {
      RoundsCompile(RoundAfter(ch), n - 1, brk);
      OneMoreRound(ch, n - 1, CompileBlock(ch, Rounds(n), brk).value);
    }
  }

  /** The test of `q` in front of the loop's body. */
  function Tested(): Chunk {
    Fresh(1).(tape := [TESTSET(NO_REG, 0, true), JMP(0)], labels := [0, 0], lastTarget := 2)
  }

  lemma TestCompiles()
    ensures WhileStart(Fresh(1)) == (0, 1, Fresh(1).(labels := [0, 0]))
    ensures CompileBranch(Fresh(1).(labels := [0, 0]), Local(0)) == Ok(([1], Tested()))
  {
    var e: seq<nat> := [];
    assert e + [0] == [0] && [0] + [0] == [0, 0] && [0, 0][1 := 0] == [0, 0];
    var c := Fresh(1).(labels := [0, 0]);
    var t: seq<Instr> := [];
    assert t + [TESTSET(NO_REG, 0, true), JMP(0)] == Tested().tape;
    assert AimJumps(DowngradeTestsets(Tested().tape, []), [], 2) == Tested().tape;
    LeftOfLocal(c, 0, [], true, Tested().tape);
    BranchCases(c, Local(0));
  }

  /** The finished chunk: the number of the loop's top has been placed anew, at the jump back itself. */
  predicate LoopCode(f: Chunk, n: nat) {
    && |f.tape| == n + 3 && f.tape[0] == TEST(0, false) && f.tape[1].JMP? && f.tape[n + 2] == JMP(0)
    && (forall i :: 2 <= i < n + 2 ==> f.tape[i] == WORK(1))
    && f.patches == [(n + 2, 1), (1, 0)] && |f.labels| == n + 2 > 2 && f.labels[0] == n + 3 && f.labels[1] == n + 2
    && f.consts == []
  }

  lemma LoopCompiles(n: nat) returns (f: Chunk)
    requires Overflows(n)
    ensures CompileStmt(Fresh(1), Loop(n), None) == Ok(f) && LoopCode(f, n)
  {
    var c4 := RoundsBehind(Tested(), n);
    NextNumber(n);
    LoopCloses(c4, n);
    var c6 := WhileEnd(c4, 1, [1], 0);
    f := Scoped(Fresh(1), c6.(labels := c6.labels[0 := |c6.tape|], lastTarget := Max(c6.lastTarget, |c6.tape|)));
    LoopSteps(n, c4, c6);
  }

  lemma NextNumber(n: nat)
    requires Overflows(n)
    ensures LabelNumber(n + 1) == 1
  {
  }

  lemma RoundsBehind(ch: Chunk, n: nat) returns (c: Chunk)
    requires n > 0 && |ch.tape| == |ch.labels| == 2
    ensures CompileBlock(ch, Rounds(n), Some(0)) == Ok(c)
    ensures |c.tape| == n + 2 && c.tape[0] == ch.tape[0] && c.tape[1] == ch.tape[1] && c.patches == ch.patches
    ensures |c.labels| == n + 2 && LabelNumber(n + 1) < n + 2 && c.labels[LabelNumber(n + 1)] == n + 2
    ensures c.consts == ch.consts
    ensures forall i :: 2 <= i < n + 2 ==> c.tape[i] == WORK(1)
  {
    RoundsCompile(ch, n, Some(0));
    c := CompileBlock(ch, Rounds(n), Some(0)).value;
    assert c.tape[..2] == ch.tape;
  }

  lemma LoopSteps(n: nat, c4: Chunk, c6: Chunk)
    requires CompileBlock(Tested(), Rounds(n), Some(0)) == Ok(c4) && c6 == WhileEnd(c4, 1, [1], 0)
    requires Controlled(EmitJump(c4, 1).tape, [1]) && |c6.labels| > 1
    ensures CompileStmt(Fresh(1), Loop(n), None) ==
      Ok(Scoped(Fresh(1), c6.(labels := c6.labels[0 := |c6.tape|], lastTarget := Max(c6.lastTarget, |c6.tape|))))
  {
    TestCompiles();
    WhileCases(Fresh(1), Local(0), Rounds(n), None);
  }

  lemma LoopCloses(c4: Chunk, n: nat)
    requires |c4.tape| == n + 2 && c4.tape[0] == TESTSET(NO_REG, 0, true) && c4.tape[1] == JMP(0) && c4.patches == []
    requires |c4.labels| == n + 2 > 2 && c4.labels[1] == n + 2
    requires forall i :: 2 <= i < n + 2 ==> c4.tape[i] == WORK(1)
    ensures Controlled(EmitJump(c4, 1).tape, [1])
    ensures var f := WhileEnd(c4, 1, [1], 0);
      && |f.tape| == n + 3 && f.tape[0] == TEST(0, false) && f.tape[1] == JMP(0) && f.tape[n + 2] == JMP(0)
      && (forall i :: 2 <= i < n + 2 ==> f.tape[i] == WORK(1))
      && f.patches == [(n + 2, 1), (1, 0)] && f.labels == c4.labels && f.consts == c4.consts
  {
    var c5 := EmitJump(c4, 1);
    assert c5.tape[0] == c4.tape[0] && c5.tape[1] == c4.tape[1] && c5.tape[n + 2] == JMP(0);
    forall i | 2 <= i < n + 2 ensures c5.tape[i] == WORK(1) {}
    assert PatchesTo([1], 0) == [(1, 0)];
    var e: seq<(nat, nat)> := [];
    assert e + [(n + 2, 1)] == [(n + 2, 1)] && [(n + 2, 1)] + [(1, 0)] == [(n + 2, 1), (1, 0)];
  }

  lemma {:induction false} RoundsOk(n: nat)
    ensures BlockOk(Rounds(n), 1)
    decreases n
  {
    if n > 0 { RoundsOk(n - 1); }
  }

  /** The assembled loop: the jump back goes to itself. */
  lemma LoopAssembled(n: nat) returns (f: Chunk, code: seq<Instr>)
    requires Overflows(n)
    ensures CompileStmt(Fresh(1), Loop(n), None) == Ok(f)
    ensures Assembled(f.tape, f.labels, f.patches) == Ok(code) && f.consts == [] && |f.labels| == n + 2
    ensures |code| == n + 3 && code[0] == TEST(0, false) && code[n + 2] == JMP(-1)
    ensures forall i :: 2 <= i < n + 2 ==> code[i] == WORK(1)
  {
    f := LoopCompiles(n);
    assert Neat(f) by {
      RoundsOk(n);
      StmtGrows(Fresh(1), Loop(n), None);
    }
    AssembledAims(f, f.tape, 0);
    assert f.patches[0..] == f.patches;
    code := Assembled(f.tape, f.labels, f.patches).value;
    assert LuaAssemble.AimedAt(f, code, 0);
    forall i | 0 <= i < n + 2 && i != 1 ensures code[i] == f.tape[i] { assert Untouched(f, i); }
  }

  // ----- its run -----

  /** Work that makes the loop's condition false. */
  ghost predicate ClearsFirst(vm: Vm) {
    forall id, r :: vm.work(id, r) == Some(r[0 := Nil])
  }

  lemma {:induction false} RoundsRun(vm: Vm, n: nat, fuel: nat, regs: Regs)
    requires ClearsFirst(vm) && n > 0
    ensures RunBlock(vm, Rounds(n), fuel, regs) == Done(regs[0 := Nil])
    decreases n
  {
    var r := regs[0 := Nil];
    assert RunBlock(vm, Then(Work(1), Nothing), fuel, regs) == Done(r) by {
      assert RunStmt(vm, Work(1), fuel, regs) == Done(r);
      assert RunBlock(vm, Nothing, fuel, r) == Done(r);
    }
    assert RunStmt(vm, ROUND, fuel, regs) == Done(r);
    if n > 1 {
      RoundsRun(vm, n - 1, fuel, r);
      assert r[0 := Nil] == r;
    } else {
      assert RunBlock(vm, Rounds(0), fuel, r) == Done(r);
    }
  }

  lemma {:induction false} WorkSteps(vm: Vm, code: seq<Instr>, pc: nat, n: nat, regs: Regs)
    requires ClearsFirst(vm) && pc + n <= |code| && forall i :: pc <= i < pc + n ==> code[i] == WORK(1)
    ensures Run(vm, [], code, n, pc, regs) == Next(pc + n, if n > 0 then regs[0 := Nil] else regs)
    decreases n
  {
    if n > 0 {
      WorkSteps(vm, code, pc + 1, n - 1, regs[0 := Nil]);
      assert regs[0 := Nil][0 := Nil] == regs[0 := Nil];
    }
  }

  lemma {:induction false} Spins(vm: Vm, code: seq<Instr>, pc: nat, n: nat, regs: Regs)
    requires pc < |code| && code[pc] == JMP(-1)
    ensures Run(vm, [], code, n, pc, regs) == Next(pc, regs)
    decreases n
  {
    if n > 0 { Spins(vm, code, pc, n - 1, regs); }
  }

  lemma {:induction false} RunOn(vm: Vm, code: seq<Instr>, a: nat, b: nat, pc: int, regs: Regs, mid: int, r: Regs)
    requires Run(vm, [], code, a, pc, regs) == Next(mid, r)
    ensures Run(vm, [], code, a + b, pc, regs) == Run(vm, [], code, b, mid, r)
    decreases a
  {
    if a > 0 {
      var s := Step(vm, [], code[pc], pc, regs);
      RunOn(vm, code, a - 1, b, s.pc, s.regs, mid, r);
    }
  }

  /** The source leaves the loop after one round. */
  lemma LoopEnds(vm: Vm, n: nat, regs: Regs)
    requires n > 0 && ClearsFirst(vm) && Truthy(Get(regs, 0))
    ensures RunStmt(vm, Loop(n), 1, regs) == Done(regs[0 := Nil])
  {
    RoundsRun(vm, n, 1, regs);
    assert RunStmt(vm, Loop(n), 0, regs[0 := Nil]) == Done(regs[0 := Nil]);
  }

  /** The machine comes to the jump back and stays there. */
  lemma LoopSpins(vm: Vm, code: seq<Instr>, n: nat, more: nat, regs: Regs)
    requires n > 0 && |code| == n + 3 && code[0] == TEST(0, false) && code[n + 2] == JMP(-1)
    requires forall i :: 2 <= i < n + 2 ==> code[i] == WORK(1)
    requires ClearsFirst(vm) && Truthy(Get(regs, 0))
    ensures Run(vm, [], code, 1 + n + more, 0, regs) == Next(n + 2, regs[0 := Nil])
  {
    var r := regs[0 := Nil];
    assert Run(vm, [], code, 1, 0, regs) == Next(2, regs) by { assert Step(vm, [], code[0], 0, regs) == Next(2, regs); }
    WorkSteps(vm, code, 2, n, regs);
    RunOn(vm, code, 1, n, 0, regs, 2, regs);
    Spins(vm, code, n + 2, more, r);
    RunOn(vm, code, 1 + n, more, 0, regs, n + 2, r);
  }

  /**
   * With more labels than numbers a program goes wrong: where the source leaves the loop after
   * one round, the machine stays at the jump back for ever.
   */
  lemma LabelsRunOut(vm: Vm, regs: Regs, n: nat, more: nat) returns (f: Chunk, code: seq<Instr>)
    requires Overflows(n) && ClearsFirst(vm) && Truthy(Get(regs, 0))
    ensures RunStmt(vm, Loop(n), 1, regs) == Done(regs[0 := Nil])
    ensures CompileStmt(Fresh(1), Loop(n), None) == Ok(f) && Assembled(f.tape, f.labels, f.patches) == Ok(code)
    ensures |f.labels| == n + 2 && |code| == n + 3
    ensures Run(vm, f.consts, code, 1 + n + more, 0, regs) == Next(n + 2, regs[0 := Nil])
  {
    LoopEnds(vm, n, regs);
    f, code := LoopAssembled(n);
    LoopSpins(vm, code, n, more, regs);
  }
}
