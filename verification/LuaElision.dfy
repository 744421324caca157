/**
 * What goes wrong when an elided pair was the target of an earlier jump: an expression, a
 * condition and an empty arm whose code runs astray.
 */
module LuaElision {
  import opened Prelude
  import opened LuaVm
  import opened LuaCompile
  import opened LuaExec
  import opened LuaDesc
  import opened LuaGo
  import opened LuaLogic
  import opened LuaCorrect
  import opened LuaSteady
  import opened LuaStmt
  import opened Sh = LuaShape

  function Fresh(n: nat): Chunk {
    Chunk([], [], n, n, n, [], [], 0, false)
  }

  /** A local as left operand: a test and its jump, and earlier stay jumps aimed behind them. */
  lemma LeftOfLocal(ch: Chunk, r: nat, stay: seq<nat>, want: bool, tape: seq<Instr>)
    requires r < ch.nactvar && |ch.tape| + 1 !in stay
    requires var t := ch.tape + [TESTSET(NO_REG, r, want), JMP(0)];
      Controlled(t, stay) && AreJumps(t, stay) && tape == AimJumps(DowngradeTestsets(t, stay), stay, |t|)
    ensures var n := |ch.tape|;
      Left(ch, if want then Desc(InReg(r), stay, []) else Desc(InReg(r), [], stay), want) ==
      Ok((if want then Desc(InReg(r), stay, [n + 1]) else Desc(InReg(r), [n + 1], stay),
          ch.(tape := tape, lastTarget := Max(ch.lastTarget, n + 2))))
  {
    var t := ch.tape + [TESTSET(NO_REG, r, want), JMP(0)];
    var c := ch.(tape := t);
    var d := if want then Desc(InReg(r), stay, []) else Desc(InReg(r), [], stay);
    var d1 := if want then Desc(InReg(r), stay, [|ch.tape| + 1]) else Desc(InReg(r), [|ch.tape| + 1], stay);
    assert Emit(Emit(ch, TESTSET(NO_REG, r, want)), JMP(0)) == c;
    assert [] + [|ch.tape| + 1] == [|ch.tape| + 1];
    assert FreeReg(ch, r) == Ok(ch);
    assert GoIf(ch, d, want) == Ok((d1, c));
    PositionFinds(stay, |t| - 1);
    PatchToHereStep(c, stay);
    assert PatchToHere(c, stay) == PatchTo(c, stay, |t|);
  }

  /** One short-circuit operator, from what its parts compile to. */
  lemma LogicStep(ch: Chunk, want: bool, x: Expr, y: Expr, d: Desc, c: Chunk, d1: Desc, c1: Chunk, d2: Desc, c2: Chunk)
    requires CompileExpr(ch, x) == Ok((d, c)) && Left(c, d, want) == Ok((d1, c1)) && CompileExpr(c1, y) == Ok((d2, c2))
    ensures CompileExpr(ch, Logic(want, x, y)) == Ok((Joined(d2, want, Leave(d1, want)), c2))
  {
    LogicCases(ch, want, x, y);
  }

  function OnList(kind: Kind, j: nat, want: bool): Desc {
    if want then Desc(kind, [j], []) else Desc(kind, [], [j])
  }

  /** A chunk without code, with at least two locals. */
  predicate Empty(ch: Chunk) {
    ch.tape == [] && ch.nactvar >= 2 && ch.lastTarget == 0
  }

  /** `q or p`, or `q and p`, compiled to its pending test of `q`. */
  function PairCode(ch: Chunk, want: bool): Chunk {
    ch.(tape := [TESTSET(NO_REG, 0, want), JMP(0)], lastTarget := 2)
  }

  /** The same, once `p` too has become a jump and the jump of `q` is aimed behind it. */
  function PairTested(ch: Chunk, want: bool): Chunk {
    ch.(tape := [TEST(0, !want), JMP(2), TESTSET(NO_REG, 1, !want), JMP(0)], lastTarget := 4)
  }

  /** The second pair is gone, but the first jump still targets its end. */
  function PairElided(ch: Chunk, want: bool): Chunk {
    ch.(tape := [TEST(0, !want), JMP(2)], lastTarget := 4, orphans := true)
  }

  lemma PairCompiles(ch: Chunk, want: bool)
    requires Empty(ch)
    ensures CompileExpr(ch, Logic(want, Local(0), Local(1))) == Ok((OnList(InReg(1), 1, !want), PairCode(ch, want)))
  {
    var t := [TESTSET(NO_REG, 0, want), JMP(0)];
    assert AimJumps(DowngradeTestsets(t, []), [], 2) == t;
    LeftOfLocal(ch, 0, [], want, t);
    LogicStep(ch, want, Local(0), Local(1), Desc(InReg(0), [], []), ch, OnList(InReg(0), 1, !want), PairCode(ch, want),
      Desc(InReg(1), [], []), PairCode(ch, want));
  }

  lemma PairLeft(ch: Chunk, want: bool)
    requires Empty(ch)
    ensures Left(PairCode(ch, want), OnList(InReg(1), 1, !want), !want) ==
      Ok((if want then Desc(InReg(1), [3], [1]) else Desc(InReg(1), [1], [3]), PairTested(ch, want)))
  {
    var t := PairCode(ch, want).tape + [TESTSET(NO_REG, 1, !want), JMP(0)];
    assert t == [TESTSET(NO_REG, 0, want), JMP(0), TESTSET(NO_REG, 1, !want), JMP(0)];
    assert AimJumps(DowngradeTestsets(t, [1]), [1], 4) == PairTested(ch, want).tape;
    LeftOfLocal(PairCode(ch, want), 1, [1], !want, PairTested(ch, want).tape);
  }

  /** Patching the jump of `p` to here elides its pair. */
  lemma PairPatched(ch: Chunk, want: bool)
    ensures PatchToHere(PairTested(ch, want), [3]) == Ok(PairElided(ch, want))
  {
    var c := PairTested(ch, want);
    assert !NothingPast(c, 2) by { assert c.tape[1] == JMP(2); }
    PatchToHereStep(c, [3]);
    assert ElidedList(c, [3]) == [];
    assert c.tape[..2] == PairElided(ch, want).tape;
    PatchNothing(ElidedChunk(c));
  }

  /** With a literal on the right, the pair of `p` is elided by the next operator. */
  lemma PairElides(ch: Chunk, want: bool, v: Value)
    requires Empty(ch) && Truthy(v) == want
    ensures CompileExpr(ch, Logic(!want, Logic(want, Local(0), Local(1)), Const(v))) ==
      Ok((OnList(Literal(v), 3, want), PairTested(ch, want)))
    ensures Left(PairTested(ch, want), OnList(Literal(v), 3, want), want) ==
      Ok((OnList(Literal(v), 3, want), PairElided(ch, want)))
  {
    PairCompiles(ch, want);
    PairLeft(ch, want);
    LogicStep(ch, !want, Logic(want, Local(0), Local(1)), Const(v), OnList(InReg(1), 1, !want), PairCode(ch, want),
      if want then Desc(InReg(1), [3], [1]) else Desc(InReg(1), [1], [3]), PairTested(ch, want),
      Desc(Literal(v), [], []), PairTested(ch, want));
    PairPatched(ch, want);
  }

  /** `((q or p) and nil) or (not x)`, with `q`, `p` and `x` the first three locals. */
  const ELIDED: Expr := Or(And(Or(Local(0), Local(1)), Const(Nil)), Not(Local(2)))

  function ElidedCode(): Chunk {
    Fresh(3).(tape := [TEST(0, true), JMP(2), NOT(3, 2)], freereg := 4, maxStack := 4, lastTarget := 4, orphans := true)
  }

  lemma ElidedCompiles()
    ensures Orphaning(ELIDED) && Room(Fresh(3)) && WellScoped(ELIDED, 3)
    ensures CompileToReg(Fresh(3), ELIDED) == Ok((3, ElidedCode()))
  {
    ElidedOrphans();
    ElidedExpr();
  }

  lemma ElidedExpr()
    ensures CompileExpr(Fresh(3), ELIDED) == Ok((Desc(InReg(3), [], []), ElidedCode()))
  {
    var left, pair := And(Or(Local(0), Local(1)), Const(Nil)), PairElided(Fresh(3), false);
    var d := OnList(Literal(Nil), 3, false);
    assert CompileExpr(Fresh(3), left) == Ok((d, PairTested(Fresh(3), false)))
      && Left(PairTested(Fresh(3), false), d, false) == Ok((d, pair)) by { PairElides(Fresh(3), false, Nil); }
    assert CompileExpr(pair, Not(Local(2))) == Ok((Desc(InReg(3), [], []), ElidedCode())) by { ElidedRight(pair); }
    LogicStep(Fresh(3), false, left, Not(Local(2)), d, PairTested(Fresh(3), false), d, pair, Desc(InReg(3), [], []),
      ElidedCode());
  }

  lemma ElidedOrphans()
    ensures Orphaning(ELIDED) && Room(Fresh(3)) && WellScoped(ELIDED, 3)
  {
    PairShape(false);
    var x := LeftOf(EndShape(Or(Local(0), Local(1))), true);
    assert EndShape(And(Or(Local(0), Local(1)), Const(Nil))).tail == [] + x.tail == [Pair(false, true)];
  }

  lemma ElidedRight(c: Chunk)
    requires c == Fresh(3).(tape := [TEST(0, true), JMP(2)], lastTarget := 4, orphans := true)
    ensures CompileExpr(c, Not(Local(2))) == Ok((Desc(InReg(3), [], []), ElidedCode()))
  {
    assert DowngradeTestsets(ElidedCode().tape, []) == ElidedCode().tape;
    assert c.tape + [NOT(3, 2)] == ElidedCode().tape;
  }

  /** With `q` truthy its run leaves the code after two steps, one instruction past its end. */
  lemma ElisionMiscompiles(vm: Vm, regs: Regs)
    requires Truthy(Get(regs, 0))
    ensures CompileToReg(Fresh(3), ELIDED).Ok?
    ensures var c := CompileToReg(Fresh(3), ELIDED).value.1;
      |c.tape| == 3 && Run(vm, c.consts, c.tape, 2, 0, regs) == Next(4, regs)
  {
    ElidedCompiles();
    TwoStepsOut(vm, [], ElidedCode().tape, regs);
  }

  lemma TwoStepsOut(vm: Vm, k: seq<Value>, tape: seq<Instr>, regs: Regs)
    requires |tape| >= 2 && tape[0].TEST? && tape[1] == JMP(2) && Truthy(Get(regs, tape[0].src)) == tape[0].inverted
    ensures Run(vm, k, tape, 2, 0, regs) == Next(4, regs)
  {
    assert Step(vm, k, tape[0], 0, regs) == Next(1, regs);
    assert Step(vm, k, tape[1], 1, regs) == Next(4, regs);
    assert Run(vm, k, tape, 1, 1, regs) == Run(vm, k, tape, 0, 4, regs);
  }

  /** `(q and p) or true` as a condition: in order as a value, but not as a condition. */
  const ELIDED_CONDITION: Expr := Or(And(Local(0), Local(1)), Const(Bool(true)))

  lemma ElidedBranchCompiles()
    ensures !Orphaning(ELIDED_CONDITION) && BranchOrphaning(ELIDED_CONDITION)
    ensures CompileBranch(Fresh(2), ELIDED_CONDITION) == Ok(([], PairElided(Fresh(2), true)))
  {
    ConditionOrphans();
    var d := OnList(Literal(Bool(true)), 3, true);
    assert CompileExpr(Fresh(2), ELIDED_CONDITION) == Ok((d, PairTested(Fresh(2), true)))
      && Left(PairTested(Fresh(2), true), d, true) == Ok((d, PairElided(Fresh(2), true))) by {
      PairElides(Fresh(2), true, Bool(true));
    }
    BranchCases(Fresh(2), ELIDED_CONDITION);
  }

  lemma ConditionOrphans()
    ensures NoConstOnTheLeft(ELIDED_CONDITION) && !Orphaning(ELIDED_CONDITION) && BranchOrphaning(ELIDED_CONDITION)
  {
    PairShape(true);
  }

  /** Two locals: the pair of the second is aimed past by the jump of the first, in a left operand or condition. */
  lemma PairShape(want: bool)
    ensures var s := EndShape(Logic(want, Local(0), Local(1)));
      s == Shape(OnRegister, [Pair(!want, false)], true, false, false)
      && LeftOf(s, !want) == Shape(OnRegister, [Pair(want, true)], false, false, false)
  {
    var x := Shape(OnRegister, [], true, false, false);
    assert [Pair(!want, false)] + [] == [Pair(!want, false)];
    assert LeftOf(x, want) == Shape(OnRegister, [Pair(!want, false)], true, false, false);
    var s := EndShape(Logic(want, Local(0), Local(1)));
    assert s.tail == [] + [Pair(!want, false)] == [Pair(!want, false)];
    var t := Tested(s, !want);
    assert t.tail == [Pair(want, false), Pair(!want, false)];
    assert Remaining(t.tail, !want) == t.tail;
    assert HasPair(t.tail, !want) by { assert t.tail[1..][0].inTl == !want; }
    assert KeptPairs(t.tail[1..], !want, true) == [];
    assert KeptPairs(t.tail, !want, true) == [Pair(want, true)];
    assert t.tail[1..] == [Pair(!want, false)];
    assert !HasPair(t.tail[1..], want);
  }

  /** The condition is always true, yet with `q` falsy its run skips the first two instructions of the body. */
  lemma BranchElisionMiscompiles(vm: Vm, regs: Regs)
    requires !Truthy(Get(regs, 0))
    ensures Eval(vm, ELIDED_CONDITION, regs) == Some(Bool(true)) && CompileBranch(Fresh(2), ELIDED_CONDITION).Ok?
    ensures var (list, c) := CompileBranch(Fresh(2), ELIDED_CONDITION).value;
      list == [] && |c.tape| == 2 && Run(vm, c.consts, c.tape, 2, 0, regs) == Next(4, regs)
  {
    assert CompileBranch(Fresh(2), ELIDED_CONDITION) == Ok(([], PairElided(Fresh(2), true))) by {
      ElidedBranchCompiles();
    }
    assert Eval(vm, And(Local(0), Local(1)), regs) == Some(Get(regs, 0));
    TwoStepsOut(vm, [], PairElided(Fresh(2), true).tape, regs);
  }

  /** `if q or p then end`: the condition is in order, but its only arm is empty. */
  const EMPTY_ARM: Stmt := If(Arm(Or(Local(0), Local(1)), Nothing, Fi))

  lemma PairBranch(ch: Chunk)
    requires Empty(ch)
    ensures CompileBranch(ch, Or(Local(0), Local(1))) == Ok(([3], PairTested(ch, false)))
  {
    PairCompiles(ch, false);
    PairLeft(ch, false);
    BranchCases(ch, Or(Local(0), Local(1)));
  }

  lemma EmptyArmElides(ch: Chunk, end: nat)
    requires Empty(ch)
    ensures CompileArms(ch, EMPTY_ARM.arms, end, None) == Ok(PairElided(ch, false))
  {
    PairBranch(ch);
    var c := PairTested(ch, false);
    assert CompileScope(c, Nothing, None) == Ok(c) by { assert Scoped(c, c) == c; }
    PairPatched(ch, false);
  }

  lemma EmptyArmCompiles()
    ensures StmtOk(EMPTY_ARM, 2) && !BranchOrphaning(EMPTY_ARM.arms.cond) && StmtOrphaning(EMPTY_ARM)
    ensures CompileStmt(Fresh(2), EMPTY_ARM, None) ==
      Ok(Fresh(2).(tape := [TEST(0, true), JMP(2)], labels := [2], lastTarget := 4, orphans := true))
  {
    EmptyArmOrphans();
    var ch := Fresh(2).(labels := [0]);
    assert Fresh(2).labels + [0] == [0];
    assert NewLabel(Fresh(2)) == (0, ch);
    EmptyArmElides(ch, 0);
    assert [0][0 := 2] == [2];
  }

  lemma EmptyArmOrphans()
    ensures StmtOk(EMPTY_ARM, 2) && !BranchOrphaning(EMPTY_ARM.arms.cond) && StmtOrphaning(EMPTY_ARM)
  {
    PairShape(false);
    assert TakesAimed([Pair(false, true)], false);
  }

  /** With `q` truthy its run leaves the code after two steps, two instructions past its end. */
  lemma EmptyArmMiscompiles(vm: Vm, regs: Regs)
    requires Truthy(Get(regs, 0))
    ensures CompileStmt(Fresh(2), EMPTY_ARM, None).Ok?
    ensures var c := CompileStmt(Fresh(2), EMPTY_ARM, None).value;
      |c.tape| == 2 && Run(vm, c.consts, c.tape, 2, 0, regs) == Next(4, regs)
  {
    EmptyArmCompiles();
    TwoStepsOut(vm, [], [TEST(0, true), JMP(2)], regs);
  }

  // ----- a jump left astray that no run takes -----

  /** `(((nil and q) or p) and nil) or z`: the jump of `q` is left astray, but `nil` keeps every run from it. */
  const GUARDED: Expr := And(Const(Nil), Local(0))
  const HARMLESS: Expr := Or(And(Or(GUARDED, Local(1)), Const(Nil)), Local(2))

  function Nilled(tape: seq<Instr>, target: nat, orphans: bool): Chunk {
    Fresh(3).(tape := [LOAD(3, 0)] + tape, consts := [Nil], maxStack := 4, lastTarget := target, orphans := orphans)
  }

  lemma NilTested()
    ensures Left(Fresh(3), Desc(Literal(Nil), [], []), true) ==
      Ok((Desc(InReg(3), [], [2]), Nilled([TESTSET(NO_REG, 3, true), JMP(0)], 3, false)))
  {
    var c := Nilled([], 0, false);
    var e: seq<Instr> := [];
    assert e + [LOAD(3, 0)] == [LOAD(3, 0)] == c.tape;
    var k: seq<Value> := [];
    assert k + [Nil] == [Nil];
    assert AllocConstant(Fresh(3), Nil) == Ok((0, Fresh(3).(consts := [Nil])));
    assert LoadLiteral(Fresh(3), Desc(Literal(Nil), [], [])) == Ok((Desc(InReg(3), [], []), c.(freereg := 4)));
    var d := Nilled([TESTSET(NO_REG, 3, true), JMP(0)], 0, false);
    assert Emit(Emit(c, TESTSET(NO_REG, 3, true)), JMP(0)) == d;
    assert [] + [2] == [2];
    assert GoIf(Fresh(3), Desc(Literal(Nil), [], []), true) == Ok((Desc(InReg(3), [], [2]), d));
    PatchNothing(d);
  }

  lemma GuardedCompiles()
    ensures CompileExpr(Fresh(3), GUARDED) ==
      Ok((Desc(InReg(0), [], [2]), Nilled([TESTSET(NO_REG, 3, true), JMP(0)], 3, false)))
  {
    NilTested();
    LogicStep(Fresh(3), true, Const(Nil), Local(0), Desc(Literal(Nil), [], []), Fresh(3),
      Desc(InReg(3), [], [2]), Nilled([TESTSET(NO_REG, 3, true), JMP(0)], 3, false),
      Desc(InReg(0), [], []), Nilled([TESTSET(NO_REG, 3, true), JMP(0)], 3, false));
    assert [] + [2] == [2];
  }

  lemma OrPatched(t: seq<Instr>)
    requires t == [LOAD(3, 0), TESTSET(NO_REG, 3, true), JMP(0), TESTSET(NO_REG, 0, false), JMP(0)]
    ensures Controlled(t, [2]) && AreJumps(t, [2])
    ensures AimJumps(DowngradeTestsets(t, [2]), [2], 5) ==
      [LOAD(3, 0)] + [TEST(3, false), JMP(2), TESTSET(NO_REG, 0, false), JMP(0)]
  {
  }

  /** A local tested behind code whose stay list is `stay`. */
  lemma OrCompiles()
    ensures CompileExpr(Fresh(3), Or(GUARDED, Local(1))) ==
      Ok((Desc(InReg(1), [4], []), Nilled([TEST(3, false), JMP(2), TESTSET(NO_REG, 0, false), JMP(0)], 5, false)))
  {
    GuardedCompiles();
    var c := Nilled([TESTSET(NO_REG, 3, true), JMP(0)], 3, false);
    var t := c.tape + [TESTSET(NO_REG, 0, false), JMP(0)];
    var r := [LOAD(3, 0)] + [TEST(3, false), JMP(2), TESTSET(NO_REG, 0, false), JMP(0)];
    OrPatched(t);
    LeftOfLocal(c, 0, [2], false, r);
    var c2 := Nilled([TEST(3, false), JMP(2), TESTSET(NO_REG, 0, false), JMP(0)], 5, false);
    LogicStep(Fresh(3), false, GUARDED, Local(1), Desc(InReg(0), [], [2]), c, Desc(InReg(0), [4], [2]), c2,
      Desc(InReg(1), [], []), c2);
    assert [] + [4] == [4];
  }

  lemma AndCompiles()
    ensures CompileExpr(Fresh(3), And(Or(GUARDED, Local(1)), Const(Nil))) ==
      Ok((Desc(Literal(Nil), [], [6]),
          Nilled([TEST(3, false), JMP(2), TEST(0, true), JMP(2), TESTSET(NO_REG, 1, true), JMP(0)], 7, false)))
  {
    var c := Nilled([TEST(3, false), JMP(2), TESTSET(NO_REG, 0, false), JMP(0)], 5, false);
    var c2 := Nilled([TEST(3, false), JMP(2), TEST(0, true), JMP(2), TESTSET(NO_REG, 1, true), JMP(0)], 7, false);
    AimedPairs();
    LeftOfLocal(c, 1, [4], true, c2.tape);
    OrCompiles();
    LogicStep(Fresh(3), true, Or(GUARDED, Local(1)), Const(Nil), Desc(InReg(1), [4], []), c, Desc(InReg(1), [4], [6]),
      c2, Desc(Literal(Nil), [], []), c2);
    assert [] + [6] == [6];
  }

  lemma AimedPairs()
    ensures var t := [LOAD(3, 0)] + [TEST(3, false), JMP(2), TESTSET(NO_REG, 0, false), JMP(0)] +
      [TESTSET(NO_REG, 1, true), JMP(0)];
      && Controlled(t, [4]) && AreJumps(t, [4])
      && AimJumps(DowngradeTestsets(t, [4]), [4], 7) ==
         [LOAD(3, 0)] + [TEST(3, false), JMP(2), TEST(0, true), JMP(2), TESTSET(NO_REG, 1, true), JMP(0)]
  {
    var t := [LOAD(3, 0), TEST(3, false), JMP(2), TESTSET(NO_REG, 0, false), JMP(0), TESTSET(NO_REG, 1, true), JMP(0)];
    assert [LOAD(3, 0)] + [TEST(3, false), JMP(2), TESTSET(NO_REG, 0, false), JMP(0)] +
      [TESTSET(NO_REG, 1, true), JMP(0)] == t;
  }

  lemma HarmlessCompiles()
    ensures CompileToReg(Fresh(3), HARMLESS) ==
      Ok((2, Nilled([TEST(3, false), JMP(2), TEST(0, true), JMP(2)], 7, true)))
  {
    AndCompiles();
    var c := Nilled([TEST(3, false), JMP(2), TEST(0, true), JMP(2), TESTSET(NO_REG, 1, true), JMP(0)], 7, false);
    var c2 := Nilled([TEST(3, false), JMP(2), TEST(0, true), JMP(2)], 7, true);
    assert PatchToHere(c, [6]) == Ok(c2) by {
      assert c.tape[4] == JMP(2) && !NothingPast(c, 5);
      PatchToHereStep(c, [6]);
      assert ElidedList(c, [6]) == [];
      assert c.tape[..5] == c2.tape;
      PatchNothing(ElidedChunk(c));
    }
    var d := Desc(Literal(Nil), [], [6]);
    assert Left(c, d, false) == Ok((d, c2));
    LogicStep(Fresh(3), false, And(Or(GUARDED, Local(1)), Const(Nil)), Local(2), d, c, d, c2, Desc(InReg(2), [], []),
      c2);
  }

  /**
   * The flag is exact, but not every jump left astray is ever taken: this expression over
   * distinct locals sets it, and its code is right from all registers.
   */
  lemma HarmlessRuns(vm: Vm, regs: Regs)
    ensures CompileToReg(Fresh(3), HARMLESS).Ok?
    ensures var (r, c) := CompileToReg(Fresh(3), HARMLESS).value;
      && c.orphans && |c.tape| == 5
      && var q := regs[3 := Nil];
      Run(vm, c.consts, c.tape, 3, 0, regs) == Next(5, q) && Eval(vm, HARMLESS, regs) == Some(Get(q, r))
        && Kept(regs, q, 3)
  {
    HarmlessCompiles();
    var (r, c) := CompileToReg(Fresh(3), HARMLESS).value;
    var q := regs[3 := Nil];
    assert Step(vm, c.consts, c.tape[0], 0, regs) == Next(1, q);
    assert Step(vm, c.consts, c.tape[1], 1, q) == Next(2, q);
    assert Step(vm, c.consts, c.tape[2], 2, q) == Next(5, q);
    assert Run(vm, c.consts, c.tape, 1, 2, q) == Run(vm, c.consts, c.tape, 0, 5, q) == Next(5, q);
    assert Run(vm, c.consts, c.tape, 2, 1, q) == Run(vm, c.consts, c.tape, 1, 2, q);
    HarmlessValue(vm, regs);
  }

  lemma HarmlessValue(vm: Vm, regs: Regs)
    ensures Eval(vm, HARMLESS, regs) == Some(Get(regs, 2))
  {
    assert Eval(vm, GUARDED, regs) == Some(Nil);
    assert Eval(vm, Or(GUARDED, Local(1)), regs) == Some(Get(regs, 1));
    var v := Eval(vm, And(Or(GUARDED, Local(1)), Const(Nil)), regs);
    assert Eval(vm, Const(Nil), regs) == Some(Nil);
    assert v == Some(if Truthy(Get(regs, 1)) then Nil else Get(regs, 1));
  }
}
