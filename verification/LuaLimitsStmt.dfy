/** When the compilation of a program succeeds. */
module LuaLimitsStmt {
  import opened Prelude
  import opened LuaVm
  import opened LuaCompile
  import opened LuaGo
  import opened LuaLogic
  import opened LuaCorrect
  import opened LuaStmt
  import opened LuaLayout
  import opened LuaGrowth
  import opened LuaLimits

  lemma {:induction false} PatchToHereFree(ch: Chunk, list: seq<nat>)
    ensures PatchToHere(ch, list).Ok? ==>
      PatchToHere(ch, list).value.consts == ch.consts && PatchToHere(ch, list).value.maxStack == ch.maxStack
    decreases |list|
  {
    PatchToHereStep(ch, list);
    if Elides(ch, list) {
      PositionFinds(list, |ch.tape| - 1);
      PatchToHereFree(ElidedChunk(ch), ElidedList(ch, list));
    }
  }

  /** A condition, and where it goes. */
  lemma BranchCharged(ch: Chunk, e: Expr)
    requires Room(ch) && WellScoped(e, ch.nactvar)
    ensures Charged(ch, Top(ch.freereg, LeftNeed(e, true)), LeftLoads(e, true), false, ChunkOf(CompileBranch(ch, e)))
  {
    BranchCases(ch, e);
    OperandCharged(ch, e, true);
    OperandSplits(ch, e, true);
  }

  /** The account of a statement compiled with its temporaries from the free register on. */
  ghost predicate Paid(ch: Chunk, need: nat, loads: set<Value>, out: bool, r: Result<Chunk>) {
    Charged(ch, Top(ch.freereg, need), loads, out, r)
  }

  lemma PaidThen(ch: Chunk, n1: nat, l1: set<Value>, o1: bool, r1: Result<Chunk>, n2: nat, l2: set<Value>, o2: bool,
    r2: Result<Chunk>)
    requires Paid(ch, n1, l1, o1, r1)
    requires if r1.Ok? then r1.value.freereg == ch.freereg && Paid(r1.value, n2, l2, o2, r2) else r2 == r1
    ensures Paid(ch, Max(n1, n2), l1 + l2, o1 || o2, r2)
  {
    TopMax(ch.freereg, n1, n2);
    Sequel(ch, Top(ch.freereg, n1), l1, o1, r1, Top(ch.freereg, n2), l2, o2, r2);
  }

  lemma {:induction false} StmtCharged(ch: Chunk, s: Stmt, brk: Option<nat>)
    requires Room(ch) && Neat(ch) && StmtOk(s, ch.nactvar) && BreakOk(ch, brk)
    ensures Paid(ch, StmtNeed(s), StmtLoads(s), brk.None? && StmtBreaks(s), CompileStmt(ch, s, brk))
    decreases s, 1
  {
    match s {
      case Work(id) => Free(ch, Emit(ch, WORK(id)));
      case Break => if brk.Some? { Free(ch, EmitJump(ch, brk.value)); }
      case Do(b) =>
        BlockGrows(ch, b, brk);
        BlockCharged(ch, b, brk);
      case If(arms) => IfCharged(ch, arms, brk);
      case While(cond, b) => WhileCharged(ch, cond, b, brk);
      case Repeat(b, cond) => RepeatCharged(ch, b, cond, brk);
    }
  }

  lemma {:induction false} BlockCharged(ch: Chunk, b: Block, brk: Option<nat>)
    requires Room(ch) && Neat(ch) && BlockOk(b, ch.nactvar) && BreakOk(ch, brk)
    ensures Paid(ch, BlockNeed(b), BlockLoads(b), brk.None? && BlockBreaks(b), CompileBlock(ch, b, brk))
    decreases b, 1
  {
    match b {
      case Nothing => Free(ch, ch);
      case Then(s, rest) =>
        var r := CompileStmt(ch, s, brk);
        StmtCharged(ch, s, brk);
        StmtGrows(ch, s, brk);
        if r.Ok? { BlockCharged(r.value, rest, brk); }
        PaidThen(ch, StmtNeed(s), StmtLoads(s), brk.None? && StmtBreaks(s), r, BlockNeed(rest), BlockLoads(rest),
          brk.None? && BlockBreaks(rest), CompileBlock(ch, b, brk));
    }
  }

  lemma IfSplits(ch: Chunk, arms: Arms, brk: Option<nat>)
    requires Room(ch) && Neat(ch) && ArmsOk(arms, ch.nactvar) && BreakOk(ch, brk)
    ensures var (end, c) := NewLabel(ch);
      var x, r := CompileArms(c, arms, end, brk), CompileStmt(ch, If(arms), brk);
      if x.Err? then r == x else r.Ok? && r.value.consts == x.value.consts && r.value.maxStack == x.value.maxStack
  {
    LabelGrows(ch);
    var (end, c) := NewLabel(ch);
    assert CompileArms(c, arms, end, brk).Ok? ==> end < |CompileArms(c, arms, end, brk).value.labels| by {
      ArmsGrow(c, arms, end, brk);
    }
  }

  lemma {:induction false} IfCharged(ch: Chunk, arms: Arms, brk: Option<nat>)
    requires Room(ch) && Neat(ch) && ArmsOk(arms, ch.nactvar) && BreakOk(ch, brk)
    ensures Paid(ch, ArmsNeed(arms), ArmsLoads(arms), brk.None? && ArmsBreak(arms), CompileStmt(ch, If(arms), brk))
    decreases arms, 2
  {
    var (end, c) := NewLabel(ch);
    IfSplits(ch, arms, brk);
    LabelGrows(ch);
    ArmsCharged(c, arms, end, brk);
  }

  /** The body of an arm, and the place the jumps of its condition go. */
  function ArmBody(c1: Chunk, list: seq<nat>, b: Block, rest: Arms, end: nat, brk: Option<nat>): Result<Chunk> {
    var c2 :- CompileScope(c1, b, brk);
    PatchToHere(ArmEnd(c2, rest, end), list)
  }

  lemma ArmSplits(ch: Chunk, cond: Expr, b: Block, rest: Arms, end: nat, brk: Option<nat>)
    ensures var x, r := CompileBranch(ch, cond), CompileArms(ch, Arm(cond, b, rest), end, brk);
      if x.Err? then r == Err(x.fail)
      else var a := ArmBody(x.value.1, x.value.0, b, rest, end, brk);
        r == if a.Err? then a else CompileArms(a.value, rest, end, brk)
  {
  }

  lemma ArmBodyGrows(ch: Chunk, list: seq<nat>, c1: Chunk, b: Block, rest: Arms, end: nat, brk: Option<nat>)
    requires Room(ch) && Neat(ch) && Branched(ch, list, c1) && BlockOk(b, ch.nactvar) && BreakOk(ch, brk)
    requires end < |ch.labels|
    ensures var r := ArmBody(c1, list, b, rest, end, brk); r.Ok? ==> Grown(ch, r.value) && Neat(r.value)
    ensures var x := CompileBlock(c1, b, brk);
      CompileScope(c1, b, brk) == x && (x.Ok? ==> PatchToHere(ArmEnd(x.value, rest, end), list).Ok?)
  {
    BranchedNeat(ch, list, c1);
    BlockGrows(c1, b, brk);
    if CompileBlock(c1, b, brk).Ok? {
      var c2 := CompileBlock(c1, b, brk).value;
      ArmEndGrows(c1, c2, rest, end);
      ArmCloses(ch, list, c1, ArmEnd(c2, rest, end));
    }
  }

  lemma {:induction false} ArmBodyCharged(ch: Chunk, list: seq<nat>, c1: Chunk, b: Block, rest: Arms, end: nat,
    brk: Option<nat>)
    requires Room(ch) && Neat(ch) && Branched(ch, list, c1) && BlockOk(b, ch.nactvar) && BreakOk(ch, brk)
    requires end < |ch.labels|
    ensures Paid(c1, BlockNeed(b), BlockLoads(b), brk.None? && BlockBreaks(b), ArmBody(c1, list, b, rest, end, brk))
    decreases b, 2
  {
    ArmBodyGrows(ch, list, c1, b, rest, end, brk);
    BranchedNeat(ch, list, c1);
    BlockCharged(c1, b, brk);
    if CompileBlock(c1, b, brk).Ok? {
      PatchToHereFree(ArmEnd(CompileBlock(c1, b, brk).value, rest, end), list);
    }
  }

  lemma {:induction false} ArmsCharged(ch: Chunk, arms: Arms, end: nat, brk: Option<nat>)
    requires Room(ch) && Neat(ch) && ArmsOk(arms, ch.nactvar) && BreakOk(ch, brk) && end < |ch.labels|
    ensures Paid(ch, ArmsNeed(arms), ArmsLoads(arms), brk.None? && ArmsBreak(arms), CompileArms(ch, arms, end, brk))
    decreases arms, 1
  {
    match arms {
      case Fi => Free(ch, ch);
      case Else(b) =>
        BlockGrows(ch, b, brk);
        BlockCharged(ch, b, brk);
      case Arm(cond, b, rest) => ArmCharged(ch, cond, b, rest, end, brk);
    }
  }

  lemma {:induction false} ArmCharged(ch: Chunk, cond: Expr, b: Block, rest: Arms, end: nat, brk: Option<nat>)
    requires Room(ch) && Neat(ch) && ArmsOk(Arm(cond, b, rest), ch.nactvar) && BreakOk(ch, brk) && end < |ch.labels|
    ensures Paid(ch, ArmsNeed(Arm(cond, b, rest)), ArmsLoads(Arm(cond, b, rest)),
      brk.None? && ArmsBreak(Arm(cond, b, rest)), CompileArms(ch, Arm(cond, b, rest), end, brk))
    decreases Arm(cond, b, rest), 0
  {
    var x, r := CompileBranch(ch, cond), CompileArms(ch, Arm(cond, b, rest), end, brk);
    var out := brk.None?;
    BranchCharged(ch, cond);
    BranchShape(ch, cond);
    ArmSplits(ch, cond, b, rest, end, brk);
    var a := if x.Err? then Err(x.fail) else ArmBody(x.value.1, x.value.0, b, rest, end, brk);
    if x.Ok? {
      var (list, c1) := x.value;
      ArmBodyCharged(ch, list, c1, b, rest, end, brk);
      ArmBodyGrows(ch, list, c1, b, rest, end, brk);
    }
    PaidThen(ch, LeftNeed(cond, true), LeftLoads(cond, true), false, ChunkOf(x), BlockNeed(b), BlockLoads(b),
      out && BlockBreaks(b), a);
    if a.Ok? { ArmsCharged(a.value, rest, end, brk); }
    PaidThen(ch, Max(LeftNeed(cond, true), BlockNeed(b)), LeftLoads(cond, true) + BlockLoads(b),
      out && BlockBreaks(b), a, ArmsNeed(rest), ArmsLoads(rest), out && ArmsBreak(rest), r);
  }

  /** What follows the condition of a `while`. */
  function WhileRest(ch: Chunk, c3: Chunk, list: seq<nat>, b: Block, out: nat, top: nat): Result<Chunk> {
    var c4 :- CompileBlock(c3, b, Some(out));
    var c6 :- ListToLabel(EmitJump(c4, top), list, out);
    var c7 :- SetLabel(c6, out, |c6.tape|);
    Ok(Scoped(ch, c7))
  }

  lemma WhileSplits(ch: Chunk, cond: Expr, b: Block, brk: Option<nat>)
    requires Neat(ch)
    ensures var (out, top, c2) := WhileStart(ch);
      var x := CompileBranch(c2, cond);
      CompileStmt(ch, While(cond, b), brk) ==
        if x.Err? then Err(x.fail) else WhileRest(ch, x.value.1, x.value.0, b, out, top)
  {
    WhileStartGrows(ch);
  }

  lemma {:induction false} WhileRestCharged(ch: Chunk, c2: Chunk, list: seq<nat>, c3: Chunk, b: Block, out: nat,
    top: nat)
    requires Room(c2) && Neat(c2) && Branched(c2, list, c3) && BlockOk(b, c2.nactvar) && out < |c2.labels|
    requires top < |c2.labels|
    ensures Paid(c3, BlockNeed(b), BlockLoads(b), false, WhileRest(ch, c3, list, b, out, top))
    decreases b, 2
  {
    BranchedNeat(c2, list, c3);
    BlockGrows(c3, b, Some(out));
    BlockCharged(c3, b, Some(out));
    if CompileBlock(c3, b, Some(out)).Ok? {
      WhileEndGrows(c2, list, c3, CompileBlock(c3, b, Some(out)).value, top, out);
    }
  }

  lemma {:induction false} WhileCharged(ch: Chunk, cond: Expr, b: Block, brk: Option<nat>)
    requires Room(ch) && Neat(ch) && StmtOk(While(cond, b), ch.nactvar)
    ensures Paid(ch, StmtNeed(While(cond, b)), StmtLoads(While(cond, b)), false, CompileStmt(ch, While(cond, b), brk))
    decreases While(cond, b), 0
  {
    WhileStartGrows(ch);
    WhileSplits(ch, cond, b, brk);
    var (out, top, c2) := WhileStart(ch);
    var x := CompileBranch(c2, cond);
    BranchCharged(c2, cond);
    BranchShape(c2, cond);
    if x.Ok? { WhileRestCharged(ch, c2, x.value.0, x.value.1, b, out, top); }
    PaidThen(c2, LeftNeed(cond, true), LeftLoads(cond, true), false, ChunkOf(x), BlockNeed(b), BlockLoads(b), false,
      CompileStmt(ch, While(cond, b), brk));
  }

  /** What follows the body of a `repeat`. */
  function RepeatRest(ch: Chunk, c1: Chunk, cond: Expr, out: nat): Result<Chunk> {
    var (list, c2) :- CompileBranch(c1, cond);
    var c3 :- PatchTo(c2, list, |ch.tape|);
    SetLabel(Scoped(ch, c3), out, |c3.tape|)
  }

  lemma RepeatSplits(ch: Chunk, b: Block, cond: Expr, brk: Option<nat>)
    ensures var (out, c) := NewLabel(ch);
      var x := CompileBlock(c, b, Some(out));
      CompileStmt(ch, Repeat(b, cond), brk) == if x.Err? then x else RepeatRest(ch, x.value, cond, out)
  {
  }

  lemma RepeatRestCharged(ch: Chunk, c1: Chunk, cond: Expr, out: nat)
    requires Room(c1) && WellScoped(cond, c1.nactvar) && out < |c1.labels| && ch.freereg == c1.freereg
    ensures Paid(c1, LeftNeed(cond, true), LeftLoads(cond, true), false, RepeatRest(ch, c1, cond, out))
  {
    BranchCharged(c1, cond);
    BranchShape(c1, cond);
    if CompileBranch(c1, cond).Ok? {
      var (list, c2) := CompileBranch(c1, cond).value;
      GrownSame(c2);
      StillWaiting(c1, list, c2, c2.tape);
      PatchToPatches(c2, |c1.tape|, |c2.tape|, list, |ch.tape|);
    }
  }

  lemma {:induction false} RepeatCharged(ch: Chunk, b: Block, cond: Expr, brk: Option<nat>)
    requires Room(ch) && Neat(ch) && StmtOk(Repeat(b, cond), ch.nactvar)
    ensures Paid(ch, StmtNeed(Repeat(b, cond)), StmtLoads(Repeat(b, cond)), false,
      CompileStmt(ch, Repeat(b, cond), brk))
    decreases Repeat(b, cond), 0
  {
    LabelGrows(ch);
    RepeatSplits(ch, b, cond, brk);
    var (out, c) := NewLabel(ch);
    var x := CompileBlock(c, b, Some(out));
    BlockGrows(c, b, Some(out));
    BlockCharged(c, b, Some(out));
    if x.Ok? { RepeatRestCharged(ch, x.value, cond, out); }
    PaidThen(c, BlockNeed(b), BlockLoads(b), false, x, LeftNeed(cond, true), LeftLoads(cond, true), false,
      CompileStmt(ch, Repeat(b, cond), brk));
  }
}
