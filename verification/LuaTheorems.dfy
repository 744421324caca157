/** What compilation guarantees, on the machine itself. */
module LuaTheorems {
  import opened Prelude
  import opened LuaVm
  import opened LuaCompile
  import opened LuaExec
  import opened LuaDesc
  import opened LuaCorrect
  import opened LuaGo
  import opened LuaLogic
  import opened LuaOrphans
  import opened LuaExact
  import opened LuaExactStmt
  import opened LuaLabels
  import opened LuaLimits
  import opened LuaLimitsStmt
  import opened LuaSteady
  import opened Sh = LuaShape
  import opened LuaStmt
  import opened LuaPlaced
  import opened LuaLayout
  import opened LuaGrowth
  import opened LuaAssemble
  import opened LuaProgram

  // ----- when compilation succeeds -----

  /** Registers and constants suffice for what the source needs. */
  predicate Affords(ch: Chunk, need: nat, loads: set<Value>) {
    ch.freereg + need <= 255 && !Exceeds(ch.consts, loads)
  }

  /**
   * Compilation succeeds exactly when there is room and no `break` stands outside a loop; an error
   * names what was lacking. Success adds exactly the constants of the source, each of them once,
   * and the stack reaches exactly as far as the temporaries in use at once.
   */
  ghost predicate Metered(ch: Chunk, need: nat, loads: set<Value>, out: bool, r: Result<Chunk>) {
    && (r.Ok? <==> Affords(ch, need, loads) && !out)
    && match r
       case Err(Registers) => ch.freereg + need > 255
       case Err(Constants) => Exceeds(ch.consts, loads)
       case Err(Outside) => out
       case Err(Panic) => false
       case Ok(c) =>
         && ch.consts <= c.consts && Values(c.consts) == Values(ch.consts) + loads
         && |c.consts| == |ch.consts| + |loads - Values(ch.consts)|
         && c.maxStack == if need == 0 then ch.maxStack else Max(ch.maxStack, ch.freereg + need)
  }

  lemma ValueCompiles(ch: Chunk, e: Expr)
    requires Room(ch) && WellScoped(e, ch.nactvar)
    ensures Metered(ch, RegNeed(e), RegLoads(e), false, ChunkOf(CompileToReg(ch, e)))
  {
    RegCharged(ch, e);
    RegShape(ch, e);
  }

  lemma BranchCompiles(ch: Chunk, e: Expr)
    requires Room(ch) && WellScoped(e, ch.nactvar)
    ensures Metered(ch, LeftNeed(e, true), LeftLoads(e, true), false, ChunkOf(CompileBranch(ch, e)))
  {
    BranchCharged(ch, e);
    BranchShape(ch, e);
  }

  lemma ProgramCompiles(ch: Chunk, b: Block)
    requires Room(ch) && Neat(ch) && BlockOk(b, ch.nactvar)
    ensures Metered(ch, BlockNeed(b), BlockLoads(b), BlockBreaks(b), CompileBlock(ch, b, None))
  {
    BlockCharged(ch, b, None);
    BlockGrows(ch, b, None);
  }

  // ----- expressions -----

  /** No assertion of the compiler fails, in value or branch context. */
  lemma NeverPanics(ch: Chunk, e: Expr)
    requires Room(ch) && WellScoped(e, ch.nactvar)
    ensures CompileToReg(ch, e).Err? ==> CompileToReg(ch, e).fail != Panic
    ensures CompileBranch(ch, e).Err? ==> CompileBranch(ch, e).fail != Panic
  {
    RegShape(ch, e);
    BranchShape(ch, e);
  }

  /**
   * Running the code of an expression raises exactly when the expression does; otherwise it ends
   * just behind the code with the value in the result register and every lower register as it
   * was. No placeholder destination is left in the code.
   */
  lemma ValueContext(vm: Vm, ch: Chunk, e: Expr, regs: Regs) returns (n: nat, q: Regs)
    requires Room(ch) && WellScoped(e, ch.nactvar) && CompileToReg(ch, e).Ok? && !CompileToReg(ch, e).value.1.orphans
    ensures var (r, c) := CompileToReg(ch, e).value;
      && ch.tape <= c.tape && (forall i :: |ch.tape| <= i < |c.tape| ==> !Placeholder(c.tape[i]))
      && match Eval(vm, e, regs)
         case None => Run(vm, c.consts, c.tape, n, |ch.tape|, regs) == Raised
         case Some(v) =>
           && Run(vm, c.consts, c.tape, n, |ch.tape|, regs) == Next(|c.tape|, q)
           && Get(q, r) == v && Kept(regs, q, ch.freereg)
  {
    var (r, c) := CompileToReg(ch, e).value;
    RegShape(ch, e);
    RegYields(vm, ch, e, regs);
    FollowsExtends(ch, c);
    n := ExecRuns(vm, c.consts, c.tape, |ch.tape|, |c.tape|, regs);
    var x := Exec(vm, c.consts, c.tape, {}, |ch.tape|, |c.tape|, regs);
    q := if x.Fall? then x.regs else regs;
  }

  /** Nothing points past the end of the code so far; the chunk may have lost a jump before. */
  predicate Contained(ch: Chunk) {
    Bounded(ch.tape) && Labelled(ch, |ch.tape|)
  }

  /** The flag of an expression is read off its source. */
  lemma ExprFlagIsExact(ch: Chunk, e: Expr)
    requires Room(ch) && WellScoped(e, ch.nactvar) && Contained(ch)
    ensures CompileExpr(ch, e).Ok? ==> (CompileExpr(ch, e).value.1.orphans <==> ch.orphans || Orphaning(e))
    ensures CompileToReg(ch, e).Ok? ==> (CompileToReg(ch, e).value.1.orphans <==> ch.orphans || Orphaning(e))
    ensures CompileBranch(ch, e).Ok? ==> (CompileBranch(ch, e).value.1.orphans <==> ch.orphans || BranchOrphaning(e))
  {
    ExprShape(ch, e);
    RegShape(ch, e);
    BranchShape(ch, e);
    if !ch.orphans {
      if CompileExpr(ch, e).Ok? { ExprFlag(ch, e); }
      if CompileToReg(ch, e).Ok? { RegFlag(ch, e); }
      if CompileBranch(ch, e).Ok? { BranchFlag(ch, e); }
    }
  }

  /** `ValueContext` for every expression that leaves no jump astray, a condition on the source text. */
  lemma SourceValueContext(vm: Vm, ch: Chunk, e: Expr, regs: Regs) returns (n: nat, q: Regs)
    requires Room(ch) && WellScoped(e, ch.nactvar) && Clean(ch) && !Orphaning(e) && Affords(ch, RegNeed(e), RegLoads(e))
    ensures CompileToReg(ch, e).Ok?
    ensures var (r, c) := CompileToReg(ch, e).value;
      && ch.tape <= c.tape && (forall i :: |ch.tape| <= i < |c.tape| ==> !Placeholder(c.tape[i]))
      && match Eval(vm, e, regs)
         case None => Run(vm, c.consts, c.tape, n, |ch.tape|, regs) == Raised
         case Some(v) =>
           && Run(vm, c.consts, c.tape, n, |ch.tape|, regs) == Next(|c.tape|, q)
           && Get(q, r) == v && Kept(regs, q, ch.freereg)
  {
    ValueCompiles(ch, e);
    ExprFlagIsExact(ch, e);
    n, q := ValueContext(vm, ch, e, regs);
  }

  /** In particular, when no left operand of `and` or `or` ends in a constant. */
  lemma NoConstValueContext(vm: Vm, ch: Chunk, e: Expr, regs: Regs) returns (n: nat, q: Regs)
    requires Room(ch) && WellScoped(e, ch.nactvar) && Clean(ch) && NoConstOnTheLeft(e)
    requires Affords(ch, RegNeed(e), RegLoads(e))
    ensures CompileToReg(ch, e).Ok?
    ensures var (r, c) := CompileToReg(ch, e).value;
      && ch.tape <= c.tape && (forall i :: |ch.tape| <= i < |c.tape| ==> !Placeholder(c.tape[i]))
      && match Eval(vm, e, regs)
         case None => Run(vm, c.consts, c.tape, n, |ch.tape|, regs) == Raised
         case Some(v) =>
           && Run(vm, c.consts, c.tape, n, |ch.tape|, regs) == Next(|c.tape|, q)
           && Get(q, r) == v && Kept(regs, q, ch.freereg)
  {
    NoConstIsSteady(e);
    SteadyIsSafe(e);
    n, q := SourceValueContext(vm, ch, e, regs);
  }

  /** An expression that folds leaves no code, and its literal is its value. */
  lemma {:induction false} FoldedContext(vm: Vm, ch: Chunk, e: Expr, regs: Regs)
    requires Folded(e).Some?
    ensures CompileExpr(ch, e).Ok? && Eval(vm, e, regs).Some?
    ensures var (d, c) := CompileExpr(ch, e).value;
      d == Desc(Literal(Eval(vm, e, regs).value), [], []) && c == ch.(lastTarget := c.lastTarget)
    decreases e, 0
  {
    FoldedValue(vm, e, regs);
    match e {
      case Const(_) =>
      case Paren(x) => FoldedContext(vm, ch, x, regs);
      case Not(x) => FoldedContext(vm, ch, x, regs);
      case And(x, y) =>
        FoldedContext(vm, ch, x, regs);
        FoldedValue(vm, x, regs);
        FoldedRight(vm, ch, true, x, y, regs);
      case Or(x, y) =>
        FoldedContext(vm, ch, x, regs);
        FoldedValue(vm, x, regs);
        FoldedRight(vm, ch, false, x, y, regs);
    }
  }

  lemma {:induction false} FoldedRight(vm: Vm, ch: Chunk, want: bool, x: Expr, y: Expr, regs: Regs)
    requires CompileExpr(ch, x).Ok? && Folded(y).Some?
    requires var (d, c) := CompileExpr(ch, x).value;
      d.kind.Literal? && !HasJumps(d) && Truthy(d.kind.v) == want && c == ch.(lastTarget := c.lastTarget)
    ensures CompileExpr(ch, Logic(want, x, y)).Ok?
    ensures Folded(y) == Eval(vm, y, regs)
    ensures var (d, c) := CompileExpr(ch, Logic(want, x, y)).value;
      d == Desc(Literal(Folded(y).value), [], []) && c == ch.(lastTarget := c.lastTarget)
    decreases y, 1
  {
    LogicCases(ch, want, x, y);
    var (d, c) := CompileExpr(ch, x).value;
    PatchNothing(c);
    FoldedValue(vm, y, regs);
    FoldedContext(vm, c.(lastTarget := Max(c.lastTarget, |c.tape|)), y, regs);
  }

  /** A condition that leaves no jump astray falls through iff it is true, else a jump of the list is reached. */
  lemma SourceBranchContext(vm: Vm, ch: Chunk, e: Expr, regs: Regs)
    requires Room(ch) && WellScoped(e, ch.nactvar) && Clean(ch) && !BranchOrphaning(e)
    requires Affords(ch, LeftNeed(e, true), LeftLoads(e, true))
    ensures CompileBranch(ch, e).Ok?
    ensures var (list, c) := CompileBranch(ch, e).value;
      match Exec(vm, c.consts, c.tape, Elems(list), |ch.tape|, |c.tape|, regs)
      case Raise => Eval(vm, e, regs) == None
      case Stuck => false
      case Fall(q) => Eval(vm, e, regs).Some? && Truthy(Eval(vm, e, regs).value) && Kept(regs, q, ch.freereg)
      case AtJump(j, q) =>
        j in list && j < |c.tape| && c.tape[j].JMP? && Eval(vm, e, regs).Some? && !Truthy(Eval(vm, e, regs).value)
            && Kept(regs, q, ch.freereg)
  {
    BranchCompiles(ch, e);
    ExprFlagIsExact(ch, e);
    BranchShape(ch, e);
    BranchGoes(vm, ch, e, regs);
    var (list, c) := CompileBranch(ch, e).value;
    assert Elems([]) + Elems(list) == Elems(list);
    forall j | j in list ensures j < |c.tape| && c.tape[j].JMP? { assert PendingAt(c.tape, |ch.tape|, |c.tape|, j); }
  }

  // ----- programs -----

  function CodeOf(vm: Vm, c: Chunk): Code
    requires Assembled(c.tape, c.labels, c.patches).Ok?
  {
    Code(vm, c.consts, Assembled(c.tape, c.labels, c.patches).value, c.nactvar)
  }

  /** A block compiled in a chunk, without orphaned jumps, whose source makes no more labels than there are numbers. */
  ghost predicate Compiled(ch: Chunk, b: Block, c: Chunk) {
    && Room(ch) && Neat(ch) && BlockOk(b, ch.nactvar)
    && CompileBlock(ch, b, None) == Ok(c) && !c.orphans && |ch.labels| + BlockLabels(b) <= LABELS
  }

  /** Assembly does not panic, keeps the code's length, and leaves no placeholder behind. */
  lemma Assembles(ch: Chunk, b: Block, c: Chunk)
    requires Compiled(ch, b, c)
    ensures Assembled(c.tape, c.labels, c.patches).Ok?
    ensures var t := Assembled(c.tape, c.labels, c.patches).value;
      Aimed(c, t) && forall i :: |ch.tape| <= i < |t| ==> !Placeholder(t[i])
  {
    BlockGrows(ch, b, None);
    AssembledAims(c, c.tape, 0);
    assert c.patches[0..] == c.patches;
    var t := Assembled(c.tape, c.labels, c.patches).value;
    forall i | |ch.tape| <= i < |t| ensures !Placeholder(t[i]) {
      if !Untouched(c, i) {
        var k :| 0 <= k < |c.patches| && c.patches[k].0 == i;
        assert LuaAssemble.AimedAt(c, t, k);
      }
    }
  }

  /** Whatever the source does with some fuel, the machine does, and it keeps running while the source does. */
  lemma ProgramMirrors(vm: Vm, ch: Chunk, b: Block, c: Chunk, fuel: nat, regs: Regs) returns (m: nat, q: Regs)
    requires Compiled(ch, b, c) && WorkIsLocal(vm, ch.nactvar)
    ensures Assembled(c.tape, c.labels, c.patches).Ok?
    ensures Mirrors(CodeOf(vm, c), RunBlock(vm, b, fuel, regs), |ch.tape|, |c.tape|, None, fuel, regs, m, q)
  {
    Assembles(ch, b, c);
    BlockGrows(ch, b, None);
    var w := CodeOf(vm, c);
    assert Fixed(ch, c, c);
    BlockMakes(ch, b, None);
    PlacesBlock(w, c, ch, b, None);
    m, q := BlockMirrors(w, b, |ch.tape|, |c.tape|, None, fuel, regs, regs);
  }

  /** The machine stops at the end of the code only if the source finishes, with the same locals. */
  lemma ProgramHalts(vm: Vm, ch: Chunk, b: Block, c: Chunk, regs: Regs, n: nat, q: Regs)
    requires Compiled(ch, b, c) && WorkIsLocal(vm, ch.nactvar) && Assembled(c.tape, c.labels, c.patches).Ok?
    requires Go(CodeOf(vm, c), n, |ch.tape|, regs) == Next(|c.tape|, q)
    ensures RunBlock(vm, b, n + 1, regs).Done? && Kept(RunBlock(vm, b, n + 1, regs).regs, q, ch.nactvar)
  {
    Assembles(ch, b, c);
    BlockGrows(ch, b, None);
    var w, pc, end := CodeOf(vm, c), |ch.tape|, |c.tape|;
    var m, q' := ProgramMirrors(vm, ch, b, c, n + 1, regs);
    if m > n {
      GoOn(w, n, m - n, pc, regs, end, q);
    } else if RunBlock(vm, b, n + 1, regs).Done? {
      GoOn(w, m, n - m, pc, regs, end, q');
    } else {
      StaysRaised(w, m, n - m, pc, regs);
    }
  }

  /** The machine raises an error only if the source does. */
  lemma ProgramRaises(vm: Vm, ch: Chunk, b: Block, c: Chunk, regs: Regs, n: nat)
    requires Compiled(ch, b, c) && WorkIsLocal(vm, ch.nactvar) && Assembled(c.tape, c.labels, c.patches).Ok?
    requires Go(CodeOf(vm, c), n, |ch.tape|, regs) == Raised
    ensures RunBlock(vm, b, n + 1, regs) == Error
  {
    Assembles(ch, b, c);
    BlockGrows(ch, b, None);
    var w, pc, end := CodeOf(vm, c), |ch.tape|, |c.tape|;
    var m, q' := ProgramMirrors(vm, ch, b, c, n + 1, regs);
    if m >= n {
      StaysRaised(w, n, m - n, pc, regs);
    } else if RunBlock(vm, b, n + 1, regs).Done? {
      GoOn(w, m, n - m, pc, regs, end, q');
    }
  }

  lemma {:induction false} StaysRaised(w: Code, a: nat, b: nat, pc: int, regs: Regs)
    requires Go(w, a, pc, regs) == Raised
    ensures Go(w, a + b, pc, regs) == Raised
    decreases a
  {
    var s := Step(w.vm, w.k, w.tape[pc], pc, regs);
    if s.Next? { StaysRaised(w, a - 1, b, s.pc, s.regs); }
  }

  /** A source that never ends keeps the machine inside its code for ever. */
  lemma ProgramDiverges(vm: Vm, ch: Chunk, b: Block, c: Chunk, regs: Regs, n: nat)
    requires Compiled(ch, b, c) && WorkIsLocal(vm, ch.nactvar) && Assembled(c.tape, c.labels, c.patches).Ok?
    requires forall fuel :: RunBlock(vm, b, fuel, regs) == Timeout
    ensures var s := Go(CodeOf(vm, c), n, |ch.tape|, regs); s.Next? && 0 <= s.pc < |c.tape|
  {
    Assembles(ch, b, c);
    var w := CodeOf(vm, c);
    assert RunBlock(vm, b, n + 1, regs) == Timeout;
    var m, q := ProgramMirrors(vm, ch, b, c, n + 1, regs);
    StillRunning(w, n, m, |ch.tape|, regs);
  }

  lemma {:induction false} StillRunning(w: Code, n: nat, m: nat, pc: int, regs: Regs)
    requires n < m && Go(w, m, pc, regs).Next?
    ensures var s := Go(w, n, pc, regs); s.Next? && 0 <= s.pc < |w.tape|
    decreases n
  {
    if n > 0 {
      var s := Step(w.vm, w.k, w.tape[pc], pc, regs);
      StillRunning(w, n - 1, m - 1, s.pc, s.regs);
    }
  }

  // ----- programs by their source text -----

  /** The source fits: registers, constants and labels suffice, and every `break` stands in a loop. */
  ghost predicate SourceFits(ch: Chunk, b: Block) {
    && Affords(ch, BlockNeed(b), BlockLoads(b)) && !BlockBreaks(b)
    && |ch.labels| + BlockLabels(b) <= LABELS
  }

  /**
   * A block in clean code compiles, and faithfully in the sense of the theorems above, if and only
   * if its source fits and leaves no jump astray.
   */
  lemma SourceProgram(ch: Chunk, b: Block)
    requires Room(ch) && Neat(ch) && BlockOk(b, ch.nactvar) && Clean(ch)
    ensures CompileBlock(ch, b, None).Err? ==> CompileBlock(ch, b, None).fail != Panic
    ensures CompileBlock(ch, b, None).Ok? && Compiled(ch, b, CompileBlock(ch, b, None).value) <==>
            SourceFits(ch, b) && !BlockOrphaning(b)
  {
    ProgramCompiles(ch, b);
    BlockGrows(ch, b, None);
    if CompileBlock(ch, b, None).Ok? && |ch.labels| + BlockLabels(b) <= LABELS {
      BlockMakes(ch, b, None);
      BlockFlag(ch, b, None);
    }
  }

  /** Whether a block leaves a jump astray, or any code at all, is read off its source. */
  lemma BlockFlagIsExact(ch: Chunk, b: Block, brk: Option<nat>)
    requires Room(ch) && Neat(ch) && BlockOk(b, ch.nactvar) && Clean(ch) && BreakLow(ch, brk)
    requires CompileBlock(ch, b, brk).Ok? && |ch.labels| + BlockLabels(b) <= LABELS
    ensures var c := CompileBlock(ch, b, brk).value;
      (c.orphans <==> BlockOrphaning(b)) && (!c.orphans ==> (c.tape == ch.tape <==> Blank(b)))
  {
    BlockGrows(ch, b, brk);
    BlockMakes(ch, b, brk);
    BlockFlag(ch, b, brk);
  }

  /** The flag of an `if` is read off its arms. */
  lemma ArmsFlagIsExact(ch: Chunk, arms: Arms, end: nat, brk: Option<nat>)
    requires Room(ch) && Neat(ch) && ArmsOk(arms, ch.nactvar) && Contained(ch) && BreakLow(ch, brk) && Low(ch, end)
    requires CompileArms(ch, arms, end, brk).Ok? && |ch.labels| + ArmsLabels(arms) <= LABELS
    ensures CompileArms(ch, arms, end, brk).value.orphans <==> ch.orphans || ArmsOrphaning(arms)
  {
    ArmsGrow(ch, arms, end, brk);
    ArmsMake(ch, arms, end, brk);
    if !ch.orphans { ArmsFlag(ch, arms, end, brk); }
  }

  /** In particular, steady programs that fit are compiled faithfully. */
  lemma SteadyProgram(ch: Chunk, b: Block)
    requires Room(ch) && Neat(ch) && BlockOk(b, ch.nactvar) && SteadyBlock(b) && Clean(ch)
    ensures CompileBlock(ch, b, None).Err? ==> CompileBlock(ch, b, None).fail != Panic
    ensures CompileBlock(ch, b, None).Ok? && Compiled(ch, b, CompileBlock(ch, b, None).value) <==> SourceFits(ch, b)
  {
    SteadyBlockIsSafe(b);
    SourceProgram(ch, b);
  }
}
