/** Compiling an expression preserves its meaning, and no assertion of the compiler fails. */
module LuaCorrect {
  import opened Prelude
  import opened LuaVm
  import opened LuaCompile
  import opened LuaDesc
  import opened LuaGo
  import opened LuaDischarge
  import opened LuaReg
  import opened LuaLogic
  import opened LuaNot

  /** Temporaries stand above the locals, and a register is a byte. */
  predicate Room(ch: Chunk) {
    ch.nactvar <= ch.freereg <= 255
  }

  lemma FollowsTrans(a: Chunk, b: Chunk, c: Chunk, start: nat, mid: nat)
    requires Follows(a, b, start) && Follows(b, c, mid) && start <= mid
    ensures Follows(a, c, start)
  {
    assert forall i :: 0 <= i < start ==> a.tape[i] == a.tape[..start][i] && b.tape[i] == b.tape[..start][i];
    assert forall i :: 0 <= i < start ==> b.tape[i] == b.tape[..mid][i] && c.tape[i] == c.tape[..mid][i];
  }

  lemma FollowsExtends(a: Chunk, b: Chunk)
    requires Follows(a, b, |a.tape|)
    ensures Extends(a, b)
  {
    assert a.tape[..|a.tape|] == a.tape;
  }

  // ----- structure -----

  /** The left operand of a short-circuit operator, or a branch condition: its stay list ends here. */
  function Left(ch: Chunk, d: Desc, want: bool): Result<(Desc, Chunk)> {
    var (d1, c1) :- GoIf(ch, d, want);
    var c2 :- PatchToHere(c1, Stay(d1, want));
    Ok((d1, c2))
  }

  lemma LeftShape(ch: Chunk, start: nat, base: nat, d: Desc, want: bool)
    requires WellFormed(ch, start, base, d)
    ensures Left(ch, d, want).Err? ==> Left(ch, d, want).fail != Panic
    ensures Left(ch, d, want).Ok? ==>
      var (d1, c2) := Left(ch, d, want).value;
      Follows(ch, c2, start) && c2.freereg == base && ListsOk(c2.tape, start, |c2.tape|, [], Leave(d1, want))
  {
    GoIfShape(ch, start, base, d, want);
    if GoIf(ch, d, want).Ok? {
      var (d1, c1) := GoIf(ch, d, want).value;
      PatchToHereShape(c1, start, Stay(d1, want), Leave(d1, want));
      FollowsTrans(ch, c1, PatchToHere(c1, Stay(d1, want)).value, start, start);
    }
  }

  lemma LogicCases(ch: Chunk, want: bool, x: Expr, y: Expr)
    ensures CompileExpr(ch, Logic(want, x, y)) ==
      match CompileExpr(ch, x) {
        case Err(f) => Err(f)
        case Ok((d, c)) =>
          match Left(c, d, want) {
            case Err(f) => Err(f)
            case Ok((d1, c2)) =>
              match CompileExpr(c2, y) {
                case Err(f) => Err(f)
                case Ok((d3, c3)) => Ok((Joined(d3, want, Leave(d1, want)), c3))
              }
          }
      }
  {
  }

  lemma BranchCases(ch: Chunk, e: Expr)
    ensures CompileBranch(ch, e) ==
      match CompileExpr(ch, e) {
        case Err(f) => Err(f)
        case Ok((d, c)) => match Left(c, d, true) { case Err(f) => Err(f) case Ok((d1, c2)) => Ok((d1.fl, c2)) }
      }
  {
  }

  ghost predicate ShapeOk(ch: Chunk, r: Result<(Desc, Chunk)>) {
    match r
    case Err(f) => f != Panic
    case Ok((d, c)) => Follows(ch, c, |ch.tape|) && WellFormed(c, |ch.tape|, ch.freereg, d)
  }

  ghost predicate RegShapeOk(ch: Chunk, r: Result<(nat, Chunk)>) {
    match r
    case Err(f) => f != Panic
    case Ok((q, c)) =>
      Follows(ch, c, |ch.tape|) && RegOk(c, ch.freereg, Desc(InReg(q), [], [])) && NoStray(c.tape, |ch.tape|, {})
  }

  lemma {:induction false} ExprShape(ch: Chunk, e: Expr)
    requires Room(ch) && WellScoped(e, ch.nactvar)
    ensures ShapeOk(ch, CompileExpr(ch, e))
    decreases e, 1
  {
    var start, base := |ch.tape|, ch.freereg;
    match e {
      case Local(_) =>
      case Const(_) =>
      case Paren(x) => ExprShape(ch, x);
      case Not(x) =>
        ExprShape(ch, x);
        if CompileExpr(ch, x).Ok? {
          var (d, c) := CompileExpr(ch, x).value;
          NotShape(c, start, base, d);
          if CompileNot(c, d).Ok? { FollowsTrans(ch, c, CompileNot(c, d).value.1, start, start); }
        }
      case And(x, y) => ExprShapeLogic(ch, true, x, y);
      case Or(x, y) => ExprShapeLogic(ch, false, x, y);
      case Compare(op, x, y) => ExprShapeCompare(ch, op, x, y);
    }
  }

  lemma {:induction false} ExprShapeLogic(ch: Chunk, want: bool, x: Expr, y: Expr)
    requires Room(ch) && WellScoped(x, ch.nactvar) && WellScoped(y, ch.nactvar)
    ensures ShapeOk(ch, CompileExpr(ch, Logic(want, x, y)))
    decreases Logic(want, x, y), 0
  {
    var start, base := |ch.tape|, ch.freereg;
    LogicCases(ch, want, x, y);
    ExprShape(ch, x);
    if CompileExpr(ch, x).Ok? {
      var (d, c) := CompileExpr(ch, x).value;
      LeftShape(c, start, base, d, want);
      if Left(c, d, want).Ok? {
        var (d1, c2) := Left(c, d, want).value;
        ExprShape(c2, y);
        if CompileExpr(c2, y).Ok? {
          var (d3, c3) := CompileExpr(c2, y).value;
          FollowsExtends(c2, c3);
          JoinedShape(c2, c3, start, base, d3, want, Leave(d1, want));
          FollowsTrans(ch, c, c2, start, start);
          FollowsTrans(ch, c2, c3, start, |c2.tape|);
        }
      }
    }
  }

  lemma {:induction false} ExprShapeCompare(ch: Chunk, op: Comparison, x: Expr, y: Expr)
    requires Room(ch) && WellScoped(x, ch.nactvar) && WellScoped(y, ch.nactvar)
    ensures ShapeOk(ch, CompileExpr(ch, Compare(op, x, y)))
    decreases Compare(op, x, y), 0
  {
    RegShape(ch, x);
    if CompileToReg(ch, x).Ok? {
      var (l, c1) := CompileToReg(ch, x).value;
      RegShape(c1, y);
      if CompileToReg(c1, y).Ok? {
        var (r, c2) := CompileToReg(c1, y).value;
        CompareCase(ch, op, x, y, l, c1, r, c2);
        RegsCompared(c1, c2, op, ch.freereg, l, r);
        ComparedShape(c1, c2, op, |ch.tape|, ch.freereg, l, r);
        FollowsTrans(ch, c1, c2, |ch.tape|, |c1.tape|);
        FollowsTrans(ch, c2, Compared(c2, op, l, r, ch.freereg), |ch.tape|, |c2.tape|);
      }
    }
  }

  lemma CompareCase(ch: Chunk, op: Comparison, x: Expr, y: Expr, l: nat, c1: Chunk, r: nat, c2: Chunk)
    requires CompileToReg(ch, x) == Ok((l, c1)) && CompileToReg(c1, y) == Ok((r, c2))
    ensures CompileExpr(ch, Compare(op, x, y)) == CompareRegs(c2, op, l, r)
  {
  }

  lemma {:induction false} RegShape(ch: Chunk, e: Expr)
    requires Room(ch) && WellScoped(e, ch.nactvar)
    ensures RegShapeOk(ch, CompileToReg(ch, e))
    ensures CompileToReg(ch, e).Ok? ==> Room(CompileToReg(ch, e).value.1)
    decreases e, 2
  {
    ExprShape(ch, e);
    if CompileExpr(ch, e).Ok? {
      var (d, c) := CompileExpr(ch, e).value;
      DischargeOk(c, |ch.tape|, ch.freereg, d);
      if Discharge(c, d).Ok? { FollowsTrans(ch, c, Discharge(c, d).value.1, |ch.tape|, |ch.tape|); }
    }
  }

  // ----- meaning -----

  lemma LeftGoes(vm: Vm, ch: Chunk, start: nat, base: nat, d: Desc, want: bool, v: Option<Value>, regs: Regs)
    requires WellFormed(ch, start, base, d) && Fits(vm, ch, start, base, d, v, regs)
    requires Left(ch, d, want).Ok? && !Left(ch, d, want).value.1.orphans
    ensures var (d1, c2) := Left(ch, d, want).value; Goes(vm, c2, start, base, [], Leave(d1, want), want, v, regs)
  {
    GoIfShape(ch, start, base, d, want);
    GoIfGoes(vm, ch, start, base, d, want, v, regs);
    var (d1, c1) := GoIf(ch, d, want).value;
    PatchToHereGoes(vm, c1, start, base, Stay(d1, want), Leave(d1, want), want, v, regs);
  }

  lemma {:induction false} ExprGood(vm: Vm, ch: Chunk, e: Expr)
    requires Room(ch) && WellScoped(e, ch.nactvar)
    requires CompileExpr(ch, e).Ok? && !CompileExpr(ch, e).value.1.orphans
    ensures var (d, c) := CompileExpr(ch, e).value; Good(vm, c, |ch.tape|, ch.freereg, e, d)
    decreases e, 1
  {
    var start, base := |ch.tape|, ch.freereg;
    var (d', c') := CompileExpr(ch, e).value;
    match e {
      case Local(_) => assert Pend(d') == {};
      case Const(_) => assert Pend(d') == {};
      case Paren(x) =>
        ExprGood(vm, ch, x);
        forall regs ensures Fits(vm, c', start, base, d', Eval(vm, e, regs), regs) {
          assert Fits(vm, c', start, base, d', Eval(vm, x, regs), regs);
        }
      case Not(x) =>
        var (d, c) := CompileExpr(ch, x).value;
        ExprShape(ch, x);
        NotShape(c, start, base, d);
        ExprGood(vm, ch, x);
        forall regs ensures Fits(vm, c', start, base, d', Eval(vm, e, regs), regs) {
          NotFits(vm, c, start, base, d, Eval(vm, x, regs), regs);
        }
      case And(x, y) => ExprGoodLogic(vm, ch, true, x, y);
      case Or(x, y) => ExprGoodLogic(vm, ch, false, x, y);
      case Compare(op, x, y) => ExprGoodCompare(vm, ch, op, x, y);
    }
  }

  lemma {:induction false} ExprGoodLogic(vm: Vm, ch: Chunk, want: bool, x: Expr, y: Expr)
    requires Room(ch) && WellScoped(x, ch.nactvar) && WellScoped(y, ch.nactvar)
    requires var r := CompileExpr(ch, Logic(want, x, y)); r.Ok? && !r.value.1.orphans
    ensures var (d, c) := CompileExpr(ch, Logic(want, x, y)).value;
      Good(vm, c, |ch.tape|, ch.freereg, Logic(want, x, y), d)
    decreases Logic(want, x, y), 0
  {
    var start, base := |ch.tape|, ch.freereg;
    LogicCases(ch, want, x, y);
    var (d, c) := CompileExpr(ch, x).value;
    var (d1, c2) := Left(c, d, want).value;
    var (d3, c3) := CompileExpr(c2, y).value;
    ExprShape(ch, x);
    LeftShape(c, start, base, d, want);
    ExprShape(c2, y);
    FollowsExtends(c2, c3);
    ExprGood(vm, ch, x);
    ExprGood(vm, c2, y);
    forall regs
      ensures Fits(vm, c3, start, base, Joined(d3, want, Leave(d1, want)), Eval(vm, Logic(want, x, y), regs), regs)
    {
      LeftGoes(vm, c, start, base, d, want, Eval(vm, x, regs), regs);
      ScopeWidens(y, ch.nactvar, base);
      JoinedFits(vm, c2, c3, start, base, x, y, want, Leave(d1, want), d3, regs);
    }
  }

  lemma ScopeWidens(e: Expr, m: nat, n: nat)
    requires WellScoped(e, m) && m <= n
    ensures WellScoped(e, n)
  {
  }

  lemma {:induction false} ExprGoodCompare(vm: Vm, ch: Chunk, op: Comparison, x: Expr, y: Expr)
    requires Room(ch) && WellScoped(x, ch.nactvar) && WellScoped(y, ch.nactvar)
    requires var r := CompileExpr(ch, Compare(op, x, y)); r.Ok? && !r.value.1.orphans
    ensures var (d, c) := CompileExpr(ch, Compare(op, x, y)).value;
      Good(vm, c, |ch.tape|, ch.freereg, Compare(op, x, y), d)
    decreases Compare(op, x, y), 0
  {
    var start, base := |ch.tape|, ch.freereg;
    var (l, c1) := CompileToReg(ch, x).value;
    var (r, c2) := CompileToReg(c1, y).value;
    RegShape(ch, x);
    RegShape(c1, y);
    CompareCase(ch, op, x, y, l, c1, r, c2);
    RegsCompared(c1, c2, op, ch.freereg, l, r);
    forall regs
      ensures Fits(vm, Compared(c2, op, l, r, base), start, base, ComparedDesc(c2), Eval(vm, Compare(op, x, y), regs),
        regs)
    {
      RegYields(vm, ch, x, regs);
      forall q | Kept(regs, q, base)
        ensures Yields(vm, c2, |c1.tape|, c1.freereg, r, Eval(vm, y, regs), q)
      {
        RegYields(vm, c1, y, q);
        EvalReadsLocals(vm, y, ch.nactvar, regs, q);
      }
      ComparedFits(vm, c1, c2, op, start, base, l, r, Eval(vm, x, regs), Eval(vm, y, regs), regs);
      CompareValue(vm, op, x, y, regs);
    }
  }

  lemma CompareValue(vm: Vm, op: Comparison, x: Expr, y: Expr, regs: Regs)
    ensures Eval(vm, Compare(op, x, y), regs) == Combined(vm, op, Eval(vm, x, regs), Eval(vm, y, regs))
  {
  }

  lemma {:induction false} RegYields(vm: Vm, ch: Chunk, e: Expr, regs: Regs)
    requires Room(ch) && WellScoped(e, ch.nactvar)
    requires CompileToReg(ch, e).Ok? && !CompileToReg(ch, e).value.1.orphans
    ensures var (r, c) := CompileToReg(ch, e).value; Yields(vm, c, |ch.tape|, ch.freereg, r, Eval(vm, e, regs), regs)
    decreases e, 2
  {
    var (d, c) := CompileExpr(ch, e).value;
    ExprShape(ch, e);
    DischargeOk(c, |ch.tape|, ch.freereg, d);
    ExprGood(vm, ch, e);
    DischargeYields(vm, c, |ch.tape|, ch.freereg, d, Eval(vm, e, regs), regs);
  }
}
