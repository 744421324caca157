/** The code uses no register beyond the stack that the chunk asks for. */
module LuaFrame {
  import opened Prelude
  import opened LuaVm
  import opened LuaCompile
  import opened LuaStmt

  predicate Dst(r: nat, m: nat) {
    r < m || r == NO_REG
  }

  /** The registers an instruction names stand below `m`, but for a placeholder. */
  predicate Uses(i: Instr, m: nat) {
    match i
    case MOVE(dst, src) => dst < m && src < m
    case LOAD(dst, _) => dst < m
    case LFALSESKIP(dst) => dst < m
    case NOT(dst, src) => dst < m && src < m
    case CMP(_, lhs, rhs, _) => lhs < m && rhs < m
    case TEST(src, _) => src < m
    case TESTSET(dst, src, _) => Dst(dst, m) && src < m
    case JMP(_) => true
    case WORK(_) => true
  }

  predicate InFrame(tape: seq<Instr>, m: nat) {
    forall i :: 0 <= i < |tape| ==> Uses(tape[i], m)
  }

  predicate FrameOk(c: Chunk) {
    c.nactvar <= c.maxStack && c.freereg <= c.maxStack && InFrame(c.tape, c.maxStack)
  }

  /** Compilation has kept to the frame. */
  predicate Framed(a: Chunk, c: Chunk) {
    FrameOk(c) && c.nactvar == a.nactvar && a.maxStack <= c.maxStack
  }

  predicate KindOk(kind: Kind, m: nat) {
    kind.InReg? ==> kind.r < m
  }

  predicate DescFramed(a: Chunk, r: Result<(Desc, Chunk)>) {
    r.Ok? ==> Framed(a, r.value.1) && KindOk(r.value.0.kind, r.value.1.maxStack)
  }

  predicate RegFramed(a: Chunk, r: Result<(nat, Chunk)>) {
    r.Ok? ==> Framed(a, r.value.1) && r.value.0 < r.value.1.maxStack
  }

  predicate ChunkFramed(a: Chunk, r: Result<Chunk>) {
    r.Ok? ==> Framed(a, r.value)
  }

  // ----- single operations -----

  lemma FrameGrows(tape: seq<Instr>, m: nat, n: nat)
    requires InFrame(tape, m) && m <= n
    ensures InFrame(tape, n)
  {
    forall i | 0 <= i < |tape| ensures Uses(tape[i], n) { assert Uses(tape[i], m); }
  }

  lemma ReserveFramed(ch: Chunk)
    requires FrameOk(ch)
    ensures RegFramed(ch, ReserveReg(ch))
  {
    if ReserveReg(ch).Ok? { FrameGrows(ch.tape, ch.maxStack, ReserveReg(ch).value.1.maxStack); }
  }

  lemma DowngradeFramed(tape: seq<Instr>, list: seq<nat>, m: nat)
    requires InFrame(tape, m)
    ensures InFrame(DowngradeTestsets(tape, list), m)
  {
    forall i | 0 <= i < |tape| ensures Uses(DowngradeTestsets(tape, list)[i], m) { assert Uses(tape[i], m); }
  }

  lemma AimFramed(tape: seq<Instr>, list: seq<nat>, target: int, m: nat)
    requires InFrame(tape, m)
    ensures InFrame(AimJumps(tape, list, target), m)
  {
    forall i | 0 <= i < |tape| ensures Uses(AimJumps(tape, list, target)[i], m) { assert Uses(tape[i], m); }
  }

  lemma PatchToFramed(ch: Chunk, list: seq<nat>, target: nat)
    requires FrameOk(ch)
    ensures ChunkFramed(ch, PatchTo(ch, list, target))
    ensures PatchTo(ch, list, target).Ok? ==> PatchTo(ch, list, target).value.freereg == ch.freereg
  {
    DowngradeFramed(ch.tape, list, ch.maxStack);
    AimFramed(DowngradeTestsets(ch.tape, list), list, target, ch.maxStack);
  }

  lemma {:induction false} PatchToHereFramed(ch: Chunk, list: seq<nat>)
    requires FrameOk(ch)
    ensures ChunkFramed(ch, PatchToHere(ch, list))
    decreases |list|
  {
    var end := |ch.tape|;
    var pos := if end == 0 then |list| else Position(list, end - 1);
    if pos >= |list| || end == 1 || !Elidable(ch.tape[end - 2]) {
      PatchToFramed(ch, list, end);
    } else {
      var c := ch.(tape := ch.tape[..end - 2], orphans := ch.orphans || !NothingPast(ch, end - 2));
      assert InFrame(c.tape, c.maxStack);
      PatchToHereFramed(c, list[..pos] + list[pos + 1..]);
    }
  }

  lemma {:induction false} PatchListFramed(tape: seq<Instr>, list: seq<nat>, vtarget: int, reg: nat, dtarget: int,
    m: nat)
    requires InFrame(tape, m) && reg < m
    ensures InFrame(PatchListAux(tape, list, vtarget, reg, dtarget), m)
    decreases |list|
  {
    if list != [] {
      var t := PatchOne(tape, list[0], vtarget, reg, dtarget);
      forall i | 0 <= i < |t| ensures Uses(t[i], m) { assert Uses(tape[i], m); }
      PatchListFramed(t, list[1..], vtarget, reg, dtarget, m);
    }
  }

  lemma BothFramed(tape: seq<Instr>, d: Desc, final: int, dst: nat, ft: int, tt: int, m: nat)
    requires InFrame(tape, m) && dst < m
    ensures InFrame(PatchedBoth(tape, d, final, dst, ft, tt), m)
  {
    PatchListFramed(tape, d.fl, final, dst, ft, m);
    PatchListFramed(PatchListAux(tape, d.fl, final, dst, ft), d.tl, final, dst, tt, m);
  }

  lemma {:induction false} FlipAllFramed(ch: Chunk, list: seq<nat>)
    requires FrameOk(ch)
    ensures ChunkFramed(ch, FlipAll(ch, list))
    decreases |list|
  {
    if list != [] {
      FlipFramed(ch, list[0]);
      if FlipControl(ch, list[0]).Ok? { FlipAllFramed(FlipControl(ch, list[0]).value, list[1..]); }
    }
  }

  lemma FlipFramed(ch: Chunk, j: nat)
    requires FrameOk(ch)
    ensures ChunkFramed(ch, FlipControl(ch, j))
  {
    if FlipControl(ch, j).Ok? && j > 0 {
      var c := FlipControl(ch, j).value;
      forall i | 0 <= i < |c.tape| ensures Uses(c.tape[i], ch.maxStack) { assert Uses(ch.tape[i], ch.maxStack); }
    }
  }

  // ----- discharge -----

  lemma LoadFramed(ch: Chunk, d: Desc)
    requires FrameOk(ch) && KindOk(d.kind, ch.maxStack)
    ensures DescFramed(ch, LoadLiteral(ch, d))
  {
    if d.kind.Literal? && AllocConstant(ch, d.kind.v).Ok? {
      ReserveFramed(AllocConstant(ch, d.kind.v).value.1);
    }
  }

  lemma PickFramed(ch: Chunk, d: Desc)
    requires FrameOk(ch) && KindOk(d.kind, ch.maxStack)
    ensures RegFramed(ch, PickDst(ch, d))
  {
    ReserveFramed(ch);
  }

  lemma TailFramed(ch: Chunk, d: Desc, dst: nat, isJump: bool)
    requires FrameOk(ch) && dst < ch.maxStack
    ensures ChunkFramed(ch, ResolveTail(ch, d, dst, isJump))
  {
    if AllocConstant(ch, Bool(true)).Ok? {
      var idx, n := AllocConstant(ch, Bool(true)).value.0, |ch.tape|;
      var ft := if isJump then n else n + 1;
      BothFramed(ch.tape + TailCode(dst, isJump, idx), d, ft + 2, dst, ft, ft + 1, ch.maxStack);
    }
  }

  lemma ResolveFramed(ch: Chunk, d: Desc, dst: nat, isJump: bool)
    requires FrameOk(ch) && dst < ch.maxStack
    ensures ChunkFramed(ch, ResolveLists(ch, d, dst, isJump))
  {
    BothFramed(ch.tape, d, |ch.tape|, dst, 0, 0, ch.maxStack);
    TailFramed(ch, d, dst, isJump);
  }

  lemma DischargeFramed(ch: Chunk, d: Desc)
    requires FrameOk(ch) && KindOk(d.kind, ch.maxStack)
    ensures RegFramed(ch, Discharge(ch, d))
  {
    LoadFramed(ch, d);
    if LoadLiteral(ch, d).Ok? {
      var (d1, c1) := LoadLiteral(ch, d).value;
      PickFramed(c1, d1);
      if PickDst(c1, d1).Ok? {
        var (dst, c2) := PickDst(c1, d1).value;
        ResolveFramed(c2, Absorbed(d1), dst, d1.kind.Jump?);
      }
    }
  }

  // ----- expressions -----

  lemma TestFramed(ch: Chunk, r: nat, ifTruthy: bool)
    requires FrameOk(ch) && r < ch.maxStack
    ensures FreeReg(ch, r).Ok? ==> Framed(ch, EmitTestJump(FreeReg(ch, r).value, r, ifTruthy).1)
  {
  }

  lemma GoTrueFramed(ch: Chunk, d: Desc)
    requires FrameOk(ch) && KindOk(d.kind, ch.maxStack)
    ensures DescFramed(ch, GoIfTrue(ch, d))
  {
    match d.kind {
      case Literal(_) =>
        DischargeFramed(ch, d);
        if Discharge(ch, d).Ok? { TestFramed(Discharge(ch, d).value.1, Discharge(ch, d).value.0, false); }
      case Jump(Some(j)) => FlipFramed(ch, j);
      case Jump(None) => FlipAllFramed(ch, d.tl + d.fl);
      case InReg(r) => TestFramed(ch, r, false);
    }
  }

  lemma GoFalseFramed(ch: Chunk, d: Desc)
    requires FrameOk(ch) && KindOk(d.kind, ch.maxStack)
    ensures DescFramed(ch, GoIfFalse(ch, d))
  {
    match d.kind {
      case Literal(_) =>
        DischargeFramed(ch, d);
        if Discharge(ch, d).Ok? { TestFramed(Discharge(ch, d).value.1, Discharge(ch, d).value.0, true); }
      case Jump(Some(_)) =>
      case Jump(None) => FlipAllFramed(ch, d.tl + d.fl);
      case InReg(r) => TestFramed(ch, r, true);
    }
  }

  lemma CodeNotFramed(ch: Chunk, d: Desc, kind: Kind)
    requires FrameOk(ch) && KindOk(kind, ch.maxStack)
    ensures DescFramed(ch, CodeNot(ch, d, kind))
  {
    DowngradeFramed(ch.tape, d.tl, ch.maxStack);
    DowngradeFramed(DowngradeTestsets(ch.tape, d.tl), d.fl, ch.maxStack);
  }

  lemma NotFramed(ch: Chunk, d: Desc)
    requires FrameOk(ch) && KindOk(d.kind, ch.maxStack)
    ensures DescFramed(ch, CompileNot(ch, d))
  {
    match d.kind {
      case Literal(v) => CodeNotFramed(ch, d, Literal(Bool(!Truthy(v))));
      case Jump(Some(j)) =>
        FlipFramed(ch, j);
        if FlipControl(ch, j).Ok? { CodeNotFramed(FlipControl(ch, j).value, d, d.kind); }
      case Jump(None) =>
      case InReg(src) =>
        if FreeReg(ch, src).Ok? {
          var c := FreeReg(ch, src).value;
          ReserveFramed(c);
          if ReserveReg(c).Ok? {
            var (dst, c') := ReserveReg(c).value;
            CodeNotFramed(Emit(c', NOT(dst, src)), d, InReg(dst));
          }
        }
    }
  }

  lemma CompareFramed(ch: Chunk, op: Comparison, l: nat, r: nat)
    requires FrameOk(ch) && l < ch.maxStack && r < ch.maxStack
    ensures DescFramed(ch, CompareRegs(ch, op, l, r))
  {
  }

  lemma {:induction false} ExprFramed(ch: Chunk, e: Expr)
    requires FrameOk(ch) && WellScoped(e, ch.nactvar)
    ensures DescFramed(ch, CompileExpr(ch, e))
    decreases e, 0
  {
    match e {
      case Local(_) =>
      case Const(_) =>
      case Paren(x) => ExprFramed(ch, x);
      case Not(x) =>
        ExprFramed(ch, x);
        if CompileExpr(ch, x).Ok? { NotFramed(CompileExpr(ch, x).value.1, CompileExpr(ch, x).value.0); }
      case And(x, y) =>
        ExprFramed(ch, x);
        if CompileExpr(ch, x).Ok? {
          var (d, c) := CompileExpr(ch, x).value;
          GoTrueFramed(c, d);
          if GoIfTrue(c, d).Ok? { RightFramed(GoIfTrue(c, d).value.1, GoIfTrue(c, d).value.0.tl, y); }
        }
      case Or(x, y) =>
        ExprFramed(ch, x);
        if CompileExpr(ch, x).Ok? {
          var (d, c) := CompileExpr(ch, x).value;
          GoFalseFramed(c, d);
          if GoIfFalse(c, d).Ok? { RightFramed(GoIfFalse(c, d).value.1, GoIfFalse(c, d).value.0.fl, y); }
        }
      case Compare(op, x, y) =>
        RegsFramed(ch, x);
        if CompileToReg(ch, x).Ok? {
          var (l, c1) := CompileToReg(ch, x).value;
          RegsFramed(c1, y);
          if CompileToReg(c1, y).Ok? {
            var (r, c2) := CompileToReg(c1, y).value;
            CompareFramed(c2, op, l, r);
          }
        }
    }
  }

  /** The right operand of a connective, behind the list that comes there. */
  lemma {:induction false} RightFramed(c1: Chunk, stay: seq<nat>, y: Expr)
    requires FrameOk(c1) && WellScoped(y, c1.nactvar)
    ensures PatchToHere(c1, stay).Ok? ==> DescFramed(c1, CompileExpr(PatchToHere(c1, stay).value, y))
    decreases y, 2
  {
    PatchToHereFramed(c1, stay);
    if PatchToHere(c1, stay).Ok? { ExprFramed(PatchToHere(c1, stay).value, y); }
  }

  lemma {:induction false} RegsFramed(ch: Chunk, e: Expr)
    requires FrameOk(ch) && WellScoped(e, ch.nactvar)
    ensures RegFramed(ch, CompileToReg(ch, e))
    decreases e, 1
  {
    ExprFramed(ch, e);
    if CompileExpr(ch, e).Ok? { DischargeFramed(CompileExpr(ch, e).value.1, CompileExpr(ch, e).value.0); }
  }

  lemma BranchFramed(ch: Chunk, e: Expr)
    requires FrameOk(ch) && WellScoped(e, ch.nactvar)
    ensures CompileBranch(ch, e).Ok? ==> Framed(ch, CompileBranch(ch, e).value.1)
  {
    ExprFramed(ch, e);
    if CompileExpr(ch, e).Ok? {
      var (d, c) := CompileExpr(ch, e).value;
      GoTrueFramed(c, d);
      if GoIfTrue(c, d).Ok? { PatchToHereFramed(GoIfTrue(c, d).value.1, GoIfTrue(c, d).value.0.tl); }
    }
  }

  // ----- statements -----

  lemma {:induction false} StmtFramed(ch: Chunk, s: Stmt, brk: Option<nat>)
    requires FrameOk(ch) && StmtOk(s, ch.nactvar)
    ensures ChunkFramed(ch, CompileStmt(ch, s, brk))
    decreases s, 0
  {
    match s {
      case Work(id) =>
      case Break =>
      case Do(b) => BlockFramed(ch, b, brk);
      case If(arms) =>
        var (end, c) := NewLabel(ch);
        ArmsFramed(c, arms, end, brk);
      case While(cond, b) => WhileFramed(ch, cond, b, brk);
      case Repeat(b, cond) =>
        var (out, c) := NewLabel(ch);
        BlockFramed(c, b, Some(out));
        if CompileBlock(c, b, Some(out)).Ok? {
          var c1 := CompileBlock(c, b, Some(out)).value;
          BranchFramed(c1, cond);
          if CompileBranch(c1, cond).Ok? {
            PatchToFramed(CompileBranch(c1, cond).value.1, CompileBranch(c1, cond).value.0, |ch.tape|);
          }
        }
    }
  }

  lemma {:induction false} WhileFramed(ch: Chunk, cond: Expr, b: Block, brk: Option<nat>)
    requires FrameOk(ch) && StmtOk(While(cond, b), ch.nactvar)
    ensures ChunkFramed(ch, CompileStmt(ch, While(cond, b), brk))
    decreases b, 2
  {
    var (out, c) := NewLabel(ch);
    var (top, c1) := NewLabel(c);
    if SetLabel(c1, top, |c1.tape|).Ok? {
      var c2 := SetLabel(c1, top, |c1.tape|).value;
      BranchFramed(c2, cond);
      if CompileBranch(c2, cond).Ok? {
        var (list, c3) := CompileBranch(c2, cond).value;
        BlockFramed(c3, b, Some(out));
        if CompileBlock(c3, b, Some(out)).Ok? {
          var c5 := EmitJump(CompileBlock(c3, b, Some(out)).value, top);
          assert InFrame(c5.tape, c5.maxStack);
          DowngradeFramed(c5.tape, list, c5.maxStack);
        }
      }
    }
  }

  lemma {:induction false} BlockFramed(ch: Chunk, b: Block, brk: Option<nat>)
    requires FrameOk(ch) && BlockOk(b, ch.nactvar)
    ensures ChunkFramed(ch, CompileBlock(ch, b, brk)) && ChunkFramed(ch, CompileScope(ch, b, brk))
    decreases b, 1
  {
    match b {
      case Nothing =>
      case Then(s, rest) =>
        StmtFramed(ch, s, brk);
        if CompileStmt(ch, s, brk).Ok? { BlockFramed(CompileStmt(ch, s, brk).value, rest, brk); }
    }
  }

  lemma {:induction false} ArmsFramed(ch: Chunk, arms: Arms, end: nat, brk: Option<nat>)
    requires FrameOk(ch) && ArmsOk(arms, ch.nactvar)
    ensures ChunkFramed(ch, CompileArms(ch, arms, end, brk))
    decreases arms, 1
  {
    match arms {
      case Fi =>
      case Else(b) => BlockFramed(ch, b, brk);
      case Arm(cond, b, rest) =>
        BranchFramed(ch, cond);
        if CompileBranch(ch, cond).Ok? {
          var (list, c1) := CompileBranch(ch, cond).value;
          BlockFramed(c1, b, brk);
          if CompileScope(c1, b, brk).Ok? {
            var c2 := CompileScope(c1, b, brk).value;
            var c3 := if rest.Fi? then c2 else EmitJump(c2, end);
            PatchToHereFramed(c3, list);
            if PatchToHere(c3, list).Ok? { ArmsFramed(PatchToHere(c3, list).value, rest, end, brk); }
          }
        }
    }
  }
}
