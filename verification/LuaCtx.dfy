/**
 * The compiler's mutable context. Each method works on the chunk in place and is proved against
 * the function of the same name; the assertions of the source are proved where they stand.
 */
module LuaCtx {
  import opened Prelude
  import opened LuaVm
  import opened LuaReg
  import opened LuaLogic
  import opened LuaCorrect
  import opened LuaNot
  import opened LuaStmt
  import opened LuaLayout
  import opened LuaGrowth
  import opened LuaAssemble
  import opened C = LuaCompile
  import G = LuaGo

  predicate NoPanic<T>(r: Result<T>) {
    r.Err? ==> r.fail != Panic
  }

  /** The outcome of a step that may fail: its value, and the chunk it leaves. */
  predicate Did<T(==)>(f: Result<(T, Chunk)>, r: Result<T>, after: Chunk) {
    match f
    case Ok((x, c)) => r == Ok(x) && after == c
    case Err(e) => r == Err(e)
  }

  class Ctx {
    var tape: seq<Instr>
    var consts: seq<Value>
    var freereg: nat
    var nactvar: nat
    var maxStack: nat
    var labels: seq<nat>
    var patches: seq<(nat, nat)>
    var lastTarget: nat
    ghost var orphans: bool

    ghost function View(): Chunk
      reads this
    {
      Chunk(tape, consts, freereg, nactvar, maxStack, labels, patches, lastTarget, orphans)
    }

    constructor (locals: nat)
      ensures View() == Chunk([], [], locals, locals, locals, [], [], 0, false)
    {
      tape, consts, freereg, nactvar, maxStack := [], [], locals, locals, locals;
      labels, patches, lastTarget, orphans := [], [], 0, false;
    }

    // ----- registers and constants -----

    method Emit(i: Instr)
      modifies this`tape
      ensures View() == C.Emit(old(View()), i)
    {
      tape := tape + [i];
    }

    method ReserveReg() returns (r: Result<nat>)
      requires nactvar <= freereg
      modifies this`freereg, this`maxStack
      ensures Did(C.ReserveReg(old(View())), r, View())
    {
      if freereg == 255 {
        return Err(Registers);
      }
      r := Ok(freereg);
      freereg := freereg + 1;
      if freereg > maxStack {
        maxStack := freereg;
      }
    }

    method FreeReg(reg: nat)
      requires C.FreeReg(View(), reg).Ok?
      modifies this`freereg
      ensures C.FreeReg(old(View()), reg) == Ok(View())
    {
      if reg >= nactvar {
        assert reg + 1 == freereg;
        freereg := freereg - 1;
      }
    }

    /** The higher register first. */
    method FreeRegs(r1: nat, r2: nat)
      requires C.FreeRegs(View(), r1, r2).Ok?
      modifies this`freereg
      ensures C.FreeRegs(old(View()), r1, r2) == Ok(View())
    {
      if r1 > r2 {
        FreeReg(r1);
        FreeReg(r2);
      } else {
        FreeReg(r2);
        FreeReg(r1);
      }
    }

    /** An equal constant is shared. */
    method AllocConstant(v: Value) returns (r: Result<nat>)
      modifies this`consts
      ensures Did(C.AllocConstant(old(View()), v), r, View())
    {
      var i := 0;
      while i < |consts|
        invariant i <= |consts| && IndexOf(consts, v) == i + IndexOf(consts[i..], v)
      {
        if consts[i] == v {
          return Ok(i);
        }
        assert consts[i..][1..] == consts[i + 1..];
        i := i + 1;
      }
      if |consts| >= 65535 {
        return Err(Constants);
      }
      consts := consts + [v];
      return Ok(|consts| - 1);
    }

    // ----- jump lists -----

    /** Part of a list downgraded is that part of the final tape. */
    method DowngradeTestsets(list: seq<nat>)
      requires Controlled(tape, list)
      modifies this`tape
      ensures tape == C.DowngradeTestsets(old(tape), list)
    {
      var i := 0;
      while i < |list|
        invariant i <= |list| && tape == C.DowngradeTestsets(old(tape), list[..i])
      {
        var j := list[i];
        assert list[..i + 1] == list[..i] + [j];
        assert j in list;
        if j != 0 {
          assert IsControl(tape[j - 1]);
          match tape[j - 1] {
            case TESTSET(dst, src, inverted) =>
              if dst == NO_REG {
                tape := tape[j - 1 := TEST(src, !inverted)];
              }
            case _ =>
          }
        }
        i := i + 1;
      }
      assert list[..|list|] == list;
    }

    method PatchTo(list: seq<nat>, target: nat)
      requires Controlled(tape, list) && AreJumps(tape, list)
      modifies this`tape, this`lastTarget
      ensures C.PatchTo(old(View()), list, target) == Ok(View())
    {
      DowngradeTestsets(list);
      ghost var lowered := tape;
      var i := 0;
      while i < |list|
        invariant i <= |list| && lastTarget == old(lastTarget) && tape == AimJumps(lowered, list[..i], target)
      {
        var j := list[i];
        assert list[..i + 1] == list[..i] + [j];
        assert j in list;
        assert tape[j].JMP?;
        tape := tape[j := JMP(target - (j + 1))];
        i := i + 1;
      }
      assert list[..|list|] == list;
      if target > lastTarget {
        lastTarget := target;
      }
    }

    /** Where a list holds the last instruction of a tape of this length. */
    static method FindLast(l: seq<nat>, end: nat) returns (pos: nat)
      ensures pos == if end == 0 then |l| else Position(l, end - 1)
      ensures pos <= |l| && (pos < |l| ==> l[pos] + 1 == end)
    {
      pos := 0;
      while pos < |l| && l[pos] + 1 != end
        invariant pos <= |l| && (end > 0 ==> Position(l, end - 1) == pos + Position(l[pos..], end - 1))
      {
        assert l[pos..][1..] == l[pos + 1..];
        pos := pos + 1;
      }
    }

    /** Pops no-op pairs off the tail, then aims what is left at the next instruction. */
    method PatchToHere(list: seq<nat>)
      requires C.PatchToHere(View(), list).Ok?
      modifies this`tape, this`lastTarget, this`orphans
      ensures C.PatchToHere(old(View()), list) == Ok(View())
    {
      var l := list;
      while true
        invariant C.PatchToHere(View(), l) == C.PatchToHere(old(View()), list)
        decreases |l|
      {
        G.PatchToHereStep(View(), l);
        var pos := FindLast(l, |tape|);
        if pos == |l| {
          break;
        }
        var j := l[pos];
        if j == 0 || !Elidable(tape[j - 1]) {
          break;
        }
        orphans := orphans || !NothingPast(View(), j - 1);
        tape := tape[..j - 1];
        l := l[..pos] + l[pos + 1..];
      }
      PatchTo(l, |tape|);
    }

    /** Does some jump of the list need the boolean tail? */
    method NeedValue(list: seq<nat>) returns (need: bool)
      requires Controlled(tape, list)
      ensures need == C.NeedValue(tape, list)
    {
      var i := 0;
      while i < |list|
        invariant i <= |list| && !C.NeedValue(tape, list[..i])
      {
        var j := list[i];
        assert j in list;
        if j == 0 {
          return true;
        }
        assert IsControl(tape[j - 1]);
        if !(tape[j - 1].TESTSET? && tape[j - 1].dst == NO_REG) {
          return true;
        }
        assert list[..i + 1] == list[..i] + [j];
        i := i + 1;
      }
      assert list[..|list|] == list;
      return false;
    }

    /** Aims the jumps of a list at a merge point, or at the boolean tail. */
    method PatchListAux(list: seq<nat>, vtarget: int, reg: nat, dtarget: int)
      modifies this`tape
      ensures tape == C.PatchListAux(old(tape), list, vtarget, reg, dtarget)
    {
      var i := 0;
      while i < |list|
        invariant i <= |list|
        invariant C.PatchListAux(tape, list[i..], vtarget, reg, dtarget) ==
          C.PatchListAux(old(tape), list, vtarget, reg, dtarget)
      {
        var j := list[i];
        assert list[i..][1..] == list[i + 1..];
        var target := dtarget;
        if 0 < j <= |tape| && tape[j - 1].TESTSET? && tape[j - 1].dst == NO_REG {
          var control := tape[j - 1];
          if control.src == reg {
            tape := tape[j - 1 := TEST(control.src, !control.inverted)];
          } else {
            tape := tape[j - 1 := TESTSET(reg, control.src, control.inverted)];
          }
          target := vtarget;
        }
        if j < |tape| && tape[j].JMP? {
          tape := tape[j := JMP(target - (j + 1))];
        }
        i := i + 1;
      }
    }

    method EmitTestJump(src: nat, ifTruthy: bool) returns (j: nat)
      modifies this`tape
      ensures (j, View()) == C.EmitTestJump(old(View()), src, ifTruthy)
    {
      Emit(TESTSET(NO_REG, src, !ifTruthy));
      j := |tape|;
      Emit(JMP(0));
    }

    method FlipControl(j: nat)
      requires C.FlipControl(View(), j).Ok?
      modifies this`tape
      ensures C.FlipControl(old(View()), j) == Ok(View())
    {
      if j == 0 {
        return;
      }
      match tape[j - 1] {
        case CMP(op, l, r, inverted) => tape := tape[j - 1 := CMP(op, l, r, !inverted)];
        case TEST(s, inverted) => tape := tape[j - 1 := TEST(s, !inverted)];
        case TESTSET(d, s, inverted) => tape := tape[j - 1 := TESTSET(d, s, !inverted)];
        case _ => assert false;
      }
    }

    method NegateCond(d: Desc) returns (e: Desc)
      requires C.NegateCond(View(), d).Ok?
      modifies this`tape
      ensures C.NegateCond(old(View()), d) == Ok((e, View()))
    {
      var all := d.tl + d.fl;
      var i := 0;
      while i < |all|
        invariant i <= |all| && C.FlipAll(View(), all[i..]) == C.FlipAll(old(View()), all)
      {
        assert all[i..][1..] == all[i + 1..];
        FlipControl(all[i]);
        i := i + 1;
      }
      e := d.(tl := d.fl, fl := d.tl);
    }

    method CodeNot(d: Desc, kind: Kind) returns (e: Desc)
      requires C.CodeNot(View(), d, kind).Ok?
      modifies this`tape
      ensures C.CodeNot(old(View()), d, kind) == Ok((e, View()))
    {
      DowngradeTestsets(d.tl);
      DowngradeTestsets(d.fl);
      e := Desc(kind, d.fl, d.tl);
    }

    // ----- discharge -----

    /** The boolean tail, behind a jump for a value that falls through. */
    method EmitTail(dst: nat, isJump: bool) returns (r: Result<nat>)
      modifies this`tape, this`consts
      ensures match C.AllocConstant(old(View()), Bool(true))
              case Ok((idx, c)) =>
                r == Ok(if isJump then |old(tape)| else |old(tape)| + 1)
                && View() == c.(tape := old(tape) + TailCode(dst, isJump, idx))
              case Err(e) => r == Err(e)
    {
      if !isJump {
        Emit(JMP(0));
      }
      var ft := |tape|;
      Emit(LFALSESKIP(dst));
      var idx :- AllocConstant(Bool(true));
      Emit(LOAD(dst, idx));
      assert tape == old(tape) + TailCode(dst, isJump, idx);
      return Ok(ft);
    }

    method PatchBoth(d: Desc, final: int, dst: nat, ft: int, tt: int)
      modifies this`tape
      ensures tape == PatchedBoth(old(tape), d, final, dst, ft, tt)
      ensures forall n :: 0 <= n < |tape| && old(tape)[n].JMP? ==> tape[n].JMP?
    {
      forall n | 0 <= n < |tape| && tape[n].JMP? ensures PatchedBoth(tape, d, final, dst, ft, tt)[n].JMP? {
        JumpStays(tape, d.fl, final, dst, ft, n);
        JumpStays(C.PatchListAux(tape, d.fl, final, dst, ft), d.tl, final, dst, tt, n);
      }
      PatchListAux(d.fl, final, dst, ft);
      PatchListAux(d.tl, final, dst, tt);
    }

    /** Resolves the lists of an expression whose value, if any, is in `dst`. */
    method ResolveLists(d: Desc, dst: nat, isJump: bool) returns (r: Result<()>)
      requires NoPanic(C.ResolveLists(View(), d, dst, isJump))
      modifies this`tape, this`consts
      ensures match C.ResolveLists(old(View()), d, dst, isJump)
              case Ok(c) => r == Ok(()) && View() == c
              case Err(e) => r == Err(e)
    {
      var need := NeedValue(d.fl);
      if !need {
        need := NeedValue(d.tl);
      }
      assert C.ResolveLists(View(), d, dst, isJump) ==
        if need then C.ResolveTail(View(), d, dst, isJump) else Ok(C.ResolvePlain(View(), d, dst));
      var n, ft, tt := |tape|, 0, 0;
      if need {
        ft :- EmitTail(dst, isJump);
        tt := ft + 1;
      }
      var final := |tape|;
      PatchBoth(d, final, dst, ft, tt);
      if need && !isJump {
        assert tape[n].JMP? && final == n + 3;
        tape := tape[n := JMP(final - (n + 1))];
        assert Ok(View()) == C.ResolveTail(old(View()), d, dst, isJump);
      }
      return Ok(());
    }

    /** `discharge_to_reg_mut` without a hint: the value in a register, nothing pending. */
    method Discharge(d: Desc) returns (r: Result<nat>)
      requires NoPanic(C.Discharge(View(), d)) && nactvar <= freereg
      modifies this
      ensures Did(C.Discharge(old(View()), d), r, View())
    {
      if d.kind.InReg? && !HasJumps(d) {
        return Ok(d.kind.r);
      }
      var expr := d;
      if expr.kind.Literal? {
        var idx :- AllocConstant(expr.kind.v);
        var dst :- ReserveReg();
        Emit(LOAD(dst, idx));
        expr := expr.(kind := InReg(dst));
        if !HasJumps(expr) {
          return Ok(dst);
        }
      }
      var isJump, dst := expr.kind.Jump?, 0;
      match expr.kind {
        case InReg(reg) =>
          if reg < nactvar {
            dst :- ReserveReg();
            Emit(MOVE(dst, reg));
          } else {
            dst := reg;
          }
        case Jump(_) => dst :- ReserveReg();
        case Literal(_) => assert false;
      }
      if isJump && expr.kind.head.Some? {
        expr := Desc(Jump(None), expr.tl + [expr.kind.head.value], expr.fl);
      }
      if HasJumps(expr) {
        var _ :- ResolveLists(expr, dst, isJump);
      }
      return Ok(dst);
    }

    // ----- going by truth -----

    /** Fall through when the expression is truthy. */
    method GoIfTrue(d: Desc) returns (r: Result<Desc>)
      requires NoPanic(C.GoIfTrue(View(), d)) && nactvar <= freereg
      modifies this
      ensures Did(C.GoIfTrue(old(View()), d), r, View())
    {
      if d.kind.Literal? && Truthy(d.kind.v) {
        return Ok(d);
      }
      var expr := d;
      if expr.kind.Literal? {
        var reg :- Discharge(expr);
        expr := Desc(InReg(reg), [], []);
      }
      match expr.kind {
        case Jump(Some(j)) =>
          FlipControl(j);
          return Ok(Desc(Jump(None), expr.tl, expr.fl + [j]));
        case Jump(None) =>
          if expr.fl == [] && expr.tl != [] {
            FlipAllFails(View(), expr.tl + expr.fl);
            expr := NegateCond(expr);
          }
          return Ok(expr);
        case InReg(reg) =>
          FreeReg(reg);
          var j := EmitTestJump(reg, false);
          return Ok(expr.(fl := expr.fl + [j]));
      }
    }

    /** Fall through when the expression is falsy. */
    method GoIfFalse(d: Desc) returns (r: Result<Desc>)
      requires NoPanic(C.GoIfFalse(View(), d)) && nactvar <= freereg
      modifies this
      ensures Did(C.GoIfFalse(old(View()), d), r, View())
    {
      if d.kind.Literal? && !Truthy(d.kind.v) {
        return Ok(d);
      }
      var expr := d;
      if expr.kind.Literal? {
        var reg :- Discharge(expr);
        expr := Desc(InReg(reg), [], []);
      }
      match expr.kind {
        case Jump(Some(j)) => return Ok(Desc(Jump(None), expr.tl + [j], expr.fl));
        case Jump(None) =>
          if expr.tl == [] && expr.fl != [] {
            FlipAllFails(View(), expr.tl + expr.fl);
            expr := NegateCond(expr);
          }
          return Ok(expr);
        case InReg(reg) =>
          FreeReg(reg);
          var j := EmitTestJump(reg, true);
          return Ok(expr.(tl := expr.tl + [j]));
      }
    }

    // ----- expressions -----

    method CompileNot(d: Desc) returns (r: Result<Desc>)
      requires NoPanic(C.CompileNot(View(), d)) && nactvar <= freereg
      modifies this
      ensures Did(C.CompileNot(old(View()), d), r, View())
    {
      if d.kind.Literal? && !HasJumps(d) {
        return Ok(Desc(Literal(Bool(!Truthy(d.kind.v))), [], []));
      }
      var e: Desc;
      match d.kind {
        case Jump(Some(j)) =>
          FlipControl(j);
          e := CodeNot(d, d.kind);
        case Jump(None) => assert false;
        case InReg(src) =>
          FreeReg(src);
          var dst :- ReserveReg();
          Emit(NOT(dst, src));
          e := CodeNot(d, InReg(dst));
        case Literal(v) => e := CodeNot(d, Literal(Bool(!Truthy(v))));
      }
      return Ok(e);
    }

    /** The expression compiled, its jumps pending; the scopes and the order of temporaries make it panic-free. */
    method CompileExpr(e: Expr) returns (r: Result<Desc>)
      requires Room(View()) && WellScoped(e, nactvar)
      modifies this
      ensures Did(C.CompileExpr(old(View()), e), r, View())
      decreases e, 1
    {
      match e {
        case Local(reg) => return Ok(Desc(InReg(reg), [], []));
        case Const(v) => return Ok(Desc(Literal(v), [], []));
        case Paren(x) => r := CompileExpr(x);
        case Not(x) =>
          ghost var ch := View();
          ExprShape(ch, x);
          var d :- CompileExpr(x);
          NotShape(View(), |ch.tape|, ch.freereg, d);
          r := CompileNot(d);
        case And(x, y) => r := CompileAnd(x, y);
        case Or(x, y) => r := CompileOr(x, y);
        case Compare(op, x, y) => r := CompileComparison(op, x, y);
      }
    }

    method CompileAnd(x: Expr, y: Expr) returns (r: Result<Desc>)
      requires Room(View()) && WellScoped(x, nactvar) && WellScoped(y, nactvar)
      modifies this
      ensures Did(C.CompileExpr(old(View()), And(x, y)), r, View())
      decreases And(x, y), 0
    {
      ghost var ch := View();
      ExprShape(ch, x);
      LogicCases(ch, true, x, y);
      var lhs :- CompileExpr(x);
      GoIfShape(View(), |ch.tape|, ch.freereg, lhs, true);
      LeftShape(View(), |ch.tape|, ch.freereg, lhs, true);
      ghost var c := View();
      lhs :- GoIfTrue(lhs);
      G.PatchToHereShape(View(), |ch.tape|, lhs.tl, lhs.fl);
      PatchToHere(lhs.tl);
      var rhs :- CompileExpr(y);
      return Ok(rhs.(fl := rhs.fl + lhs.fl));
    }

    method CompileOr(x: Expr, y: Expr) returns (r: Result<Desc>)
      requires Room(View()) && WellScoped(x, nactvar) && WellScoped(y, nactvar)
      modifies this
      ensures Did(C.CompileExpr(old(View()), Or(x, y)), r, View())
      decreases Or(x, y), 0
    {
      ghost var ch := View();
      ExprShape(ch, x);
      LogicCases(ch, false, x, y);
      var lhs :- CompileExpr(x);
      GoIfShape(View(), |ch.tape|, ch.freereg, lhs, false);
      LeftShape(View(), |ch.tape|, ch.freereg, lhs, false);
      lhs :- GoIfFalse(lhs);
      G.PatchToHereShape(View(), |ch.tape|, lhs.fl, lhs.tl);
      PatchToHere(lhs.fl);
      var rhs :- CompileExpr(y);
      return Ok(rhs.(tl := rhs.tl + lhs.tl));
    }

    method CompileComparison(op: Comparison, x: Expr, y: Expr) returns (r: Result<Desc>)
      requires Room(View()) && WellScoped(x, nactvar) && WellScoped(y, nactvar)
      modifies this
      ensures Did(C.CompileExpr(old(View()), Compare(op, x, y)), r, View())
      decreases Compare(op, x, y), 0
    {
      ghost var ch := View();
      RegShape(ch, x);
      var lhs :- CompileToReg(x);
      ghost var c1 := View();
      RegShape(c1, y);
      var rhs :- CompileToReg(y);
      CompareCase(ch, op, x, y, lhs, c1, rhs, View());
      RegsCompared(c1, View(), op, ch.freereg, lhs, rhs);
      var d := CompareOperands(op, lhs, rhs);
      return Ok(d);
    }

    /** `CMP` and its unfilled jump, and the operands' temporaries reclaimed. */
    method CompareOperands(op: Comparison, lhs: nat, rhs: nat) returns (d: Desc)
      requires CompareRegs(View(), op, lhs, rhs).Ok?
      modifies this
      ensures CompareRegs(old(View()), op, lhs, rhs) == Ok((d, View()))
    {
      Emit(CompareInstr(op, lhs, rhs));
      var j := |tape|;
      Emit(JMP(0));
      FreeRegs(lhs, rhs);
      d := Desc(Jump(Some(j)), [], []);
    }

    method CompileToReg(e: Expr) returns (r: Result<nat>)
      requires Room(View()) && WellScoped(e, nactvar)
      modifies this
      ensures Did(C.CompileToReg(old(View()), e), r, View())
      decreases e, 2
    {
      ghost var ch := View();
      ExprShape(ch, e);
      var d :- CompileExpr(e);
      DischargeOk(View(), |ch.tape|, ch.freereg, d);
      r := Discharge(d);
    }

    /** A condition; the jumps returned are taken when it is false. */
    method CompileBranch(e: Expr) returns (r: Result<seq<nat>>)
      requires Room(View()) && WellScoped(e, nactvar)
      modifies this
      ensures Did(C.CompileBranch(old(View()), e), r, View())
    {
      ghost var ch := View();
      ExprShape(ch, e);
      BranchCases(ch, e);
      var d :- CompileExpr(e);
      GoIfShape(View(), |ch.tape|, ch.freereg, d, true);
      d :- GoIfTrue(d);
      G.PatchToHereShape(View(), |ch.tape|, d.tl, d.fl);
      PatchToHere(d.tl);
      return Ok(d.fl);
    }

    // ----- statements -----

    method NewLabel() returns (l: nat)
      modifies this`labels
      ensures (l, View()) == LuaStmt.NewLabel(old(View()))
    {
      l := |labels| % LABELS;
      labels := labels + [0];
    }

    method SetLabel(l: nat, at: nat)
      requires l < |labels|
      modifies this`labels, this`lastTarget
      ensures LuaStmt.SetLabel(old(View()), l, at) == Ok(View())
    {
      labels := labels[l := at];
      if at > lastTarget {
        lastTarget := at;
      }
    }

    method EmitJump(l: nat)
      modifies this`tape, this`patches
      ensures View() == LuaStmt.EmitJump(old(View()), l)
    {
      patches := patches + [(|tape|, l)];
      Emit(JMP(0));
    }

    /** The outcome of compiling a statement. */
    static ghost predicate Compiles(f: Result<Chunk>, r: Result<()>, after: Chunk) {
      match f
      case Ok(c) => r == Ok(()) && after == c
      case Err(e) => r == Err(e)
    }

    method CompileStmt(s: Stmt, brk: Option<nat>) returns (r: Result<()>)
      requires Room(View()) && Neat(View()) && StmtOk(s, nactvar) && BreakOk(View(), brk)
      modifies this
      ensures Compiles(LuaStmt.CompileStmt(old(View()), s, brk), r, View())
      decreases s, 1
    {
      match s {
        case Work(id) => Emit(WORK(id));
        case Break =>
          if brk.None? {
            return Err(Outside);
          }
          EmitJump(brk.value);
        case Do(b) =>
          r := CompileScope(b, brk);
          return;
        case If(arms) =>
          LabelGrows(View());
          var end := NewLabel();
          ArmsGrow(View(), arms, end, brk);
          var _ :- CompileArms(arms, end, brk);
          SetLabel(end, |tape|);
        case While(cond, b) =>
          r := CompileWhile(cond, b, brk);
          return;
        case Repeat(b, cond) =>
          r := CompileRepeat(b, cond, brk);
          return;
      }
      return Ok(());
    }

    method CompileBlock(b: Block, brk: Option<nat>) returns (r: Result<()>)
      requires Room(View()) && Neat(View()) && BlockOk(b, nactvar) && BreakOk(View(), brk)
      modifies this
      ensures Compiles(LuaStmt.CompileBlock(old(View()), b, brk), r, View())
      decreases b, 1
    {
      match b {
        case Nothing => return Ok(());
        case Then(s, rest) =>
          StmtGrows(View(), s, brk);
          var _ :- CompileStmt(s, brk);
          r := CompileBlock(rest, brk);
      }
    }

    /** A block in a scope of its own, whose registers are given back. */
    method CompileScope(b: Block, brk: Option<nat>) returns (r: Result<()>)
      requires Room(View()) && Neat(View()) && BlockOk(b, nactvar) && BreakOk(View(), brk)
      modifies this
      ensures Compiles(LuaStmt.CompileScope(old(View()), b, brk), r, View())
      decreases b, 2
    {
      var mark := (freereg, nactvar);
      var _ :- CompileBlock(b, brk);
      freereg, nactvar := mark.0, mark.1;
      return Ok(());
    }

    method CompileArms(arms: Arms, end: nat, brk: Option<nat>) returns (r: Result<()>)
      requires Room(View()) && Neat(View()) && ArmsOk(arms, nactvar) && BreakOk(View(), brk) && end < |labels|
      modifies this
      ensures Compiles(LuaStmt.CompileArms(old(View()), arms, end, brk), r, View())
      decreases arms, 1
    {
      match arms {
        case Fi => return Ok(());
        case Else(b) => r := CompileScope(b, brk);
        case Arm(cond, b, rest) =>
          ghost var ch := View();
          BranchShape(ch, cond);
          var list :- CompileBranch(cond);
          ghost var c1 := View();
          BranchedNeat(ch, list, c1);
          BlockGrows(c1, b, brk);
          var _ :- CompileScope(b, brk);
          ghost var c2 := View();
          if !rest.Fi? {
            EmitJump(end);
          }
          ArmEndGrows(c1, c2, rest, end);
          ArmCloses(ch, list, c1, View());
          PatchToHere(list);
          r := CompileArms(rest, end, brk);
      }
    }

    /** The jumps of a list become jumps to a label. */
    method ListToLabel(list: seq<nat>, l: nat)
      requires Controlled(tape, list)
      modifies this`tape, this`patches
      ensures View() == old(View()).(tape := C.DowngradeTestsets(old(tape), list),
        patches := old(patches) + PatchesTo(list, l))
      ensures LuaStmt.ListToLabel(old(View()), list, l) == Ok(View())
    {
      DowngradeTestsets(list);
      ghost var lowered := tape;
      var i := 0;
      while i < |list|
        invariant i <= |list| && tape == lowered && patches == old(patches) + PatchesTo(list[..i], l)
      {
        patches := patches + [(list[i], l)];
        assert list[..i + 1] == list[..i] + [list[i]];
        i := i + 1;
      }
      assert list[..|list|] == list;
    }

    /** The labels of a `while` loop, the one at its top in place. */
    method OpenLoop() returns (out: nat, top: nat)
      modifies this`labels, this`lastTarget
      ensures (out, top, View()) == WhileStart(old(View()))
    {
      out := NewLabel();
      top := NewLabel();
      SetLabel(top, |tape|);
    }

    /** The jump back, the way out for the condition's list, and the end of the scope. */
    method CloseLoop(list: seq<nat>, top: nat, out: nat, mark: (nat, nat), ghost c2: Chunk, ghost c3: Chunk)
      requires Neat(c2) && Branched(c2, list, c3) && Grown(c3, View()) && Neat(View())
      requires top < |labels| && out < |labels|
      modifies this`tape, this`patches, this`labels, this`lastTarget, this`freereg, this`nactvar
      ensures Controlled(LuaStmt.EmitJump(old(View()), top).tape, list)
      ensures var e := WhileEnd(old(View()), top, list, out);
        var c := LuaStmt.SetLabel(e, out, |e.tape|);
        c.Ok? && View() == c.value.(freereg := mark.0, nactvar := mark.1)
    {
      WhileEndGrows(c2, list, c3, View(), top, out);
      EmitJump(top);
      ListToLabel(list, out);
      SetLabel(out, |tape|);
      freereg, nactvar := mark.0, mark.1;
    }

    method CompileWhile(cond: Expr, b: Block, brk: Option<nat>) returns (r: Result<()>)
      requires Room(View()) && Neat(View()) && StmtOk(While(cond, b), nactvar)
      modifies this
      ensures Compiles(LuaStmt.CompileStmt(old(View()), While(cond, b), brk), r, View())
      decreases While(cond, b), 0
    {
      ghost var ch := View();
      WhileStartGrows(ch);
      WhileCases(ch, cond, b, brk);
      var mark := (freereg, nactvar);
      var out, top := OpenLoop();
      ghost var c2 := View();
      BranchShape(c2, cond);
      var list :- CompileBranch(cond);
      ghost var c3 := View();
      BranchedNeat(c2, list, c3);
      BlockGrows(c3, b, Some(out));
      var _ :- CompileBlock(b, Some(out));
      CloseLoop(list, top, out, mark, c2, c3);
      return Ok(());
    }

    /** The jumps back, the end of the scope, and the label behind the loop. */
    method CloseRepeat(list: seq<nat>, start: nat, mark: (nat, nat), out: nat)
      requires Controlled(tape, list) && AreJumps(tape, list) && out < |labels|
      modifies this`tape, this`lastTarget, this`freereg, this`nactvar, this`labels
      ensures var c := C.PatchTo(old(View()), list, start);
        c.Ok? && LuaStmt.SetLabel(c.value.(freereg := mark.0, nactvar := mark.1), out, |c.value.tape|) == Ok(View())
    {
      PatchTo(list, start);
      freereg, nactvar := mark.0, mark.1;
      SetLabel(out, |tape|);
    }

    method CompileRepeat(b: Block, cond: Expr, brk: Option<nat>) returns (r: Result<()>)
      requires Room(View()) && Neat(View()) && StmtOk(Repeat(b, cond), nactvar)
      modifies this
      ensures Compiles(LuaStmt.CompileStmt(old(View()), Repeat(b, cond), brk), r, View())
      decreases Repeat(b, cond), 0
    {
      LabelGrows(View());
      var out := NewLabel();
      var mark, start := (freereg, nactvar), |tape|;
      BlockGrows(View(), b, Some(out));
      var _ :- CompileBlock(b, Some(out));
      ghost var c1 := View();
      BranchShape(c1, cond);
      var list :- CompileBranch(cond);
      WaitsAfter(c1, list, View());
      CloseRepeat(list, start, mark, out);
      return Ok(());
    }

    // ----- assembly -----

    /** Aims the labelled jumps; the code that results is the one the program theorems speak of. */
    method Assemble() returns (code: seq<Instr>)
      requires Neat(View())
      modifies this`tape
      ensures Assembled(old(tape), labels, patches) == Ok(code) && Aimed(old(View()), code)
    {
      AssembledAims(View(), tape, 0);
      assert patches[0..] == patches;
      var i := 0;
      while i < |patches|
        invariant i <= |patches| && labels == old(labels) && patches == old(patches)
        invariant Assembled(tape, labels, patches[i..]) == Assembled(old(tape), labels, patches)
      {
        var (j, l) := patches[i];
        assert patches[i..][1..] == patches[i + 1..];
        tape := tape[j := JMP(labels[l] as int - (j + 1))];
        i := i + 1;
      }
      return tape;
    }
  }

  lemma {:induction false} JumpStays(tape: seq<Instr>, list: seq<nat>, vtarget: int, reg: nat, dtarget: int, n: nat)
    requires n < |tape| && tape[n].JMP?
    ensures C.PatchListAux(tape, list, vtarget, reg, dtarget)[n].JMP?
    decreases |list|
  {
    if list != [] {
      JumpStays(PatchOne(tape, list[0], vtarget, reg, dtarget), list[1..], vtarget, reg, dtarget, n);
    }
  }

  lemma {:induction false} FlipAllFails(ch: Chunk, list: seq<nat>)
    ensures FlipAll(ch, list).Err? ==> FlipAll(ch, list).fail == Panic
    decreases |list|
  {
    if list != [] && C.FlipControl(ch, list[0]).Ok? {
      FlipAllFails(C.FlipControl(ch, list[0]).value, list[1..]);
    }
  }
}
