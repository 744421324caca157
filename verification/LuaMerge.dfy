/**
 * Where jumps merge: `last_target` reaches every place a patched jump or a label aims at, so that a
 * return at the end of the code is left out only where no jump arrives.
 */
module LuaMerge {
  import opened Prelude
  import opened LuaVm
  import opened LuaCompile
  import opened LuaCorrect
  import opened LuaOrphans
  import opened LuaStmt
  import opened LuaLayout
  import opened LuaGrowth
  import opened LuaAssemble
  import opened LuaLabels
  import opened LuaExactStmt
  import opened LuaTheorems

  // ----- labels -----

  /** The labels do not lie past `last_target`. */
  predicate LabelsSeen(c: Chunk) {
    forall k :: 0 <= k < |c.labels| ==> c.labels[k] <= c.lastTarget
  }

  /** Compiling an expression makes no label, and `last_target` only grows. */
  predicate Onward(a: Chunk, c: Chunk) {
    c.labels == a.labels && a.lastTarget <= c.lastTarget
  }

  lemma {:induction false} PatchToHereOnward(ch: Chunk, list: seq<nat>)
    ensures PatchToHere(ch, list).Ok? ==> Onward(ch, PatchToHere(ch, list).value)
    decreases |list|
  {
    var end := |ch.tape|;
    var pos := if end == 0 then |list| else Position(list, end - 1);
    if !(pos >= |list| || end == 1 || !Elidable(ch.tape[end - 2])) {
      PatchToHereOnward(ch.(tape := ch.tape[..end - 2], orphans := ch.orphans || !NothingPast(ch, end - 2)),
        list[..pos] + list[pos + 1..]);
    }
  }

  lemma {:induction false} FlipAllOnward(ch: Chunk, list: seq<nat>)
    ensures FlipAll(ch, list).Ok? ==> Onward(ch, FlipAll(ch, list).value)
    decreases |list|
  {
    if list != [] && FlipControl(ch, list[0]).Ok? { FlipAllOnward(FlipControl(ch, list[0]).value, list[1..]); }
  }

  lemma LoadOnward(ch: Chunk, d: Desc)
    ensures LoadLiteral(ch, d).Ok? ==> Onward(ch, LoadLiteral(ch, d).value.1)
  {
  }

  lemma PickOnward(ch: Chunk, d: Desc)
    ensures PickDst(ch, d).Ok? ==> Onward(ch, PickDst(ch, d).value.1)
  {
  }

  lemma ResolveOnward(ch: Chunk, d: Desc, dst: nat, isJump: bool)
    ensures ResolveLists(ch, d, dst, isJump).Ok? ==> Onward(ch, ResolveLists(ch, d, dst, isJump).value)
  {
  }

  lemma DischargeOnward(ch: Chunk, d: Desc)
    ensures Discharge(ch, d).Ok? ==> Onward(ch, Discharge(ch, d).value.1)
  {
    LoadOnward(ch, d);
    if LoadLiteral(ch, d).Ok? {
      var (d1, c1) := LoadLiteral(ch, d).value;
      PickOnward(c1, d1);
      if PickDst(c1, d1).Ok? {
        var (dst, c2) := PickDst(c1, d1).value;
        ResolveOnward(c2, Absorbed(d1), dst, d1.kind.Jump?);
      }
    }
  }

  lemma GoOnward(ch: Chunk, d: Desc)
    ensures GoIfTrue(ch, d).Ok? ==> Onward(ch, GoIfTrue(ch, d).value.1)
    ensures GoIfFalse(ch, d).Ok? ==> Onward(ch, GoIfFalse(ch, d).value.1)
  {
    DischargeOnward(ch, d);
    FlipAllOnward(ch, d.tl + d.fl);
  }

  lemma NotOnward(ch: Chunk, d: Desc)
    ensures CompileNot(ch, d).Ok? ==> Onward(ch, CompileNot(ch, d).value.1)
  {
  }

  lemma CompareOnward(ch: Chunk, op: Comparison, l: nat, r: nat)
    ensures CompareRegs(ch, op, l, r).Ok? ==> Onward(ch, CompareRegs(ch, op, l, r).value.1)
  {
  }

  lemma {:induction false} ExprOnward(ch: Chunk, e: Expr)
    ensures CompileExpr(ch, e).Ok? ==> Onward(ch, CompileExpr(ch, e).value.1)
    decreases e, 0
  {
    match e {
      case Local(_) =>
      case Const(_) =>
      case Paren(x) => ExprOnward(ch, x);
      case Not(x) =>
        ExprOnward(ch, x);
        if CompileExpr(ch, x).Ok? { NotOnward(CompileExpr(ch, x).value.1, CompileExpr(ch, x).value.0); }
      case And(x, y) =>
        ExprOnward(ch, x);
        if CompileExpr(ch, x).Ok? {
          var (d, c) := CompileExpr(ch, x).value;
          GoOnward(c, d);
          if GoIfTrue(c, d).Ok? { RightOnward(GoIfTrue(c, d).value.1, GoIfTrue(c, d).value.0.tl, y); }
        }
      case Or(x, y) =>
        ExprOnward(ch, x);
        if CompileExpr(ch, x).Ok? {
          var (d, c) := CompileExpr(ch, x).value;
          GoOnward(c, d);
          if GoIfFalse(c, d).Ok? { RightOnward(GoIfFalse(c, d).value.1, GoIfFalse(c, d).value.0.fl, y); }
        }
      case Compare(op, x, y) =>
        RegOnward(ch, x);
        if CompileToReg(ch, x).Ok? {
          var (l, c1) := CompileToReg(ch, x).value;
          RegOnward(c1, y);
          if CompileToReg(c1, y).Ok? {
            CompareOnward(CompileToReg(c1, y).value.1, op, l, CompileToReg(c1, y).value.0);
          }
        }
    }
  }

  lemma {:induction false} RightOnward(c1: Chunk, stay: seq<nat>, y: Expr)
    ensures PatchToHere(c1, stay).Ok? && CompileExpr(PatchToHere(c1, stay).value, y).Ok? ==>
              Onward(c1, CompileExpr(PatchToHere(c1, stay).value, y).value.1)
    decreases y, 2
  {
    PatchToHereOnward(c1, stay);
    if PatchToHere(c1, stay).Ok? { ExprOnward(PatchToHere(c1, stay).value, y); }
  }

  lemma {:induction false} RegOnward(ch: Chunk, e: Expr)
    ensures CompileToReg(ch, e).Ok? ==> Onward(ch, CompileToReg(ch, e).value.1)
    decreases e, 1
  {
    ExprOnward(ch, e);
    if CompileExpr(ch, e).Ok? { DischargeOnward(CompileExpr(ch, e).value.1, CompileExpr(ch, e).value.0); }
  }

  lemma BranchOnward(ch: Chunk, e: Expr)
    ensures CompileBranch(ch, e).Ok? ==> Onward(ch, CompileBranch(ch, e).value.1)
  {
    ExprOnward(ch, e);
    if CompileExpr(ch, e).Ok? {
      var (d, c) := CompileExpr(ch, e).value;
      GoOnward(c, d);
      if GoIfTrue(c, d).Ok? { PatchToHereOnward(GoIfTrue(c, d).value.1, GoIfTrue(c, d).value.0.tl); }
    }
  }

  /** The labels are still seen, and `last_target` has only grown. */
  predicate Further(a: Chunk, r: Result<Chunk>) {
    r.Ok? ==> LabelsSeen(r.value) && a.lastTarget <= r.value.lastTarget
  }

  lemma {:induction false} StmtSees(ch: Chunk, s: Stmt, brk: Option<nat>)
    requires LabelsSeen(ch)
    ensures Further(ch, CompileStmt(ch, s, brk))
    ensures (s.If? || s.While? || s.Repeat?) && CompileStmt(ch, s, brk).Ok? ==>
              |CompileStmt(ch, s, brk).value.tape| <= CompileStmt(ch, s, brk).value.lastTarget
    decreases s, 0
  {
    match s {
      case Work(_) =>
      case Break =>
      case Do(b) => BlockSees(ch, b, brk);
      case If(arms) =>
        var (end, c) := NewLabel(ch);
        ArmsSee(c, arms, end, brk);
      case While(cond, b) => WhileSees(ch, cond, b, brk);
      case Repeat(b, cond) => RepeatSees(ch, b, cond, brk);
    }
  }

  lemma {:induction false} RepeatSees(ch: Chunk, b: Block, cond: Expr, brk: Option<nat>)
    requires LabelsSeen(ch)
    ensures var r := CompileStmt(ch, Repeat(b, cond), brk);
      Further(ch, r) && (r.Ok? ==> |r.value.tape| <= r.value.lastTarget)
    decreases b, 2
  {
    var (out, c) := NewLabel(ch);
    BlockSees(c, b, Some(out));
    if CompileBlock(c, b, Some(out)).Ok? { BranchOnward(CompileBlock(c, b, Some(out)).value, cond); }
  }

  lemma {:induction false} WhileSees(ch: Chunk, cond: Expr, b: Block, brk: Option<nat>)
    requires LabelsSeen(ch)
    ensures var r := CompileStmt(ch, While(cond, b), brk);
      Further(ch, r) && (r.Ok? ==> |r.value.tape| <= r.value.lastTarget)
    decreases b, 2
  {
    var (out, c) := NewLabel(ch);
    var (top, c1) := NewLabel(c);
    if SetLabel(c1, top, |c1.tape|).Ok? {
      var c2 := SetLabel(c1, top, |c1.tape|).value;
      BranchOnward(c2, cond);
      if CompileBranch(c2, cond).Ok? { BlockSees(CompileBranch(c2, cond).value.1, b, Some(out)); }
    }
  }

  lemma {:induction false} BlockSees(ch: Chunk, b: Block, brk: Option<nat>)
    requires LabelsSeen(ch)
    ensures Further(ch, CompileBlock(ch, b, brk)) && Further(ch, CompileScope(ch, b, brk))
    decreases b, 1
  {
    match b {
      case Nothing =>
      case Then(s, rest) =>
        StmtSees(ch, s, brk);
        if CompileStmt(ch, s, brk).Ok? { BlockSees(CompileStmt(ch, s, brk).value, rest, brk); }
    }
  }

  lemma {:induction false} ArmsSee(ch: Chunk, arms: Arms, end: nat, brk: Option<nat>)
    requires LabelsSeen(ch)
    ensures Further(ch, CompileArms(ch, arms, end, brk))
    decreases arms, 1
  {
    match arms {
      case Fi =>
      case Else(b) => BlockSees(ch, b, brk);
      case Arm(cond, b, rest) =>
        BranchOnward(ch, cond);
        if CompileBranch(ch, cond).Ok? {
          var (list, c1) := CompileBranch(ch, cond).value;
          BlockSees(c1, b, brk);
          if CompileScope(c1, b, brk).Ok? {
            var c2 := CompileScope(c1, b, brk).value;
            var c3 := if rest.Fi? then c2 else EmitJump(c2, end);
            PatchToHereOnward(c3, list);
            if PatchToHere(c3, list).Ok? { ArmsSee(PatchToHere(c3, list).value, rest, end, brk); }
          }
        }
    }
  }

  // ----- the end of the code -----

  /** A jump to the end that is not a label jump has been recorded. */
  ghost predicate EndSeen(c: Chunk) {
    forall i :: 0 <= i < |c.tape| && c.tape[i].JMP? && Untouched(c, i) ==>
      i + 1 + c.tape[i].offset < |c.tape| || |c.tape| <= c.lastTarget
  }

  /** One more instruction, which is no jump or a label jump. */
  lemma LongerSeen(a: Chunk, c: Chunk, i: Instr, more: seq<(nat, nat)>)
    requires Bounded(a.tape) && c.tape == a.tape + [i] && c.patches == a.patches + more
    requires i.JMP? ==> more != [] && more[0].0 == |a.tape|
    ensures EndSeen(c)
  {
    assert more != [] ==> c.patches[|a.patches|] == more[0];
    forall k | 0 <= k < |c.tape| && c.tape[k].JMP? && Untouched(c, k)
      ensures k + 1 + c.tape[k].offset < |c.tape| || |c.tape| <= c.lastTarget
    {
      if k < |a.tape| { assert c.tape[k] == a.tape[k]; }
    }
  }

  lemma {:induction false} BlockEnds(ch: Chunk, b: Block, brk: Option<nat>)
    requires Room(ch) && Neat(ch) && BlockOk(b, ch.nactvar) && Clean(ch) && BreakLow(ch, brk)
    requires LabelsSeen(ch) && EndSeen(ch)
    requires var r := CompileBlock(ch, b, brk); r.Ok? && !r.value.orphans && |r.value.labels| <= LABELS
    ensures EndSeen(CompileBlock(ch, b, brk).value)
    decreases b, 1
  {
    if b.Then? {
      var s, c := b.s, CompileStmt(ch, b.s, brk).value;
      StmtGrows(ch, s, brk);
      StmtSees(ch, s, brk);
      BlockGrows(c, b.rest, brk);
      StmtFlag(ch, s, brk);
      StmtEnds(ch, s, brk);
      BreakStaysLow(ch, c, brk);
      BlockEnds(c, b.rest, brk);
    }
  }

  lemma {:induction false} StmtEnds(ch: Chunk, s: Stmt, brk: Option<nat>)
    requires Room(ch) && Neat(ch) && StmtOk(s, ch.nactvar) && Clean(ch) && BreakLow(ch, brk)
    requires LabelsSeen(ch) && EndSeen(ch)
    requires var r := CompileStmt(ch, s, brk); r.Ok? && !r.value.orphans && |r.value.labels| <= LABELS
    ensures EndSeen(CompileStmt(ch, s, brk).value)
    decreases s, 0
  {
    var c := CompileStmt(ch, s, brk).value;
    match s {
      case Work(id) => LongerSeen(ch, c, WORK(id), []);
      case Break => LongerSeen(ch, c, JMP(0), [(|ch.tape|, brk.value)]);
      case Do(b) =>
        BlockGrows(ch, b, brk);
        BlockEnds(ch, b, brk);
      case _ => StmtSees(ch, s, brk);
    }
  }

  /**
   * If a jump of a faithfully compiled program arrives at the end of its code, `last_target` says
   * so: code that ends in a return then gets another.
   */
  lemma MergesAreSeen(ch: Chunk, b: Block, c: Chunk, i: nat)
    requires Compiled(ch, b, c) && Clean(ch) && LabelsSeen(ch) && EndSeen(ch)
    ensures Assembled(c.tape, c.labels, c.patches).Ok?
    ensures var t := Assembled(c.tape, c.labels, c.patches).value;
      i < |t| && t[i].JMP? && i + 1 + t[i].offset >= |t| ==> |t| <= c.lastTarget
  {
    Assembles(ch, b, c);
    BlockMakes(ch, b, None);
    BlockSees(ch, b, None);
    BlockEnds(ch, b, None);
    var t := Assembled(c.tape, c.labels, c.patches).value;
    if i < |t| && t[i].JMP? && !Untouched(c, i) {
      var k :| 0 <= k < |c.patches| && c.patches[k].0 == i;
      assert AimedAt(c, t, k);
    }
  }
}
