/** Every statement grows the chunk it is compiled into. */
module LuaGrowth {
  import opened Prelude
  import opened LuaVm
  import opened LuaCompile
  import opened LuaDesc
  import opened LuaGo
  import opened LuaCorrect
  import opened LuaStmt
  import opened LuaLayout

  lemma BranchedNeat(ch: Chunk, list: seq<nat>, c: Chunk)
    requires Neat(ch) && Branched(ch, list, c)
    ensures Neat(c) && ch.tape <= c.tape
  {
    FollowsExtends(ch, c);
    forall k | 0 <= k < |c.patches| ensures PatchOk(c, k) { assert PatchOk(ch, k); }
  }

  /** The jumps of a condition still follow their controls. */
  lemma WaitsAfter(ch: Chunk, list: seq<nat>, c: Chunk)
    requires Neat(ch) && Branched(ch, list, c)
    ensures Neat(c) && ch.tape <= c.tape && Controlled(c.tape, list) && AreJumps(c.tape, list)
  {
    BranchedNeat(ch, list, c);
    StillWaiting(ch, list, c, c.tape);
    WaitingControlled(c.tape, |ch.tape|, |c.tape|, list);
  }

  /** A condition, code behind it, and then the condition's list patched. */
  lemma ConditionGrows(ch: Chunk, list: seq<nat>, c: Chunk, d: Chunk, e: Chunk, target: Option<nat>)
    requires Branched(ch, list, c) && Grown(c, d) && Neat(d)
    requires Patched(d.tape, e.tape, list, target) && e == d.(tape := e.tape, lastTarget := e.lastTarget)
    ensures Grown(ch, e) && Neat(e) && PatchesFrom(ch, e, |c.tape|)
    ensures Waiting(d.tape, |ch.tape|, |c.tape|, list)
    ensures forall i :: |c.tape| <= i < |d.tape| ==> e.tape[i] == d.tape[i]
  {
    StillWaiting(ch, list, c, d.tape);
    PatchedGrows(ch.tape, d.tape, e.tape, |c.tape|, list, target);
    PatchedNeat(d, e);
  }

  function PatchesTo(list: seq<nat>, l: nat): seq<(nat, nat)> {
    seq(|list|, i requires 0 <= i < |list| => (list[i], l))
  }

  lemma ListPatchesNeat(a: Chunk, c: Chunk, d: Chunk, list: seq<nat>, l: nat, mid: nat)
    requires Neat(a) && Neat(c) && PatchesFrom(a, c, mid) && d == c.(patches := c.patches + PatchesTo(list, l))
    requires l < |c.labels| && NoDup(list)
    requires forall j :: j in list ==> |a.tape| <= j < mid && j < |c.tape| && c.tape[j].JMP?
    ensures Neat(d)
  {
    var n := |c.patches|;
    forall k | 0 <= k < |d.patches| ensures PatchOk(d, k) {
      if k < n {
        assert PatchOk(c, k);
      } else {
        assert d.patches[k] == (list[k - n], l) && list[k - n] in list;
      }
    }
    forall i, j | 0 <= i < j < |d.patches| ensures d.patches[i].0 != d.patches[j].0 {
      if j >= n {
        assert d.patches[j].0 == list[j - n] && list[j - n] in list;
        if i >= n {
          assert d.patches[i].0 == list[i - n];
        } else if i < |a.patches| {
          assert PatchOk(a, i) && d.patches[i] == a.patches[i];
        }
      }
    }
  }

  lemma ListPatchesGrow(a: Chunk, c: Chunk, d: Chunk, list: seq<nat>, l: nat)
    requires Grown(a, c) && d == c.(patches := c.patches + PatchesTo(list, l))
    requires forall j :: j in list ==> |a.tape| <= j
    ensures Grown(a, d)
  {
    forall i | |a.patches| <= i < |d.patches| ensures |a.tape| <= d.patches[i].0 {
      if i >= |c.patches| { assert list[i - |c.patches|] in list; }
    }
  }

  lemma GrownSame(ch: Chunk)
    ensures Grown(ch, ch)
  {
  }

  // ----- statements -----

  predicate BreakOk(ch: Chunk, brk: Option<nat>) {
    brk.Some? ==> brk.value < |ch.labels|
  }

  ghost predicate StmtShapeOk(ch: Chunk, r: Result<Chunk>) {
    match r
    case Err(f) => f != Panic
    case Ok(c) => Grown(ch, c) && Neat(c)
  }

  lemma {:induction false} StmtGrows(ch: Chunk, s: Stmt, brk: Option<nat>)
    requires Room(ch) && Neat(ch) && StmtOk(s, ch.nactvar) && BreakOk(ch, brk)
    ensures StmtShapeOk(ch, CompileStmt(ch, s, brk))
    decreases s, 1
  {
    match s {
      case Work(id) => EmitGrows(ch, WORK(id));
      case Break => if brk.Some? { JumpGrows(ch, brk.value); }
      case Do(b) => BlockGrows(ch, b, brk);
      case If(arms) =>
        LabelGrows(ch);
        var (end, c) := NewLabel(ch);
        ArmsGrow(c, arms, end, brk);
        if CompileArms(c, arms, end, brk).Ok? {
          var c1 := CompileArms(c, arms, end, brk).value;
          GrownTrans(ch, c, c1);
          PlaceGrows(ch, c1, end, |c1.tape|);
        }
      case While(cond, b) => WhileGrows(ch, cond, b, brk);
      case Repeat(b, cond) => RepeatGrows(ch, b, cond, brk);
    }
  }

  lemma {:induction false} BlockGrows(ch: Chunk, b: Block, brk: Option<nat>)
    requires Room(ch) && Neat(ch) && BlockOk(b, ch.nactvar) && BreakOk(ch, brk)
    ensures StmtShapeOk(ch, CompileBlock(ch, b, brk))
    ensures CompileScope(ch, b, brk) == CompileBlock(ch, b, brk)
    decreases b, 1
  {
    match b {
      case Nothing => GrownSame(ch);
      case Then(s, rest) =>
        StmtGrows(ch, s, brk);
        if CompileStmt(ch, s, brk).Ok? {
          var c := CompileStmt(ch, s, brk).value;
          BlockGrows(c, rest, brk);
          if CompileBlock(c, rest, brk).Ok? { GrownTrans(ch, c, CompileBlock(c, rest, brk).value); }
        }
    }
    if CompileBlock(ch, b, brk).Ok? {
      assert Scoped(ch, CompileBlock(ch, b, brk).value) == CompileBlock(ch, b, brk).value;
    }
  }

  /** The chunk after an arm's body, its jump to the end if another arm follows. */
  function ArmEnd(c: Chunk, rest: Arms, end: nat): Chunk {
    if rest.Fi? then c else EmitJump(c, end)
  }

  lemma ArmEndGrows(c1: Chunk, c2: Chunk, rest: Arms, end: nat)
    requires Grown(c1, c2) && Neat(c2) && end < |c1.labels|
    ensures Grown(c1, ArmEnd(c2, rest, end)) && Neat(ArmEnd(c2, rest, end))
  {
    if !rest.Fi? {
      JumpGrows(c2, end);
      GrownTrans(c1, c2, EmitJump(c2, end));
    }
  }

  /** A body that has left no code has left no label jump either. */
  lemma BlankPatches(ch: Chunk, list: seq<nat>, c1: Chunk, c3: Chunk)
    requires Branched(ch, list, c1) && Grown(c1, c3) && Neat(c3) && |c3.tape| == |c1.tape|
    ensures c3.tape == c1.tape && c3.patches == ch.patches
  {
    assert |c3.patches| > |c1.patches| ==> PatchOk(c3, |c1.patches|);
    assert c3.patches[..|c1.patches|] == c1.patches;
  }

  /** Behind a blank body the pairs of the condition may be taken away. */
  lemma BlankArmCloses(ch: Chunk, list: seq<nat>, c1: Chunk, c3: Chunk)
    requires Neat(ch) && Branched(ch, list, c1) && Grown(c1, c3) && Neat(c3) && |c3.tape| == |c1.tape|
    ensures PatchToHere(c3, list).Ok?
    ensures var c4 := PatchToHere(c3, list).value;
      && c4 == c3.(tape := c4.tape, orphans := c4.orphans, lastTarget := c4.lastTarget) && c4.patches == ch.patches
      && (c3.orphans ==> c4.orphans)
      && ListsOk(c4.tape, |ch.tape|, |c4.tape|, [], []) && Grown(ch, c4) && Neat(c4)
  {
    BlankPatches(ch, list, c1, c3);
    ListsSwapped(c1.tape, |ch.tape|, list);
    PatchToHereShape(c3, |ch.tape|, list, []);
    var c4 := PatchToHere(c3, list).value;
    assert ch.tape <= c4.tape by {
      assert ch.tape <= c1.tape by { FollowsExtends(ch, c1); }
      assert c4.tape[..|ch.tape|] == ch.tape;
    }
    forall k | 0 <= k < |c4.patches| ensures PatchOk(c4, k) { assert PatchOk(ch, k); }
    assert Elems([]) + Elems([]) == {};
  }

  lemma ListsSwapped(tape: seq<Instr>, start: nat, list: seq<nat>)
    requires ListsOk(tape, start, |tape|, [], list)
    ensures ListsOk(tape, start, |tape|, list, [])
  {
    assert [] + list == list == list + [];
    assert Elems([]) + Elems(list) == Elems(list) + Elems([]);
  }

  /** The list of an arm's condition brought behind its body. */
  lemma ArmCloses(ch: Chunk, list: seq<nat>, c1: Chunk, c3: Chunk)
    requires Neat(ch) && Branched(ch, list, c1) && Grown(c1, c3) && Neat(c3)
    ensures PatchToHere(c3, list).Ok?
    ensures var c4 := PatchToHere(c3, list).value; Grown(ch, c4) && Neat(c4)
  {
    if |c3.tape| == |c1.tape| {
      BlankArmCloses(ch, list, c1, c3);
    } else {
      StillWaiting(ch, list, c1, c3.tape);
      PatchHerePatches(c3, |ch.tape|, |c1.tape|, list);
      ConditionGrows(ch, list, c1, c3, PatchToHere(c3, list).value, Some(|c3.tape|));
    }
  }

  lemma {:induction false} ArmsGrow(ch: Chunk, arms: Arms, end: nat, brk: Option<nat>)
    requires Room(ch) && Neat(ch) && ArmsOk(arms, ch.nactvar) && BreakOk(ch, brk) && end < |ch.labels|
    ensures StmtShapeOk(ch, CompileArms(ch, arms, end, brk))
    decreases arms, 1
  {
    match arms {
      case Fi => GrownSame(ch);
      case Else(b) => BlockGrows(ch, b, brk);
      case Arm(cond, b, rest) => ArmGrows(ch, cond, b, rest, end, brk);
    }
  }

  lemma {:induction false} ArmGrows(ch: Chunk, cond: Expr, b: Block, rest: Arms, end: nat, brk: Option<nat>)
    requires Room(ch) && Neat(ch) && ArmsOk(Arm(cond, b, rest), ch.nactvar) && BreakOk(ch, brk) && end < |ch.labels|
    ensures StmtShapeOk(ch, CompileArms(ch, Arm(cond, b, rest), end, brk))
    decreases Arm(cond, b, rest), 0
  {
    BranchShape(ch, cond);
    if CompileBranch(ch, cond).Ok? {
      var (list, c1) := CompileBranch(ch, cond).value;
      BranchedNeat(ch, list, c1);
      BlockGrows(c1, b, brk);
      if CompileBlock(c1, b, brk).Ok? {
        var c2 := CompileBlock(c1, b, brk).value;
        ArmEndGrows(c1, c2, rest, end);
        var c3 := ArmEnd(c2, rest, end);
        ArmCloses(ch, list, c1, c3);
        var c4 := PatchToHere(c3, list).value;
        ArmsGrow(c4, rest, end, brk);
        if CompileArms(c4, rest, end, brk).Ok? { GrownTrans(ch, c4, CompileArms(c4, rest, end, brk).value); }
      }
    }
  }

  /** The chunk in which the condition of a `while` is compiled, and its two labels. */
  function WhileStart(ch: Chunk): (nat, nat, Chunk) {
    var (out, c) := NewLabel(ch);
    var (top, c1) := NewLabel(c);
    (out, top, c1.(labels := c1.labels[top := |c1.tape|], lastTarget := Max(c1.lastTarget, |c1.tape|)))
  }

  lemma WhileStartGrows(ch: Chunk)
    requires Neat(ch)
    ensures var (out, top, c) := WhileStart(ch);
      && Grown(ch, c) && Neat(c) && out < |c.labels| && top < |c.labels| && |c.labels| == |ch.labels| + 2
      && (|c.labels| <= LABELS ==> out == |ch.labels| && top == out + 1 && c.labels[top] == |ch.tape|)
      && c.tape == ch.tape && c.patches == ch.patches
  {
    LabelGrows(ch);
    var (out, c) := NewLabel(ch);
    LabelGrows(c);
    var (top, c1) := NewLabel(c);
    GrownTrans(ch, c, c1);
    PlaceGrows(ch, c1, top, |c1.tape|);
  }

  /** The end of a `while`: its back jump, and the condition's list sent to the exit label. */
  function WhileEnd(c4: Chunk, top: nat, list: seq<nat>, out: nat): Chunk {
    var c5 := EmitJump(c4, top);
    c5.(tape := DowngradeTestsets(c5.tape, list), patches := c5.patches + PatchesTo(list, out))
  }

  lemma WhileCases(ch: Chunk, cond: Expr, b: Block, brk: Option<nat>)
    requires Neat(ch)
    ensures var (out, top, c2) := WhileStart(ch);
      CompileStmt(ch, While(cond, b), brk) ==
      match CompileBranch(c2, cond) {
        case Err(f) => Err(f)
        case Ok((list, c3)) =>
          match CompileBlock(c3, b, Some(out)) {
            case Err(f) => Err(f)
            case Ok(c4) =>
              if !Controlled(EmitJump(c4, top).tape, list) then Err(Panic)
              else match SetLabel(WhileEnd(c4, top, list, out), out, |WhileEnd(c4, top, list, out).tape|) {
                case Err(f) => Err(f)
                case Ok(c7) => Ok(Scoped(ch, c7))
              }
          }
      }
  {
    WhileStartGrows(ch);
  }

  lemma DowngradePatches(tape: seq<Instr>, list: seq<nat>)
    ensures Patched(tape, DowngradeTestsets(tape, list), list, None)
  {
  }

  lemma WhileEndGrows(c2: Chunk, list: seq<nat>, c3: Chunk, c4: Chunk, top: nat, out: nat)
    requires Neat(c2) && Branched(c2, list, c3) && Grown(c3, c4) && Neat(c4) && top < |c4.labels| && out < |c4.labels|
    ensures Controlled(EmitJump(c4, top).tape, list)
    ensures var c6 := WhileEnd(c4, top, list, out);
      Grown(c2, c6) && Neat(c6) && |c3.tape| < |c6.tape|
  {
    var c5 := EmitJump(c4, top);
    JumpGrows(c4, top);
    GrownTrans(c3, c4, c5);
    var d := c5.(tape := DowngradeTestsets(c5.tape, list));
    DowngradePatches(c5.tape, list);
    ConditionGrows(c2, list, c3, c5, d, None);
    WaitingControlled(c5.tape, |c2.tape|, |c3.tape|, list);
    forall j | j in list ensures |c2.tape| <= j < |c3.tape| && d.tape[j].JMP? {
      assert PendingAt(c5.tape, |c2.tape|, |c3.tape|, j);
      assert d.tape[j] == PatchedAt(c5.tape, list, None, j);
    }
    ListPatchesNeat(c2, d, WhileEnd(c4, top, list, out), list, out, |c3.tape|);
    ListPatchesGrow(c2, d, WhileEnd(c4, top, list, out), list, out);
  }

  lemma {:induction false} WhileGrows(ch: Chunk, cond: Expr, b: Block, brk: Option<nat>)
    requires Room(ch) && Neat(ch) && StmtOk(While(cond, b), ch.nactvar)
    ensures StmtShapeOk(ch, CompileStmt(ch, While(cond, b), brk))
    decreases While(cond, b), 0
  {
    WhileCases(ch, cond, b, brk);
    WhileStartGrows(ch);
    var (out, top, c2) := WhileStart(ch);
    BranchShape(c2, cond);
    if CompileBranch(c2, cond).Ok? {
      var (list, c3) := CompileBranch(c2, cond).value;
      BranchedNeat(c2, list, c3);
      BlockGrows(c3, b, Some(out));
      if CompileBlock(c3, b, Some(out)).Ok? {
        var c4 := CompileBlock(c3, b, Some(out)).value;
        WhileEndGrows(c2, list, c3, c4, top, out);
        var c6 := WhileEnd(c4, top, list, out);
        GrownTrans(ch, c2, c6);
        PlaceGrows(ch, c6, out, |c6.tape|);
      }
    }
  }

  lemma {:induction false} RepeatGrows(ch: Chunk, b: Block, cond: Expr, brk: Option<nat>)
    requires Room(ch) && Neat(ch) && StmtOk(Repeat(b, cond), ch.nactvar)
    ensures StmtShapeOk(ch, CompileStmt(ch, Repeat(b, cond), brk))
    decreases Repeat(b, cond), 0
  {
    LabelGrows(ch);
    var (out, c) := NewLabel(ch);
    BlockGrows(c, b, Some(out));
    if CompileBlock(c, b, Some(out)).Ok? {
      var c1 := CompileBlock(c, b, Some(out)).value;
      BranchShape(c1, cond);
      if CompileBranch(c1, cond).Ok? {
        var (list, c2) := CompileBranch(c1, cond).value;
        BranchedNeat(c1, list, c2);
        GrownSame(c2);
        StillWaiting(c1, list, c2, c2.tape);
        PatchToPatches(c2, |c1.tape|, |c2.tape|, list, |ch.tape|);
        var c3 := PatchTo(c2, list, |ch.tape|).value;
        ConditionGrows(c1, list, c2, c2, c3, Some(|ch.tape|));
        GrownTrans(ch, c, c1);
        GrownTrans(ch, c1, c3);
        assert Scoped(ch, c3) == c3;
        PlaceGrows(ch, c3, out, |c3.tape|);
      }
    }
  }
}
