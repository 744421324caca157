/** The flag of the compiler for statements, and the statements that leave no code. */
module LuaExactStmt {
  import opened Prelude
  import opened LuaVm
  import opened LuaCompile
  import opened LuaDesc
  import opened LuaGo
  import opened LuaCorrect
  import opened LuaStmt
  import opened LuaLayout
  import opened LuaGrowth
  import opened LuaOrphans
  import opened LuaExact
  import opened Sh = LuaShape

  /** A label that jumps may still be sent to does not lie past the code. */
  predicate Low(ch: Chunk, l: nat) {
    l < |ch.labels| && ch.labels[l] <= |ch.tape|
  }

  predicate BreakLow(ch: Chunk, brk: Option<nat>) {
    brk.Some? ==> Low(ch, brk.value)
  }

  lemma StaysLow(a: Chunk, b: Chunk, l: nat)
    requires Grown(a, b) && Low(a, l) && |b.labels| <= LABELS
    ensures Low(b, l)
  {
    assert b.labels[l] == a.labels[l];
  }

  lemma BreakStaysLow(a: Chunk, b: Chunk, brk: Option<nat>)
    requires Grown(a, b) && BreakLow(a, brk) && |b.labels| <= LABELS
    ensures BreakLow(b, brk)
  {
    if brk.Some? { StaysLow(a, b, brk.value); }
  }

  /** What compiling does to the flag, and whether it leaves code. */
  ghost predicate Outcome(ch: Chunk, c: Chunk, orphans: bool, blank: bool) {
    (c.orphans <==> orphans) && (!c.orphans ==> Clean(c) && (|c.tape| == |ch.tape| <==> blank))
  }

  // ----- the pieces -----

  /** A condition: the flag, and the shape of its code. */
  lemma BranchFlag(ch: Chunk, cond: Expr)
    requires Room(ch) && WellScoped(cond, ch.nactvar) && CompileBranch(ch, cond).Ok? && Clean(ch)
    ensures var (list, c) := CompileBranch(ch, cond).value;
      && (c.orphans <==> BranchOrphaning(cond))
      && (!c.orphans ==> Clean(c) && ShapedBy(c.tape, |ch.tape|, true, [], list, ConditionShape(cond)))
  {
    LeftFlag(ch, cond, true);
  }

  /** All pairs of a condition leave when it is false. */
  lemma {:induction false} AllLeave(tape: seq<Instr>, start: nat, list: seq<nat>, s: Shape)
    requires ShapedBy(tape, start, true, [], list, s)
    ensures forall i :: 0 <= i < |s.tail| ==> !s.tail[i].inTl
  {
    forall i | 0 <= i < |s.tail| ensures !s.tail[i].inTl {
      assert PairIs(tape, start, [], list, |tape| - 1 - 2 * i, s.tail[i]);
    }
  }

  lemma {:induction false} AllRemaining(tail: seq<Pair>)
    requires forall i :: 0 <= i < |tail| ==> !tail[i].inTl
    ensures Remaining(tail, false) == []
    decreases |tail|
  {
    if tail != [] {
      assert forall i :: 0 <= i < |tail[1..]| ==> tail[1..][i] == tail[i + 1];
      AllRemaining(tail[1..]);
    }
  }

  lemma EmitClean(ch: Chunk, i: Instr)
    requires Clean(ch) && (i.JMP? ==> i.offset <= 0)
    ensures Clean(Emit(ch, i))
  {
    var t := Emit(ch, i).tape;
    forall k | 0 <= k < |t| && t[k].JMP? ensures k + 1 + t[k].offset <= |t| {
      if k < |ch.tape| { assert t[k] == ch.tape[k]; }
    }
  }

  lemma JumpClean(ch: Chunk, l: nat)
    requires Clean(ch) && Low(ch, l)
    ensures Clean(EmitJump(ch, l))
  {
    EmitClean(ch, JMP(0));
    var c := EmitJump(ch, l);
    assert c.tape == Emit(ch, JMP(0)).tape;
    forall p | p in c.patches ensures p.0 < |c.tape| && (p.1 < |c.labels| ==> c.labels[p.1] <= |c.tape|) {
      if p !in ch.patches { assert p == (|ch.tape|, l); }
    }
  }

  lemma LabelClean(ch: Chunk)
    requires Clean(ch) && |NewLabel(ch).1.labels| <= LABELS
    ensures var (l, c) := NewLabel(ch); Clean(c) && Low(c, l)
  {
    var (l, c) := NewLabel(ch);
    forall p | p in c.patches ensures p.0 < |c.tape| && (p.1 < |c.labels| ==> c.labels[p.1] <= |c.tape|) {
      assert p in ch.patches;
    }
  }

  lemma PlaceClean(ch: Chunk, l: nat)
    requires Clean(ch) && l < |ch.labels|
    ensures SetLabel(ch, l, |ch.tape|).Ok? && Clean(SetLabel(ch, l, |ch.tape|).value)
  {
    var c := SetLabel(ch, l, |ch.tape|).value;
    forall p | p in c.patches ensures p.0 < |c.tape| && (p.1 < |c.labels| ==> c.labels[p.1] <= |c.tape|) {
      assert p in ch.patches;
    }
  }

  /** Jumps aimed inside the code. */
  lemma PatchToClean(ch: Chunk, list: seq<nat>, target: nat)
    requires Clean(ch) && PatchTo(ch, list, target).Ok? && target <= |ch.tape|
    ensures Clean(PatchTo(ch, list, target).value)
  {
    var t := PatchTo(ch, list, target).value.tape;
    forall k | 0 <= k < |t| && t[k].JMP? ensures k + 1 + t[k].offset <= |t| { AimedAt(ch.tape, list, target, k); }
  }

  /** Jumps sent to a label. */
  lemma ListToLabelClean(ch: Chunk, d: Chunk, list: seq<nat>, l: nat)
    requires Clean(ch) && Low(ch, l) && forall j :: j in list ==> j < |ch.tape|
    requires d == ch.(tape := DowngradeTestsets(ch.tape, list), patches := ch.patches + PatchesTo(list, l))
    ensures Clean(d)
  {
    forall k | 0 <= k < |d.tape| && d.tape[k].JMP? ensures d.tape[k] == ch.tape[k] {}
    forall p | p in d.patches ensures p.0 < |d.tape| && (p.1 < |d.labels| ==> d.labels[p.1] <= |d.tape|) {
      if p !in ch.patches {
        var k :| 0 <= k < |PatchesTo(list, l)| && PatchesTo(list, l)[k] == p;
        assert list[k] in list;
      }
    }
  }

  // ----- arms -----

  /** The list of a condition brought behind code: nothing is taken away. */
  lemma CodeArmFlag(ch: Chunk, list: seq<nat>, c1: Chunk, c3: Chunk)
    requires Branched(ch, list, c1) && Grown(c1, c3) && |c3.tape| > |c1.tape| && Clean(c3)
    ensures PatchToHere(c3, list).Ok?
    ensures var c4 := PatchToHere(c3, list).value; Clean(c4) && |c4.tape| > |ch.tape| && c4.labels == c3.labels
  {
    StillWaiting(ch, list, c1, c3.tape);
    PatchHerePatches(c3, |ch.tape|, |c1.tape|, list);
    var c4 := PatchToHere(c3, list).value;
    forall k | 0 <= k < |c4.tape| && c4.tape[k].JMP? ensures k + 1 + c4.tape[k].offset <= |c4.tape| {
      assert c4.tape[k] == PatchedAt(c3.tape, list, Some(|c3.tape|), k);
    }
    assert Labelled(c4, |c4.tape|);
  }

  /** Behind a blank body the condition loses the pairs at its end. */
  lemma BlankArmFlag(ch: Chunk, list: seq<nat>, c1: Chunk, c3: Chunk, s: Shape)
    requires Neat(ch) && Branched(ch, list, c1) && Grown(c1, c3) && Neat(c3) && |c3.tape| == |c1.tape|
    requires Clean(ch) && !c3.orphans && Bounded(c3.tape) && |c3.labels| <= LABELS
    requires ShapedBy(c1.tape, |ch.tape|, true, [], list, s)
    ensures PatchToHere(c3, list).Ok?
    ensures var c4 := PatchToHere(c3, list).value;
      && (c4.orphans <==> TakesAimed(s.tail, false))
      && (!c4.orphans ==> Clean(c4) && (|c4.tape| == |ch.tape| <==> s.open))
  {
    BlankPatches(ch, list, c1, c3);
    BlankArmCloses(ch, list, c1, c3);
    ListsSwapped(c3.tape, |ch.tape|, list);
    assert Labelled(c3, |ch.tape|) by { LabelledAfter(ch, c3); }
    PatchShapes(c3, |ch.tape|, false, list, [], s);
    AllLeave(c1.tape, |ch.tape|, list, s);
    AllRemaining(s.tail);
    var c4 := PatchToHere(c3, list).value;
    assert Labelled(c4, |ch.tape|);
  }

  lemma LabelledAfter(ch: Chunk, c: Chunk)
    requires Labelled(ch, |ch.tape|) && Neat(ch) && c.patches == ch.patches && ch.labels <= c.labels
    ensures Labelled(c, |ch.tape|)
  {
    forall p | p in c.patches ensures p.0 < |ch.tape| && (p.1 < |c.labels| ==> c.labels[p.1] <= |ch.tape|) {
      assert p in ch.patches;
      var k :| 0 <= k < |ch.patches| && ch.patches[k] == p;
      assert PatchOk(ch, k);
    }
  }

  // ----- statements -----

  lemma {:induction false} StmtFlag(ch: Chunk, s: Stmt, brk: Option<nat>)
    requires Room(ch) && Neat(ch) && StmtOk(s, ch.nactvar) && Clean(ch) && BreakLow(ch, brk)
    requires CompileStmt(ch, s, brk).Ok? && |CompileStmt(ch, s, brk).value.labels| <= LABELS
    ensures Outcome(ch, CompileStmt(ch, s, brk).value, StmtOrphaning(s), StmtBlank(s))
    decreases s, 1
  {
    match s {
      case Work(id) => EmitClean(ch, WORK(id));
      case Break => JumpClean(ch, brk.value);
      case Do(b) =>
        BlockGrows(ch, b, brk);
        BlockFlag(ch, b, brk);
      case If(arms) => IfFlag(ch, arms, brk);
      case While(cond, b) => WhileFlag(ch, cond, b, brk);
      case Repeat(b, cond) => RepeatFlag(ch, b, cond, brk);
    }
  }

  lemma {:induction false} BlockFlag(ch: Chunk, b: Block, brk: Option<nat>)
    requires Room(ch) && Neat(ch) && BlockOk(b, ch.nactvar) && Clean(ch) && BreakLow(ch, brk)
    requires CompileBlock(ch, b, brk).Ok? && |CompileBlock(ch, b, brk).value.labels| <= LABELS
    ensures Outcome(ch, CompileBlock(ch, b, brk).value, BlockOrphaning(b), Blank(b))
    decreases b, 1
  {
    match b {
      case Nothing =>
      case Then(s, rest) =>
        StmtGrows(ch, s, brk);
        var c := CompileStmt(ch, s, brk).value;
        BlockGrows(c, rest, brk);
        StmtFlag(ch, s, brk);
        if !c.orphans {
          BreakStaysLow(ch, c, brk);
          BlockFlag(c, rest, brk);
        }
    }
  }

  lemma {:induction false} IfFlag(ch: Chunk, arms: Arms, brk: Option<nat>)
    requires Room(ch) && Neat(ch) && StmtOk(If(arms), ch.nactvar) && Clean(ch) && BreakLow(ch, brk)
    requires CompileStmt(ch, If(arms), brk).Ok? && |CompileStmt(ch, If(arms), brk).value.labels| <= LABELS
    ensures Outcome(ch, CompileStmt(ch, If(arms), brk).value, ArmsOrphaning(arms), ArmsBlank(arms))
    decreases If(arms), 0
  {
    LabelGrows(ch);
    var (end, c) := NewLabel(ch);
    ArmsGrow(c, arms, end, brk);
    var c1 := CompileArms(c, arms, end, brk).value;
    BreakStaysLow(ch, c, brk);
    LabelClean(ch);
    ArmsFlag(c, arms, end, brk);
    if !c1.orphans { PlaceClean(c1, end); }
  }

  lemma {:induction false} ArmsFlag(ch: Chunk, arms: Arms, end: nat, brk: Option<nat>)
    requires Room(ch) && Neat(ch) && ArmsOk(arms, ch.nactvar) && Clean(ch) && BreakLow(ch, brk) && Low(ch, end)
    requires CompileArms(ch, arms, end, brk).Ok? && |CompileArms(ch, arms, end, brk).value.labels| <= LABELS
    ensures Outcome(ch, CompileArms(ch, arms, end, brk).value, ArmsOrphaning(arms), ArmsBlank(arms))
    decreases arms, 1
  {
    match arms {
      case Fi =>
      case Else(b) =>
        BlockGrows(ch, b, brk);
        BlockFlag(ch, b, brk);
      case Arm(cond, b, rest) => ArmFlag(ch, cond, b, rest, end, brk);
    }
  }

  lemma {:induction false} ArmFlag(ch: Chunk, cond: Expr, b: Block, rest: Arms, end: nat, brk: Option<nat>)
    requires Room(ch) && Neat(ch) && ArmsOk(Arm(cond, b, rest), ch.nactvar) && Clean(ch) && BreakLow(ch, brk)
    requires Low(ch, end)
    requires CompileArms(ch, Arm(cond, b, rest), end, brk).Ok?
    requires |CompileArms(ch, Arm(cond, b, rest), end, brk).value.labels| <= LABELS
    ensures Outcome(ch, CompileArms(ch, Arm(cond, b, rest), end, brk).value, ArmsOrphaning(Arm(cond, b, rest)),
        ArmsBlank(Arm(cond, b, rest)))
    decreases Arm(cond, b, rest), 0
  {
    var list, c1, c2, c4 := ArmGrown(ch, cond, b, rest, end, brk);
    BranchFlag(ch, cond);
    if !c1.orphans {
      assert |ch.tape| <= |c1.tape| && c1.labels == ch.labels;
      BlockFlag(c1, b, brk);
      if !c2.orphans {
        BodyFlag(ch, list, c1, c2, rest, end, Blank(b), ConditionShape(cond));
        if !c4.orphans {
          BreakStaysLow(ch, c4, brk);
          StaysLow(ch, c4, end);
          ArmsFlag(c4, rest, end, brk);
        }
      }
    }
  }

  /** The chunks of an arm only grow. */
  ghost predicate ArmChunks(ch: Chunk, list: seq<nat>, c1: Chunk, c2: Chunk, c3: Chunk, c4: Chunk) {
    && Branched(ch, list, c1) && Neat(c1) && Grown(c1, c2) && Neat(c2) && Grown(c1, c3) && Neat(c3)
    && PatchToHere(c3, list) == Ok(c4) && Grown(ch, c4) && Neat(c4)
    && |c4.labels| == |c3.labels| == |c2.labels| && (c2.orphans ==> c4.orphans)
  }

  lemma ArmGrown(ch: Chunk, cond: Expr, b: Block, rest: Arms, end: nat, brk: Option<nat>)
    returns (list: seq<nat>, c1: Chunk, c2: Chunk, c4: Chunk)
    requires Room(ch) && Neat(ch) && ArmsOk(Arm(cond, b, rest), ch.nactvar) && BreakOk(ch, brk) && end < |ch.labels|
    requires CompileArms(ch, Arm(cond, b, rest), end, brk).Ok?
    ensures CompileBranch(ch, cond) == Ok((list, c1)) && CompileBlock(c1, b, brk) == Ok(c2)
    ensures ArmChunks(ch, list, c1, c2, ArmEnd(c2, rest, end), c4)
    ensures CompileArms(c4, rest, end, brk) == CompileArms(ch, Arm(cond, b, rest), end, brk)
    ensures Grown(c4, CompileArms(c4, rest, end, brk).value)
  {
    BranchShape(ch, cond);
    list, c1 := CompileBranch(ch, cond).value.0, CompileBranch(ch, cond).value.1;
    BranchedNeat(ch, list, c1);
    BlockGrows(c1, b, brk);
    c2 := CompileBlock(c1, b, brk).value;
    ArmCloseGrown(ch, list, c1, c2, rest, end);
    c4 := PatchToHere(ArmEnd(c2, rest, end), list).value;
    ArmsGrow(c4, rest, end, brk);
  }

  lemma ArmCloseGrown(ch: Chunk, list: seq<nat>, c1: Chunk, c2: Chunk, rest: Arms, end: nat)
    requires Neat(ch) && Branched(ch, list, c1) && Neat(c1) && Grown(c1, c2) && Neat(c2) && end < |ch.labels|
    ensures PatchToHere(ArmEnd(c2, rest, end), list).Ok?
    ensures ArmChunks(ch, list, c1, c2, ArmEnd(c2, rest, end), PatchToHere(ArmEnd(c2, rest, end), list).value)
  {
    ArmEndGrows(c1, c2, rest, end);
    var c3 := ArmEnd(c2, rest, end);
    ArmCloses(ch, list, c1, c3);
    PatchToHereKeeps(c3, list);
  }

  lemma {:induction false} PatchToHereKeeps(ch: Chunk, list: seq<nat>)
    requires PatchToHere(ch, list).Ok?
    ensures var c := PatchToHere(ch, list).value; c.labels == ch.labels && (ch.orphans ==> c.orphans)
    decreases |list|
  {
    PatchToHereStep(ch, list);
    if Elides(ch, list) {
      PositionFinds(list, |ch.tape| - 1);
      PatchToHereKeeps(ElidedChunk(ch), ElidedList(ch, list));
    }
  }

  /** The condition's list, brought behind the body of an arm. */
  lemma BodyFlag(ch: Chunk, list: seq<nat>, c1: Chunk, c2: Chunk, rest: Arms, end: nat, blank: bool, s: Shape)
    requires Neat(ch) && Clean(ch) && Low(ch, end) && Branched(ch, list, c1) && Neat(c1)
    requires Grown(c1, c2) && Neat(c2) && Clean(c2) && |c2.labels| <= LABELS && (|c2.tape| == |c1.tape| <==> blank)
    requires ShapedBy(c1.tape, |ch.tape|, true, [], list, s)
    ensures PatchToHere(ArmEnd(c2, rest, end), list).Ok?
    ensures var c4 := PatchToHere(ArmEnd(c2, rest, end), list).value;
      && (c4.orphans <==> rest.Fi? && blank && TakesAimed(s.tail, false))
      && (!c4.orphans ==> Clean(c4) && (|c4.tape| == |ch.tape| <==> rest.Fi? && blank && s.open))
  {
    var c3 := ArmEnd(c2, rest, end);
    ArmEndGrows(c1, c2, rest, end);
    assert Clean(c3) by {
      StaysLow(c1, c2, end);
      if !rest.Fi? { JumpClean(c2, end); }
    }
    if |c3.tape| == |c1.tape| {
      BlankArmFlag(ch, list, c1, c3, s);
    } else {
      CodeArmFlag(ch, list, c1, c3);
    }
  }

  // ----- loops -----

  lemma WhileStartClean(ch: Chunk)
    requires Neat(ch) && Clean(ch) && |WhileStart(ch).2.labels| <= LABELS
    ensures var (out, top, c2) := WhileStart(ch); Clean(c2) && Low(c2, out) && Low(c2, top)
  {
    WhileStartGrows(ch);
    LabelGrows(ch);
    LabelClean(ch);
    var (out, c) := NewLabel(ch);
    LabelClean(c);
    var (top, c1) := NewLabel(c);
    PlaceClean(c1, top);
  }

  lemma {:induction false} WhileFlag(ch: Chunk, cond: Expr, b: Block, brk: Option<nat>)
    requires Room(ch) && Neat(ch) && StmtOk(While(cond, b), ch.nactvar) && Clean(ch)
    requires CompileStmt(ch, While(cond, b), brk).Ok? && |CompileStmt(ch, While(cond, b), brk).value.labels| <= LABELS
    ensures Outcome(ch, CompileStmt(ch, While(cond, b), brk).value, BranchOrphaning(cond) || BlockOrphaning(b), false)
    decreases While(cond, b), 0
  {
    WhileCases(ch, cond, b, brk);
    WhileStartGrows(ch);
    var (out, top, c2) := WhileStart(ch);
    var (list, c3) := CompileBranch(c2, cond).value;
    var c4 := CompileBlock(c3, b, Some(out)).value;
    BranchShape(c2, cond);
    BranchedNeat(c2, list, c3);
    BlockGrows(c3, b, Some(out));
    WhileEndGrows(c2, list, c3, c4, top, out);
    WhileStartClean(ch);
    BranchFlag(c2, cond);
    if !c3.orphans {
      BlockFlag(c3, b, Some(out));
      if !c4.orphans { WhileEndClean(c2, list, c3, c4, top, out); }
    }
  }

  lemma WhileEndClean(c2: Chunk, list: seq<nat>, c3: Chunk, c4: Chunk, top: nat, out: nat)
    requires Neat(c2) && Branched(c2, list, c3) && Grown(c3, c4) && Neat(c4) && Clean(c4)
    requires Low(c2, out) && Low(c2, top) && |c4.labels| <= LABELS
    ensures var c6 := WhileEnd(c4, top, list, out);
      out < |c6.labels| && Clean(SetLabel(c6, out, |c6.tape|).value)
  {
    assert |c2.tape| <= |c3.tape| by { FollowsExtends(c2, c3); }
    StaysLow(c3, c4, top);
    StaysLow(c3, c4, out);
    JumpClean(c4, top);
    var c5 := EmitJump(c4, top);
    forall j | j in list ensures j < |c5.tape| { assert PendingAt(c3.tape, |c2.tape|, |c3.tape|, j); }
    ListToLabelClean(c5, WhileEnd(c4, top, list, out), list, out);
    PlaceClean(WhileEnd(c4, top, list, out), out);
  }

  lemma {:induction false} RepeatFlag(ch: Chunk, b: Block, cond: Expr, brk: Option<nat>)
    requires Room(ch) && Neat(ch) && StmtOk(Repeat(b, cond), ch.nactvar) && Clean(ch)
    requires CompileStmt(ch, Repeat(b, cond), brk).Ok? && |CompileStmt(ch, Repeat(b, cond), brk).value.labels| <= LABELS
    ensures Outcome(ch, CompileStmt(ch, Repeat(b, cond), brk).value,
      BranchOrphaning(cond) || BlockOrphaning(b), StmtBlank(Repeat(b, cond)))
    decreases Repeat(b, cond), 0
  {
    LabelGrows(ch);
    var (out, c) := NewLabel(ch);
    BlockGrows(c, b, Some(out));
    var c1 := CompileBlock(c, b, Some(out)).value;
    BranchShape(c1, cond);
    var (list, c2) := CompileBranch(c1, cond).value;
    BranchedNeat(c1, list, c2);
    LabelClean(ch);
    BlockFlag(c, b, Some(out));
    if !c1.orphans {
      BranchFlag(c1, cond);
      if !c2.orphans {
        var c3 := PatchTo(c2, list, |ch.tape|).value;
        PatchToClean(c2, list, |ch.tape|);
        PlaceClean(Scoped(ch, c3), out);
        ConditionBlank(c2.tape, |c1.tape|, list, ConditionShape(cond));
      }
    }
  }

  lemma ConditionBlank(tape: seq<Instr>, start: nat, list: seq<nat>, s: Shape)
    requires ShapedBy(tape, start, true, [], list, s)
    ensures |tape| == start <==> s.open && s.tail == []
  {
  }
}
