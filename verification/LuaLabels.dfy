/** How many labels a statement makes, read off its source, and the numbers they get. */
module LuaLabels {
  import opened Prelude
  import opened LuaVm
  import opened LuaCompile
  import opened LuaCorrect
  import opened LuaGo
  import opened LuaStmt
  import opened LuaLayout
  import opened LuaGrowth

  // ----- on the source -----

  /** An `if` has a label behind it, a `while` one before and one behind, a `repeat` one behind. */
  function StmtLabels(s: Stmt): nat {
    match s
    case Work(_) => 0
    case Break => 0
    case Do(b) => BlockLabels(b)
    case If(arms) => 1 + ArmsLabels(arms)
    case While(_, b) => 2 + BlockLabels(b)
    case Repeat(b, _) => 1 + BlockLabels(b)
  }

  function BlockLabels(b: Block): nat {
    match b
    case Nothing => 0
    case Then(s, rest) => StmtLabels(s) + BlockLabels(rest)
  }

  function ArmsLabels(arms: Arms): nat {
    match arms
    case Fi => 0
    case Else(b) => BlockLabels(b)
    case Arm(_, b, rest) => BlockLabels(b) + ArmsLabels(rest)
  }

  // ----- while compiling -----

  /** The numbers that `new_label` hands out while a statement is compiled, in order. */
  function StmtNumbers(ch: Chunk, s: Stmt, brk: Option<nat>): seq<nat>
    decreases s, 0
  {
    match s
    case Work(_) => []
    case Break => []
    case Do(b) => BlockNumbers(ch, b, brk)
    case If(arms) =>
      var (end, c) := NewLabel(ch);
      [end] + ArmsNumbers(c, arms, end, brk)
    case While(cond, b) =>
      var (out, top, c) := WhileStart(ch);
      [out, top] + (match CompileBranch(c, cond) case Ok((_, c1)) => BlockNumbers(c1, b, Some(out)) case Err(_) => [])
    case Repeat(b, _) =>
      var (out, c) := NewLabel(ch);
      [out] + BlockNumbers(c, b, Some(out))
  }

  function BlockNumbers(ch: Chunk, b: Block, brk: Option<nat>): seq<nat>
    decreases b, 0
  {
    match b
    case Nothing => []
    case Then(s, rest) =>
      StmtNumbers(ch, s, brk) + match CompileStmt(ch, s, brk) case Ok(c) => BlockNumbers(c, rest, brk) case Err(_) => []
  }

  function ArmsNumbers(ch: Chunk, arms: Arms, end: nat, brk: Option<nat>): seq<nat>
    decreases arms, 0
  {
    match arms
    case Fi => []
    case Else(b) => BlockNumbers(ch, b, brk)
    case Arm(cond, b, rest) =>
      match CompileBranch(ch, cond)
      case Err(_) => []
      case Ok((list, c1)) => BlockNumbers(c1, b, brk) + RestNumbers(c1, list, b, rest, end, brk)
  }

  /** What the arms behind an arm make. */
  function RestNumbers(c1: Chunk, list: seq<nat>, b: Block, rest: Arms, end: nat, brk: Option<nat>): seq<nat>
    decreases rest, 1
  {
    match CompileScope(c1, b, brk)
    case Err(_) => []
    case Ok(c2) =>
      match PatchToHere(ArmEnd(c2, rest, end), list)
      case Err(_) => []
      case Ok(c4) => ArmsNumbers(c4, rest, end, brk)
  }

  /** From `a` to `b`, `n` labels have been made, with the numbers that follow those made before. */
  ghost predicate Made(a: Chunk, b: Chunk, numbers: seq<nat>, n: nat) {
    && |numbers| == n && |b.labels| == |a.labels| + n
    && forall k :: 0 <= k < n ==> numbers[k] == LabelNumber(|a.labels| + k)
  }

  lemma MadeTrans(a: Chunk, b: Chunk, c: Chunk, x: seq<nat>, y: seq<nat>, m: nat, n: nat)
    requires Made(a, b, x, m) && Made(b, c, y, n)
    ensures Made(a, c, x + y, m + n)
  {
    forall k | 0 <= k < m + n ensures (x + y)[k] == LabelNumber(|a.labels| + k) {
      if k >= m { assert (x + y)[k] == y[k - m] == LabelNumber(|b.labels| + (k - m)); }
    }
  }

  lemma {:induction false} PatchKeepsLabels(ch: Chunk, list: seq<nat>)
    requires PatchToHere(ch, list).Ok?
    ensures PatchToHere(ch, list).value.labels == ch.labels
    decreases |list|
  {
    PatchToHereStep(ch, list);
    if Elides(ch, list) { PatchKeepsLabels(ElidedChunk(ch), ElidedList(ch, list)); }
  }

  lemma {:induction false} StmtMakes(ch: Chunk, s: Stmt, brk: Option<nat>)
    requires Room(ch) && Neat(ch) && StmtOk(s, ch.nactvar) && BreakOk(ch, brk) && CompileStmt(ch, s, brk).Ok?
    ensures Made(ch, CompileStmt(ch, s, brk).value, StmtNumbers(ch, s, brk), StmtLabels(s))
    decreases s, 1
  {
    match s {
      case Work(_) =>
      case Break =>
      case Do(b) => BlockMakes(ch, b, brk);
      case If(arms) => IfMakes(ch, arms, brk);
      case While(cond, b) => WhileMakes(ch, cond, b, brk);
      case Repeat(b, cond) => RepeatMakes(ch, b, cond, brk);
    }
  }

  lemma {:induction false} IfMakes(ch: Chunk, arms: Arms, brk: Option<nat>)
    requires Room(ch) && Neat(ch) && StmtOk(If(arms), ch.nactvar) && BreakOk(ch, brk)
    requires CompileStmt(ch, If(arms), brk).Ok?
    ensures Made(ch, CompileStmt(ch, If(arms), brk).value, StmtNumbers(ch, If(arms), brk), StmtLabels(If(arms)))
    decreases If(arms), 0
  {
    LabelGrows(ch);
    var (end, c) := NewLabel(ch);
    ArmsMake(c, arms, end, brk);
    MadeTrans(ch, c, CompileArms(c, arms, end, brk).value, [end], ArmsNumbers(c, arms, end, brk), 1, ArmsLabels(arms));
  }

  /** A `while` unfolded, as far as its labels are concerned. */
  lemma WhileParts(ch: Chunk, cond: Expr, b: Block, brk: Option<nat>) returns (out: nat, c: Chunk, c1: Chunk, c2: Chunk)
    requires Room(ch) && Neat(ch) && StmtOk(While(cond, b), ch.nactvar) && CompileStmt(ch, While(cond, b), brk).Ok?
    ensures out == WhileStart(ch).0 && c == WhileStart(ch).2 && Made(ch, c, [out, WhileStart(ch).1], 2)
    ensures CompileBranch(c, cond).Ok? && c1 == CompileBranch(c, cond).value.1 && c1.labels == c.labels
    ensures Room(c1) && Neat(c1) && c1.nactvar == ch.nactvar && out < |c1.labels|
    ensures CompileBlock(c1, b, Some(out)) == Ok(c2)
    ensures |CompileStmt(ch, While(cond, b), brk).value.labels| == |c2.labels|
  {
    WhileCases(ch, cond, b, brk);
    WhileStartGrows(ch);
    out, c := WhileStart(ch).0, WhileStart(ch).2;
    c1 := CompileBranch(c, cond).value.1;
    c2 := CompileBlock(c1, b, Some(out)).value;
    assert c1.labels == c.labels && Room(c1) && Neat(c1) && c1.nactvar == c.nactvar by {
      BranchShape(c, cond);
      BranchedNeat(c, CompileBranch(c, cond).value.0, c1);
    }
  }

  lemma {:induction false} WhileMakes(ch: Chunk, cond: Expr, b: Block, brk: Option<nat>)
    requires Room(ch) && Neat(ch) && StmtOk(While(cond, b), ch.nactvar) && CompileStmt(ch, While(cond, b), brk).Ok?
    ensures Made(ch, CompileStmt(ch, While(cond, b), brk).value, StmtNumbers(ch, While(cond, b), brk),
      StmtLabels(While(cond, b)))
    decreases While(cond, b), 0
  {
    var out, c, c1, c2 := WhileParts(ch, cond, b, brk);
    BlockMakes(c1, b, Some(out));
    MadeTrans(ch, c, c2, [out, WhileStart(ch).1], BlockNumbers(c1, b, Some(out)), 2, BlockLabels(b));
  }

  lemma RepeatParts(ch: Chunk, b: Block, cond: Expr, brk: Option<nat>) returns (out: nat, c: Chunk, c1: Chunk)
    requires Room(ch) && Neat(ch) && StmtOk(Repeat(b, cond), ch.nactvar) && CompileStmt(ch, Repeat(b, cond), brk).Ok?
    ensures (out, c) == NewLabel(ch) && Made(ch, c, [out], 1) && Room(c) && Neat(c) && c.nactvar == ch.nactvar
    ensures out < |c.labels|
    ensures CompileBlock(c, b, Some(out)) == Ok(c1)
    ensures |CompileStmt(ch, Repeat(b, cond), brk).value.labels| == |c1.labels|
  {
    LabelGrows(ch);
    out, c := NewLabel(ch).0, NewLabel(ch).1;
    BlockGrows(c, b, Some(out));
    c1 := CompileBlock(c, b, Some(out)).value;
    BranchShape(c1, cond);
  }

  lemma {:induction false} RepeatMakes(ch: Chunk, b: Block, cond: Expr, brk: Option<nat>)
    requires Room(ch) && Neat(ch) && StmtOk(Repeat(b, cond), ch.nactvar) && CompileStmt(ch, Repeat(b, cond), brk).Ok?
    ensures Made(ch, CompileStmt(ch, Repeat(b, cond), brk).value, StmtNumbers(ch, Repeat(b, cond), brk),
      StmtLabels(Repeat(b, cond)))
    decreases Repeat(b, cond), 0
  {
    var out, c, c1 := RepeatParts(ch, b, cond, brk);
    BlockMakes(c, b, Some(out));
    MadeTrans(ch, c, c1, [out], BlockNumbers(c, b, Some(out)), 1, BlockLabels(b));
  }

  lemma {:induction false} BlockMakes(ch: Chunk, b: Block, brk: Option<nat>)
    requires Room(ch) && Neat(ch) && BlockOk(b, ch.nactvar) && BreakOk(ch, brk) && CompileBlock(ch, b, brk).Ok?
    ensures Made(ch, CompileBlock(ch, b, brk).value, BlockNumbers(ch, b, brk), BlockLabels(b))
    decreases b, 1
  {
    if b.Then? {
      StmtGrows(ch, b.s, brk);
      StmtMakes(ch, b.s, brk);
      var c := CompileStmt(ch, b.s, brk).value;
      BlockMakes(c, b.rest, brk);
      MadeTrans(ch, c, CompileBlock(c, b.rest, brk).value, StmtNumbers(ch, b.s, brk), BlockNumbers(c, b.rest, brk),
        StmtLabels(b.s), BlockLabels(b.rest));
    }
  }

  lemma {:induction false} ArmsMake(ch: Chunk, arms: Arms, end: nat, brk: Option<nat>)
    requires Room(ch) && Neat(ch) && ArmsOk(arms, ch.nactvar) && BreakOk(ch, brk) && end < |ch.labels|
    requires CompileArms(ch, arms, end, brk).Ok?
    ensures Made(ch, CompileArms(ch, arms, end, brk).value, ArmsNumbers(ch, arms, end, brk), ArmsLabels(arms))
    decreases arms, 1
  {
    match arms {
      case Fi =>
      case Else(b) => BlockMakes(ch, b, brk);
      case Arm(cond, b, rest) => ArmMakes(ch, cond, b, rest, end, brk);
    }
  }

  lemma ArmParts(ch: Chunk, cond: Expr, b: Block, rest: Arms, end: nat, brk: Option<nat>)
    returns (list: seq<nat>, c1: Chunk, c2: Chunk, c4: Chunk)
    requires Room(ch) && Neat(ch) && ArmsOk(Arm(cond, b, rest), ch.nactvar) && BreakOk(ch, brk) && end < |ch.labels|
    requires CompileArms(ch, Arm(cond, b, rest), end, brk).Ok?
    ensures CompileBranch(ch, cond) == Ok((list, c1)) && c1.labels == ch.labels
    ensures Room(c1) && Neat(c1) && c1.nactvar == ch.nactvar
    ensures CompileBlock(c1, b, brk) == CompileScope(c1, b, brk) == Ok(c2)
    ensures PatchToHere(ArmEnd(c2, rest, end), list) == Ok(c4) && c4.labels == c2.labels
    ensures Room(c4) && Neat(c4) && c4.nactvar == ch.nactvar && |ch.labels| <= |c4.labels|
    ensures CompileArms(ch, Arm(cond, b, rest), end, brk) == CompileArms(c4, rest, end, brk)
  {
    BranchShape(ch, cond);
    list, c1 := CompileBranch(ch, cond).value.0, CompileBranch(ch, cond).value.1;
    BranchedNeat(ch, list, c1);
    BlockGrows(c1, b, brk);
    c2 := CompileBlock(c1, b, brk).value;
    ArmEndGrows(c1, c2, rest, end);
    ArmCloses(ch, list, c1, ArmEnd(c2, rest, end));
    PatchKeepsLabels(ArmEnd(c2, rest, end), list);
    c4 := PatchToHere(ArmEnd(c2, rest, end), list).value;
  }

  lemma {:induction false} ArmMakes(ch: Chunk, cond: Expr, b: Block, rest: Arms, end: nat, brk: Option<nat>)
    requires Room(ch) && Neat(ch) && ArmsOk(Arm(cond, b, rest), ch.nactvar) && BreakOk(ch, brk) && end < |ch.labels|
    requires CompileArms(ch, Arm(cond, b, rest), end, brk).Ok?
    ensures var arms := Arm(cond, b, rest);
      Made(ch, CompileArms(ch, arms, end, brk).value, ArmsNumbers(ch, arms, end, brk), ArmsLabels(arms))
    decreases Arm(cond, b, rest), 0
  {
    var list, c1, c2, c4 := ArmParts(ch, cond, b, rest, end, brk);
    BlockMakes(c1, b, brk);
    ArmsMake(c4, rest, end, brk);
    MadeTrans(ch, c4, CompileArms(c4, rest, end, brk).value, BlockNumbers(c1, b, brk), ArmsNumbers(c4, rest, end, brk),
      BlockLabels(b), ArmsLabels(rest));
  }

  // ----- shared numbers -----

  predicate Repeats(numbers: seq<nat>) {
    exists i, j :: 0 <= i < j < |numbers| && numbers[i] == numbers[j]
  }

  /** The numbers of all labels of a chunk, when a block is compiled behind what is there. */
  function AllNumbers(ch: Chunk, b: Block): seq<nat> {
    seq<nat>(|ch.labels|, k requires 0 <= k < |ch.labels| => LabelNumber(k)) + BlockNumbers(ch, b, None)
  }

  /** Two labels share a number exactly when the source makes more of them than there are numbers. */
  lemma LabelsShareIff(ch: Chunk, b: Block)
    requires Room(ch) && Neat(ch) && BlockOk(b, ch.nactvar) && CompileBlock(ch, b, None).Ok?
    ensures |AllNumbers(ch, b)| == |CompileBlock(ch, b, None).value.labels| == |ch.labels| + BlockLabels(b)
    ensures Repeats(AllNumbers(ch, b)) <==> |ch.labels| + BlockLabels(b) > LABELS
  {
    BlockMakes(ch, b, None);
    var all := AllNumbers(ch, b);
    forall k | 0 <= k < |all| ensures all[k] == LabelNumber(k) {}
    if |all| > LABELS { assert all[0] == all[LABELS]; }
  }
}
