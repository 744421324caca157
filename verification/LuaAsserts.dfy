/**
 * The debug assertions of `patch_to_here`: no label jump stands in an elided pair, and no live label
 * past its start.
 */
module LuaAsserts {
  import opened LuaVm
  import opened LuaCompile
  import opened LuaDesc
  import opened LuaGo
  import opened LuaDischarge
  import opened LuaLogic
  import opened LuaCorrect
  import opened LuaStmt
  import opened LuaLayout
  import opened LuaGrowth
  import opened LuaOrphans
  import opened LuaExactStmt

  /** The assertions made when the pair at `cut` is taken away. */
  predicate PairAsserted(ch: Chunk, cut: nat) {
    forall p :: p in ch.patches ==> p.0 < cut && (p.1 < |ch.labels| ==> ch.labels[p.1] <= cut)
  }

  /** They hold for every pair that `patch_to_here` takes away. */
  ghost predicate Asserted(ch: Chunk, list: seq<nat>)
    decreases |list|
  {
    Elides(ch, list) ==>
      PairAsserted(ch, |ch.tape| - 2) && |ElidedList(ch, list)| < |list|
        && Asserted(ElidedChunk(ch), ElidedList(ch, list))
  }

  lemma {:induction false} PatchAsserts(ch: Chunk, start: nat, stay: seq<nat>, leave: seq<nat>)
    requires ListsOk(ch.tape, start, |ch.tape|, stay, leave) && Labelled(ch, start)
    ensures Asserted(ch, stay)
    decreases |stay|
  {
    if Elides(ch, stay) {
      ElidedShape(ch, start, stay, leave);
      PatchAsserts(ElidedChunk(ch), start, ElidedList(ch, stay), leave);
    }
  }

  /** They hold for a left operand or a condition. */
  ghost predicate LeftAsserted(ch: Chunk, d: Desc, want: bool) {
    GoIf(ch, d, want).Ok? ==> Asserted(GoIf(ch, d, want).value.1, Stay(GoIf(ch, d, want).value.0, want))
  }

  /** They hold for every call made while an expression is compiled. */
  ghost predicate ExprAsserted(ch: Chunk, e: Expr)
    decreases e
  {
    match e
    case Local(_) => true
    case Const(_) => true
    case Paren(x) => ExprAsserted(ch, x)
    case Not(x) => ExprAsserted(ch, x)
    case And(x, y) =>
      && ExprAsserted(ch, x) && LeftOperandAsserted(ch, x, true)
      && (AfterLeft(ch, x, true).Ok? ==> ExprAsserted(AfterLeft(ch, x, true).value, y))
    case Or(x, y) =>
      && ExprAsserted(ch, x) && LeftOperandAsserted(ch, x, false)
      && (AfterLeft(ch, x, false).Ok? ==> ExprAsserted(AfterLeft(ch, x, false).value, y))
    case Compare(_, x, y) =>
      ExprAsserted(ch, x) && (CompileToReg(ch, x).Ok? ==> ExprAsserted(CompileToReg(ch, x).value.1, y))
  }

  ghost predicate LeftOperandAsserted(ch: Chunk, x: Expr, want: bool) {
    CompileExpr(ch, x).Ok? ==> LeftAsserted(CompileExpr(ch, x).value.1, CompileExpr(ch, x).value.0, want)
  }

  /** The chunk in which the right operand is compiled. */
  function AfterLeft(ch: Chunk, x: Expr, want: bool): Result<Chunk> {
    var (d, c) :- CompileExpr(ch, x);
    var (_, c2) :- Left(c, d, want);
    Ok(c2)
  }

  lemma LabelledOn(a: Chunk, b: Chunk, start: nat)
    requires Labelled(a, start) && Follows(a, b, start)
    ensures Labelled(b, start) && Labelled(b, |b.tape|)
  {
  }

  lemma LeftOperandAsserts(ch: Chunk, x: Expr, want: bool)
    requires Room(ch) && WellScoped(x, ch.nactvar) && Labelled(ch, |ch.tape|)
    ensures LeftOperandAsserted(ch, x, want)
    ensures AfterLeft(ch, x, want).Ok? ==>
              var c := AfterLeft(ch, x, want).value; Follows(ch, c, |ch.tape|) && c.freereg == ch.freereg
  {
    ExprShape(ch, x);
    if CompileExpr(ch, x).Ok? {
      var (d, c) := CompileExpr(ch, x).value;
      GoIfShape(c, |ch.tape|, ch.freereg, d, want);
      LeftShape(c, |ch.tape|, ch.freereg, d, want);
      if GoIf(c, d, want).Ok? {
        var (d1, c1) := GoIf(c, d, want).value;
        LabelledOn(ch, c, |ch.tape|);
        LabelledOn(c, c1, |ch.tape|);
        PatchAsserts(c1, |ch.tape|, Stay(d1, want), Leave(d1, want));
      }
      if Left(c, d, want).Ok? { FollowsTrans(ch, c, Left(c, d, want).value.1, |ch.tape|, |ch.tape|); }
    }
  }

  /** No assertion of `patch_to_here` fails while an expression is compiled. */
  lemma {:induction false} ExprAsserts(ch: Chunk, e: Expr)
    requires Room(ch) && WellScoped(e, ch.nactvar) && Labelled(ch, |ch.tape|)
    ensures ExprAsserted(ch, e)
    decreases e
  {
    match e {
      case Local(_) =>
      case Const(_) =>
      case Paren(x) => ExprAsserts(ch, x);
      case Not(x) => ExprAsserts(ch, x);
      case And(x, y) =>
        ExprAsserts(ch, x);
        LeftOperandAsserts(ch, x, true);
        if AfterLeft(ch, x, true).Ok? {
          LabelledOn(ch, AfterLeft(ch, x, true).value, |ch.tape|);
          ExprAsserts(AfterLeft(ch, x, true).value, y);
        }
      case Or(x, y) =>
        ExprAsserts(ch, x);
        LeftOperandAsserts(ch, x, false);
        if AfterLeft(ch, x, false).Ok? {
          LabelledOn(ch, AfterLeft(ch, x, false).value, |ch.tape|);
          ExprAsserts(AfterLeft(ch, x, false).value, y);
        }
      case Compare(_, x, y) =>
        ExprAsserts(ch, x);
        if CompileToReg(ch, x).Ok? {
          var c := CompileToReg(ch, x).value.1;
          RegShape(ch, x);
          LabelledOn(ch, c, |ch.tape|);
          ExprAsserts(c, y);
        }
    }
  }

  /** Nor while a condition is, and nor when its list is brought behind the body of an arm. */
  lemma BranchAsserts(ch: Chunk, cond: Expr)
    requires Room(ch) && WellScoped(cond, ch.nactvar) && Labelled(ch, |ch.tape|)
    ensures ExprAsserted(ch, cond) && LeftOperandAsserted(ch, cond, true)
  {
    ExprAsserts(ch, cond);
    LeftOperandAsserts(ch, cond, true);
  }

  lemma ArmAsserts(ch: Chunk, list: seq<nat>, c1: Chunk, c3: Chunk)
    requires Neat(ch) && Labelled(ch, |ch.tape|) && Branched(ch, list, c1) && Neat(c1)
    requires Grown(c1, c3) && Neat(c3) && |c3.labels| <= LABELS
    ensures Asserted(c3, list)
  {
    if |c3.tape| == |c1.tape| {
      BlankPatches(ch, list, c1, c3);
      ListsSwapped(c3.tape, |ch.tape|, list);
      LabelledAfter(ch, c3);
      PatchAsserts(c3, |ch.tape|, list, []);
    } else {
      StillWaiting(ch, list, c1, c3.tape);
      NothingElided(c3, |ch.tape|, |c1.tape|, list);
    }
  }

  lemma NothingElided(ch: Chunk, start: nat, mid: nat, list: seq<nat>)
    requires Waiting(ch.tape, start, mid, list) && mid < |ch.tape|
    ensures !Elides(ch, list)
  {
    PositionFinds(list, |ch.tape| - 1);
    forall j | j in list ensures j < |ch.tape| - 1 { assert PendingAt(ch.tape, start, mid, j); }
    assert |ch.tape| - 1 !in list;
  }
}
