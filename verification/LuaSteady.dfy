/**
 * Conditions on the source text under which the elision of `patch_to_here` is safe, for readers
 * who do not want to compute shapes.
 */
module LuaSteady {
  import opened Prelude
  import opened LuaVm
  import opened LuaStmt
  import opened LuaShape

  /** Does the expression fall through with a literal? */
  predicate EndsInConst(e: Expr) {
    match e
    case Const(_) => true
    case Paren(x) => EndsInConst(x)
    case Not(x) => EndsInConst(x)
    case And(_, y) => EndsInConst(y)
    case Or(_, y) => EndsInConst(y)
    case _ => false
  }

  function NotOf(v: Option<Value>): Option<Value> {
    if v.None? then None else Some(Bool(!Truthy(v.value)))
  }

  /** The literal an expression folds to without leaving a jump. */
  function Folded(e: Expr): Option<Value> {
    match e
    case Const(v) => Some(v)
    case Paren(x) => Folded(x)
    case Not(x) => NotOf(Folded(x))
    case And(x, y) =>
      (match Folded(x)
       case Some(v) => if Truthy(v) then Folded(y) else None
       case None => None)
    case Or(x, y) =>
      (match Folded(x)
       case Some(v) => if Truthy(v) then None else Folded(y)
       case None => None)
    case _ => None
  }

  /** Folding is evaluation. */
  lemma FoldedValue(vm: Vm, e: Expr, regs: Regs)
    requires Folded(e).Some?
    ensures Eval(vm, e, regs) == Folded(e)
  {
  }

  /** A left operand or condition after which nothing can be elided. */
  predicate Firm(e: Expr) {
    EndsInConst(e) ==> Folded(e).Some?
  }

  /** Every left operand is firm: in particular, when none of them ends in a constant. */
  predicate Steady(e: Expr) {
    match e
    case And(x, y) => Steady(x) && Steady(y) && Firm(x)
    case Or(x, y) => Steady(x) && Steady(y) && Firm(x)
    case Not(x) => Steady(x)
    case Paren(x) => Steady(x)
    case Compare(_, x, y) => Steady(x) && Steady(y)
    case _ => true
  }

  predicate NoConstOnTheLeft(e: Expr) {
    match e
    case And(x, y) => NoConstOnTheLeft(x) && NoConstOnTheLeft(y) && !EndsInConst(x)
    case Or(x, y) => NoConstOnTheLeft(x) && NoConstOnTheLeft(y) && !EndsInConst(x)
    case Not(x) => NoConstOnTheLeft(x)
    case Paren(x) => NoConstOnTheLeft(x)
    case Compare(_, x, y) => NoConstOnTheLeft(x) && NoConstOnTheLeft(y)
    case _ => true
  }

  lemma NoConstIsSteady(e: Expr)
    requires NoConstOnTheLeft(e)
    ensures Steady(e)
  {
  }

  /** Only constant-tailed expressions end on a literal, and folded ones leave nothing in front of it. */
  lemma {:induction false} LiteralShape(e: Expr)
    ensures EndShape(e).ending.OnLiteral? ==> EndsInConst(e)
    ensures Folded(e).Some? ==> EndShape(e) == Shape(OnLiteral(Folded(e).value), [], true, false, false)
    decreases e
  {
    match e {
      case Paren(x) => LiteralShape(x);
      case Not(x) =>
        LiteralShape(x);
        assert Swapped([]) == [];
      case And(x, y) =>
        LiteralShape(x);
        LiteralShape(y);
      case Or(x, y) =>
        LiteralShape(x);
        LiteralShape(y);
      case _ =>
    }
  }

  lemma FirmTakesNothing(e: Expr, want: bool)
    requires Firm(e)
    ensures !LeftOrphans(EndShape(e), want)
  {
    LiteralShape(e);
  }

  /** Steady expressions leave no jump astray. */
  lemma {:induction false} SteadyIsSafe(e: Expr)
    requires Steady(e)
    ensures !Orphaning(e)
    decreases e
  {
    match e {
      case And(x, y) =>
        SteadyIsSafe(x);
        SteadyIsSafe(y);
        FirmTakesNothing(x, true);
      case Or(x, y) =>
        SteadyIsSafe(x);
        SteadyIsSafe(y);
        FirmTakesNothing(x, false);
      case Not(x) => SteadyIsSafe(x);
      case Paren(x) => SteadyIsSafe(x);
      case Compare(_, x, y) =>
        SteadyIsSafe(x);
        SteadyIsSafe(y);
      case _ =>
    }
  }

  // ----- statements -----

  predicate SteadyStmt(s: Stmt) {
    match s
    case Work(_) => true
    case Break => true
    case Do(b) => SteadyBlock(b)
    case If(arms) => SteadyArms(arms)
    case While(c, b) => Steady(c) && Firm(c) && SteadyBlock(b)
    case Repeat(b, c) => Steady(c) && Firm(c) && SteadyBlock(b)
  }

  predicate SteadyBlock(b: Block) {
    match b
    case Nothing => true
    case Then(s, rest) => SteadyStmt(s) && SteadyBlock(rest)
  }

  /** Besides, a last arm without `else` leaves code. */
  predicate SteadyArms(arms: Arms) {
    match arms
    case Fi => true
    case Else(b) => SteadyBlock(b)
    case Arm(c, b, rest) => Steady(c) && Firm(c) && SteadyBlock(b) && SteadyArms(rest) && (rest.Fi? ==> !Blank(b))
  }

  lemma {:induction false} SteadyStmtIsSafe(s: Stmt)
    requires SteadyStmt(s)
    ensures !StmtOrphaning(s)
    decreases s
  {
    match s {
      case Do(b) => SteadyBlockIsSafe(b);
      case If(arms) => SteadyArmsAreSafe(arms);
      case While(c, b) =>
        SteadyIsSafe(c);
        FirmTakesNothing(c, true);
        SteadyBlockIsSafe(b);
      case Repeat(b, c) =>
        SteadyIsSafe(c);
        FirmTakesNothing(c, true);
        SteadyBlockIsSafe(b);
      case _ =>
    }
  }

  lemma {:induction false} SteadyBlockIsSafe(b: Block)
    requires SteadyBlock(b)
    ensures !BlockOrphaning(b)
    decreases b
  {
    if b.Then? {
      SteadyStmtIsSafe(b.s);
      SteadyBlockIsSafe(b.rest);
    }
  }

  lemma {:induction false} SteadyArmsAreSafe(arms: Arms)
    requires SteadyArms(arms)
    ensures !ArmsOrphaning(arms)
    decreases arms
  {
    match arms {
      case Fi =>
      case Else(b) => SteadyBlockIsSafe(b);
      case Arm(c, b, rest) =>
        SteadyIsSafe(c);
        FirmTakesNothing(c, true);
        SteadyBlockIsSafe(b);
        SteadyArmsAreSafe(rest);
    }
  }
}
