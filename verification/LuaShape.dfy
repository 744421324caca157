/**
 * The end of an expression's code, read off its source: which tests at the end `patch_to_here`
 * may take away, and which of them an earlier jump has been aimed past.
 */
module LuaShape {
  import opened LuaVm
  import opened LuaStmt

  /** A test and its jump; `aimed` when an earlier jump goes past them. */
  datatype Pair = Pair(inTl: bool, aimed: bool)

  datatype Ending = OnLiteral(v: Value) | OnRegister | OnComparison

  /**
   * The code ends with the pairs of `tail`, the last one first; `open` when there is nothing
   * before them. `deepTl` and `deepFl`: further jumps wait in the lists.
   */
  datatype Shape = Shape(ending: Ending, tail: seq<Pair>, open: bool, deepTl: bool, deepFl: bool)

  predicate HasPair(tail: seq<Pair>, inTl: bool) {
    tail != [] && (tail[0].inTl == inTl || HasPair(tail[1..], inTl))
  }

  predicate DeepIn(s: Shape, inTl: bool) {
    if inTl then s.deepTl else s.deepFl
  }

  // ----- patch_to_here -----

  /** Is an aimed pair among those taken away? */
  predicate TakesAimed(tail: seq<Pair>, stay: bool) {
    tail != [] && tail[0].inTl == stay && (tail[0].aimed || TakesAimed(tail[1..], stay))
  }

  /** What is left when the pairs of one list are taken from the end. */
  function Remaining(tail: seq<Pair>, stay: bool): seq<Pair> {
    if tail == [] || tail[0].inTl != stay then tail else Remaining(tail[1..], stay)
  }

  /** The pairs behind the last one whose jump has been aimed here. */
  function KeptPairs(tail: seq<Pair>, stay: bool, aim: bool): (r: seq<Pair>)
    ensures |r| <= |tail|
  {
    if tail == [] || tail[0].inTl == stay then []
    else [Pair(!stay, tail[0].aimed || aim)] + KeptPairs(tail[1..], stay, aim)
  }

  function PatchedHere(s: Shape, stay: bool): Shape {
    var t := Remaining(s.tail, stay);
    var k := KeptPairs(t, stay, DeepIn(s, stay) || HasPair(t, stay));
    var deep := DeepIn(s, !stay) || HasPair(t[|k|..], !stay);
    Shape(s.ending, k, s.open && |k| == |t|, deep && !stay, deep && stay)
  }

  // ----- expressions -----

  /** After `goiftrue` or `goiffalse`. */
  function Tested(s: Shape, want: bool): Shape {
    match s.ending
    case OnLiteral(v) =>
      if Truthy(v) == want then s else Shape(OnRegister, [Pair(!want, false)], false, false, false)
    case OnRegister => s.(tail := [Pair(!want, false)] + s.tail)
    case OnComparison => Shape(OnComparison, [], false, s.deepTl || !want, s.deepFl || want)
  }

  /** A left operand or a condition: tested, and the jumps that stay brought here. */
  function LeftOf(s: Shape, want: bool): Shape {
    PatchedHere(Tested(s, want), want)
  }

  predicate LeftOrphans(s: Shape, want: bool) {
    TakesAimed(Tested(s, want).tail, want)
  }

  /** The right operand's code behind that of the left. */
  function Followed(x: Shape, y: Shape): Shape {
    if y.open then Shape(y.ending, y.tail + x.tail, x.open, x.deepTl || y.deepTl, x.deepFl || y.deepFl)
    else Shape(y.ending, y.tail, false,
      x.deepTl || y.deepTl || HasPair(x.tail, true), x.deepFl || y.deepFl || HasPair(x.tail, false))
  }

  function Swapped(tail: seq<Pair>): (r: seq<Pair>)
    ensures |r| == |tail|
  {
    seq(|tail|, i requires 0 <= i < |tail| => Pair(!tail[i].inTl, tail[i].aimed))
  }

  function Inverted(s: Shape): Shape {
    match s.ending
    case OnLiteral(v) => Shape(OnLiteral(Bool(!Truthy(v))), Swapped(s.tail), s.open, s.deepFl, s.deepTl)
    case OnRegister =>
      Shape(OnRegister, [], false, s.deepFl || HasPair(s.tail, false), s.deepTl || HasPair(s.tail, true))
    case OnComparison => Shape(OnComparison, [], false, s.deepFl, s.deepTl)
  }

  const COMPARED := Shape(OnComparison, [], false, false, false)

  function EndShape(e: Expr): Shape {
    match e
    case Local(_) => Shape(OnRegister, [], true, false, false)
    case Const(v) => Shape(OnLiteral(v), [], true, false, false)
    case Paren(x) => EndShape(x)
    case Not(x) => Inverted(EndShape(x))
    case And(x, y) => Followed(LeftOf(EndShape(x), true), EndShape(y))
    case Or(x, y) => Followed(LeftOf(EndShape(x), false), EndShape(y))
    case Compare(_, _, _) => COMPARED
  }

  /** Does compiling the expression leave a jump pointing past a pair that was taken away? */
  predicate Orphaning(e: Expr) {
    match e
    case And(x, y) => Orphaning(x) || Orphaning(y) || LeftOrphans(EndShape(x), true)
    case Or(x, y) => Orphaning(x) || Orphaning(y) || LeftOrphans(EndShape(x), false)
    case Not(x) => Orphaning(x)
    case Paren(x) => Orphaning(x)
    case Compare(_, x, y) => Orphaning(x) || Orphaning(y)
    case _ => false
  }

  predicate BranchOrphaning(e: Expr) {
    Orphaning(e) || LeftOrphans(EndShape(e), true)
  }

  // ----- statements -----

  /** The code of a condition: all its remaining pairs leave when it is false. */
  function ConditionShape(e: Expr): Shape {
    LeftOf(EndShape(e), true)
  }

  /** Does the statement leave no code at all? */
  predicate StmtBlank(s: Stmt) {
    match s
    case Do(b) => Blank(b)
    case If(arms) => ArmsBlank(arms)
    case Repeat(b, c) => Blank(b) && ConditionShape(c).open && ConditionShape(c).tail == []
    case _ => false
  }

  predicate Blank(b: Block) {
    match b
    case Nothing => true
    case Then(s, rest) => StmtBlank(s) && Blank(rest)
  }

  /** A condition whose only arm is blank loses its pairs too. */
  predicate ArmsBlank(arms: Arms) {
    match arms
    case Fi => true
    case Else(b) => Blank(b)
    case Arm(c, b, rest) => rest.Fi? && Blank(b) && ConditionShape(c).open
  }

  predicate StmtOrphaning(s: Stmt) {
    match s
    case Work(_) => false
    case Break => false
    case Do(b) => BlockOrphaning(b)
    case If(arms) => ArmsOrphaning(arms)
    case While(c, b) => BranchOrphaning(c) || BlockOrphaning(b)
    case Repeat(b, c) => BranchOrphaning(c) || BlockOrphaning(b)
  }

  predicate BlockOrphaning(b: Block) {
    match b
    case Nothing => false
    case Then(s, rest) => StmtOrphaning(s) || BlockOrphaning(rest)
  }

  /** An `if` whose last arm is blank brings the jumps of its condition here, too. */
  predicate ArmsOrphaning(arms: Arms) {
    match arms
    case Fi => false
    case Else(b) => BlockOrphaning(b)
    case Arm(c, b, rest) =>
      BranchOrphaning(c) || BlockOrphaning(b) || ArmsOrphaning(rest)
      || (rest.Fi? && Blank(b) && TakesAimed(ConditionShape(c).tail, false))
  }
}
