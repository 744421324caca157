/** The part of the virtual machine that short-circuit code uses, and the source expressions. */
module LuaVm {
  import opened Prelude

  /** Floats are kept by their bit pattern; `Other` is any value without a literal. */
  datatype Numeral = Int(i: int) | Float(bits: nat)

  datatype Value = Nil | Bool(b: bool) | Number(n: Numeral) | Other(id: nat)

  predicate Truthy(v: Value) {
    v != Nil && v != Bool(false)
  }

  type Regs = map<nat, Value>

  function Get(regs: Regs, r: nat): Value {
    if r in regs then regs[r] else Nil
  }

  /** The comparisons of the machine; the others are expressed through them. */
  datatype CmpOp = EQ | LT | LE

  datatype Instr =
    | MOVE(dst: nat, src: nat)
    | LOAD(dst: nat, idx: nat)
    | LFALSESKIP(dst: nat)
    | NOT(dst: nat, src: nat)
    | JMP(offset: int)
    | CMP(op: CmpOp, lhs: nat, rhs: nat, inverted: bool)
    | TEST(src: nat, inverted: bool)
    | TESTSET(dst: nat, src: nat, inverted: bool)
    | WORK(id: nat)

  /** The destination of a `TESTSET` whose jump is still pending. */
  const NO_REG := 255

  /**
   * What the machine does not fix: the outcome of a comparison, or `None` when it raises an
   * error, and the effect of an opaque statement on the registers.
   */
  datatype Vm = Vm(cmp: (CmpOp, Value, Value) -> Option<bool>, work: (nat, Regs) -> Option<Regs>)

  /** One machine step: go to `pc`, raise an error, or do something the machine cannot do. */
  datatype StepResult = Next(pc: int, regs: Regs) | Raised | Bad

  /** A control instruction skips the instruction after it, or falls to it. */
  function Branch(pc: nat, skip: bool, regs: Regs): StepResult {
    Next(if skip then pc + 2 else pc + 1, regs)
  }

  function Step(vm: Vm, consts: seq<Value>, i: Instr, pc: nat, regs: Regs): StepResult {
    match i
    case MOVE(dst, src) => Next(pc + 1, regs[dst := Get(regs, src)])
    case LOAD(dst, idx) => if idx < |consts| then Next(pc + 1, regs[dst := consts[idx]]) else Bad
    case LFALSESKIP(dst) => Next(pc + 2, regs[dst := Bool(false)])
    case NOT(dst, src) => Next(pc + 1, regs[dst := Bool(!Truthy(Get(regs, src)))])
    case JMP(offset) => Next(pc + 1 + offset, regs)
    case CMP(op, lhs, rhs, inverted) =>
      (match vm.cmp(op, Get(regs, lhs), Get(regs, rhs))
       case None => Raised
       case Some(b) => Branch(pc, b != inverted, regs))
    case TEST(src, inverted) => Branch(pc, Truthy(Get(regs, src)) != inverted, regs)
    case TESTSET(dst, src, inverted) =>
      if Truthy(Get(regs, src)) == inverted then Branch(pc, true, regs)
      else if dst == NO_REG then Bad
      else Branch(pc, false, regs[dst := Get(regs, src)])
    case WORK(id) =>
      match vm.work(id, regs)
      case None => Raised
      case Some(r) => Next(pc + 1, r)
  }

  // ----- source expressions -----

  datatype Comparison = Eq | NEq | Lt | Gt | LEq | GEq

  /** Locals are already resolved to their registers. */
  datatype Expr =
    | Local(reg: nat)
    | Const(value: Value)
    | Not(e: Expr)
    | And(l: Expr, r: Expr)
    | Or(l: Expr, r: Expr)
    | Compare(op: Comparison, l: Expr, r: Expr)
    | Paren(e: Expr)

  /** `~=` is the negation of `==`; `>` and `>=` are `<` and `<=` with the operands swapped. */
  function Outcome(vm: Vm, op: Comparison, a: Value, b: Value): Option<bool> {
    match op
    case Eq => vm.cmp(EQ, a, b)
    case NEq => (match vm.cmp(EQ, a, b) case None => None case Some(c) => Some(!c))
    case Lt => vm.cmp(LT, a, b)
    case Gt => vm.cmp(LT, b, a)
    case LEq => vm.cmp(LE, a, b)
    case GEq => vm.cmp(LE, b, a)
  }

  /** The value of an expression, or `None` if evaluating it raises an error. */
  function Eval(vm: Vm, e: Expr, regs: Regs): Option<Value> {
    match e
    case Local(r) => Some(Get(regs, r))
    case Const(v) => Some(v)
    case Paren(x) => Eval(vm, x, regs)
    case Not(x) =>
      (match Eval(vm, x, regs)
       case None => None
       case Some(v) => Some(Bool(!Truthy(v))))
    case And(x, y) =>
      (match Eval(vm, x, regs)
       case None => None
       case Some(v) => if Truthy(v) then Eval(vm, y, regs) else Some(v))
    case Or(x, y) =>
      (match Eval(vm, x, regs)
       case None => None
       case Some(v) => if Truthy(v) then Some(v) else Eval(vm, y, regs))
    case Compare(op, x, y) =>
      match Eval(vm, x, regs)
      case None => None
      case Some(a) =>
        match Eval(vm, y, regs)
        case None => None
        case Some(b) =>
          match Outcome(vm, op, a, b)
          case None => None
          case Some(c) => Some(Bool(c))
  }

  /** Only literals stand in constants, and only active locals are named. */
  predicate WellScoped(e: Expr, nactvar: nat) {
    match e
    case Local(r) => r < nactvar
    case Const(v) => !v.Other?
    case Not(x) => WellScoped(x, nactvar)
    case Paren(x) => WellScoped(x, nactvar)
    case And(x, y) => WellScoped(x, nactvar) && WellScoped(y, nactvar)
    case Or(x, y) => WellScoped(x, nactvar) && WellScoped(y, nactvar)
    case Compare(_, x, y) => WellScoped(x, nactvar) && WellScoped(y, nactvar)
  }

  /** Evaluation reads nothing but the active locals. */
  lemma EvalReadsLocals(vm: Vm, e: Expr, nactvar: nat, a: Regs, b: Regs)
    requires WellScoped(e, nactvar) && forall r :: 0 <= r < nactvar ==> Get(a, r) == Get(b, r)
    ensures Eval(vm, e, a) == Eval(vm, e, b)
  {
  }
}
