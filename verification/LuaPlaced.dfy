/**
 * Where a statement's code stands on the finished tape, and why a run of that code is a run of
 * the statement.
 */
module LuaPlaced {
  import opened Prelude
  import opened LuaVm
  import opened LuaExec
  import opened LuaDesc
  import opened LuaStmt

  /** A finished program, and the number of its locals. */
  datatype Code = Code(vm: Vm, k: seq<Value>, tape: seq<Instr>, n: nat)

  function Go(w: Code, m: nat, pc: int, regs: Regs): StepResult {
    Run(w.vm, w.k, w.tape, m, pc, regs)
  }

  lemma {:induction false} GoOn(w: Code, a: nat, b: nat, pc: int, regs: Regs, mid: int, r: Regs)
    requires Go(w, a, pc, regs) == Next(mid, r)
    ensures Go(w, a + b, pc, regs) == Go(w, b, mid, r)
    decreases a
  {
    if a > 0 {
      var s := Step(w.vm, w.k, w.tape[pc], pc, regs);
      GoOn(w, a - 1, b, s.pc, s.regs, mid, r);
    }
  }

  // ----- placement -----

  /** From `pc` the condition is decided: true at `yes`, false at `no`, and false takes a step. */
  ghost predicate Decides(w: Code, c: Expr, yes: nat, no: nat, pc: nat, regs: Regs, m: nat, q: Regs) {
    match Eval(w.vm, c, regs)
    case None => Go(w, m, pc, regs) == Raised
    case Some(v) =>
      Go(w, m, pc, regs) == Next(if Truthy(v) then yes else no, q) && Kept(regs, q, w.n) && (Truthy(v) || m >= 1)
  }

  ghost predicate DecidesFrom(w: Code, c: Expr, yes: nat, no: nat, pc: nat, regs: Regs) {
    exists m, q :: Decides(w, c, yes, no, pc, regs, m, q)
  }

  ghost predicate CondAt(w: Code, c: Expr, pc: nat, yes: nat, no: nat) {
    forall regs :: DecidesFrom(w, c, yes, no, pc, regs)
  }

  /** From `pc` the condition is evaluated and the run goes to `end` either way. */
  ghost predicate Passes(w: Code, c: Expr, pc: nat, end: nat, regs: Regs, m: nat, q: Regs) {
    match Eval(w.vm, c, regs)
    case None => Go(w, m, pc, regs) == Raised
    case Some(_) => Go(w, m, pc, regs) == Next(end, q) && Kept(regs, q, w.n)
  }

  ghost predicate PassesFrom(w: Code, c: Expr, pc: nat, end: nat, regs: Regs) {
    exists m, q :: Passes(w, c, pc, end, regs, m, q)
  }

  ghost predicate CondPassed(w: Code, c: Expr, pc: nat, end: nat) {
    forall regs :: PassesFrom(w, c, pc, end, regs)
  }

  /** A block that does nothing. */
  ghost predicate Idle(vm: Vm, b: Block) {
    forall fuel: nat, regs: Regs :: RunBlock(vm, b, fuel, regs) == Done(regs)
  }

  predicate InstrAt(w: Code, pc: nat, i: Instr) {
    pc < |w.tape| && w.tape[pc] == i
  }

  predicate JumpAt(w: Code, pc: nat, to: nat) {
    InstrAt(w, pc, JMP(to - (pc + 1)))
  }

  ghost predicate PlacedStmt(w: Code, s: Stmt, pc: nat, end: nat, brk: Option<nat>)
    decreases s
  {
    match s
    case Work(id) => end == pc + 1 && InstrAt(w, pc, WORK(id))
    case Break => end == pc + 1 && brk.Some? && JumpAt(w, pc, brk.value)
    case Do(b) => PlacedBlock(w, b, pc, end, brk)
    case If(arms) => PlacedArms(w, arms, pc, end, brk)
    case While(c, b) =>
      exists mid: nat, back: nat ::
        CondAt(w, c, pc, mid, end) && PlacedBlock(w, b, mid, back, Some(end)) && JumpAt(w, back, pc) && end == back + 1
    case Repeat(b, c) =>
      exists mid: nat :: PlacedBlock(w, b, pc, mid, Some(end)) && CondAt(w, c, mid, end, pc)
  }

  ghost predicate PlacedBlock(w: Code, b: Block, pc: nat, end: nat, brk: Option<nat>)
    decreases b
  {
    match b
    case Nothing => end == pc
    case Then(s, rest) => exists mid: nat :: PlacedStmt(w, s, pc, mid, brk) && PlacedBlock(w, rest, mid, end, brk)
  }

  ghost predicate PlacedArms(w: Code, arms: Arms, pc: nat, end: nat, brk: Option<nat>)
    decreases arms
  {
    match arms
    case Fi => end == pc
    case Else(b) => PlacedBlock(w, b, pc, end, brk)
    case Arm(c, b, rest) =>
      || (rest.Fi? && Idle(w.vm, b) && CondPassed(w, c, pc, end))
      || exists mid: nat, out: nat, next: nat ::
           && CondAt(w, c, pc, mid, next) && PlacedBlock(w, b, mid, out, brk)
           && (if rest.Fi? then out == next else next == out + 1 && JumpAt(w, out, end))
           && PlacedArms(w, rest, next, end, brk)
  }

  // ----- simulation -----

  /** Opaque work sees and changes locals only through the locals. */
  ghost predicate WorkIsLocal(vm: Vm, n: nat) {
    forall id, a, b :: Kept(a, b, n) ==> SameWork(vm.work(id, a), vm.work(id, b), n)
  }

  ghost predicate SameWork(x: Option<Regs>, y: Option<Regs>, n: nat) {
    match (x, y)
    case (Some(a), Some(b)) => Kept(a, b, n)
    case (None, None) => true
    case _ => false
  }

  /** After `m` steps the machine has done what the source did; a source that is still running keeps it busy. */
  ghost predicate Mirrors(w: Code, x: Ending, pc: nat, end: nat, brk: Option<nat>, fuel: nat, mregs: Regs, m: nat,
    q: Regs)
  {
    match x
    case Done(r) => Go(w, m, pc, mregs) == Next(end, q) && Kept(r, q, w.n)
    case Broke(r) => brk.Some? && Go(w, m, pc, mregs) == Next(brk.value, q) && Kept(r, q, w.n)
    case Error => Go(w, m, pc, mregs) == Raised
    case Timeout => Go(w, m, pc, mregs).Next? && m >= fuel
  }

  /** The machine decides a condition as the source does, from registers that agree on the locals. */
  lemma Decided(w: Code, c: Expr, pc: nat, yes: nat, no: nat, regs: Regs, mregs: Regs) returns (m: nat, q: Regs)
    requires CondAt(w, c, pc, yes, no) && WellScoped(c, w.n) && Kept(regs, mregs, w.n)
    ensures match Eval(w.vm, c, regs)
            case None => Go(w, m, pc, mregs) == Raised
            case Some(v) =>
              Go(w, m, pc, mregs) == Next(if Truthy(v) then yes else no, q) && Kept(regs, q, w.n)
                && (Truthy(v) || m >= 1)
  {
    assert DecidesFrom(w, c, yes, no, pc, mregs);
    m, q :| Decides(w, c, yes, no, pc, mregs, m, q);
    EvalReadsLocals(w.vm, c, w.n, regs, mregs);
    if Eval(w.vm, c, regs).Some? { KeptTrans(regs, mregs, q, w.n, w.n); }
  }

  /** What has been done so far, followed by what mirrors the rest. */
  lemma Onward(w: Code, x: Ending, pc: nat, mid: nat, end: nat, brk: Option<nat>, fuel: nat, more: nat, mregs: Regs,
    a: nat, r: Regs, m: nat, q: Regs)
    requires Go(w, a, pc, mregs) == Next(mid, r) && Mirrors(w, x, mid, end, brk, fuel, r, m, q) && a + fuel >= more
    ensures Mirrors(w, x, pc, end, brk, more, mregs, a + m, q)
  {
    GoOn(w, a, m, pc, mregs, mid, r);
  }

  lemma {:induction false} StmtMirrors(w: Code, s: Stmt, pc: nat, end: nat, brk: Option<nat>, fuel: nat, regs: Regs,
    mregs: Regs)
    returns (m: nat, q: Regs)
    requires PlacedStmt(w, s, pc, end, brk) && StmtOk(s, w.n) && WorkIsLocal(w.vm, w.n) && Kept(regs, mregs, w.n)
    ensures Mirrors(w, RunStmt(w.vm, s, fuel, regs), pc, end, brk, fuel, mregs, m, q)
    decreases fuel, s, 1
  {
    match s {
      case Work(id) =>
        m, q := WorkMirrors(w, id, pc, brk, fuel, regs, mregs);
      case Break =>
        m, q := 1, mregs;
        assert Go(w, 0, brk.value, q) == Next(brk.value, q);
      case Do(b) => m, q := BlockMirrors(w, b, pc, end, brk, fuel, regs, mregs);
      case If(arms) => m, q := ArmsMirror(w, arms, pc, end, brk, fuel, regs, mregs);
      case While(c, b) => m, q := WhileMirrors(w, c, b, pc, end, brk, fuel, regs, mregs);
      case Repeat(b, c) => m, q := RepeatMirrors(w, b, c, pc, end, brk, fuel, regs, mregs);
    }
  }

  lemma WorkMirrors(w: Code, id: nat, pc: nat, brk: Option<nat>, fuel: nat, regs: Regs, mregs: Regs)
    returns (m: nat, q: Regs)
    requires InstrAt(w, pc, WORK(id)) && WorkIsLocal(w.vm, w.n) && Kept(regs, mregs, w.n)
    ensures Mirrors(w, RunStmt(w.vm, Work(id), fuel, regs), pc, pc + 1, brk, fuel, mregs, m, q)
  {
    m := 1;
    assert SameWork(w.vm.work(id, regs), w.vm.work(id, mregs), w.n);
    match w.vm.work(id, mregs) {
      case None => q := mregs;
      case Some(r) =>
        q := r;
        assert Go(w, 0, pc + 1, q) == Next(pc + 1, q);
    }
  }

  /** A jump alone. */
  lemma JumpGoes(w: Code, pc: nat, to: nat, regs: Regs)
    requires JumpAt(w, pc, to)
    ensures Go(w, 1, pc, regs) == Next(to, regs)
  {
    assert Go(w, 0, to, regs) == Next(to, regs);
  }

  lemma {:induction false} BlockMirrors(w: Code, b: Block, pc: nat, end: nat, brk: Option<nat>, fuel: nat, regs: Regs,
    mregs: Regs)
    returns (m: nat, q: Regs)
    requires PlacedBlock(w, b, pc, end, brk) && BlockOk(b, w.n) && WorkIsLocal(w.vm, w.n) && Kept(regs, mregs, w.n)
    ensures Mirrors(w, RunBlock(w.vm, b, fuel, regs), pc, end, brk, fuel, mregs, m, q)
    decreases fuel, b
  {
    match b {
      case Nothing => m, q := 0, mregs;
      case Then(s, rest) =>
        var mid: nat :| PlacedStmt(w, s, pc, mid, brk) && PlacedBlock(w, rest, mid, end, brk);
        m, q := StmtMirrors(w, s, pc, mid, brk, fuel, regs, mregs);
        var x := RunStmt(w.vm, s, fuel, regs);
        if x.Done? {
          var a, r := m, q;
          m, q := BlockMirrors(w, rest, mid, end, brk, fuel, x.regs, r);
          Onward(w, RunBlock(w.vm, rest, fuel, x.regs), pc, mid, end, brk, fuel, fuel, mregs, a, r, m, q);
          m := a + m;
        }
    }
  }

  /** An idle last arm: the condition is evaluated, and that is all. */
  lemma IdleArmMirrors(w: Code, c: Expr, b: Block, pc: nat, end: nat, brk: Option<nat>, fuel: nat, regs: Regs,
    mregs: Regs)
    returns (m: nat, q: Regs)
    requires Idle(w.vm, b) && CondPassed(w, c, pc, end) && WellScoped(c, w.n) && Kept(regs, mregs, w.n)
    ensures Mirrors(w, RunArms(w.vm, Arm(c, b, Fi), fuel, regs), pc, end, brk, fuel, mregs, m, q)
  {
    assert PassesFrom(w, c, pc, end, mregs);
    m, q :| Passes(w, c, pc, end, mregs, m, q);
    EvalReadsLocals(w.vm, c, w.n, regs, mregs);
    if Eval(w.vm, c, regs).Some? {
      KeptTrans(regs, mregs, q, w.n, w.n);
      assert RunBlock(w.vm, b, fuel, regs) == Done(regs) == RunArms(w.vm, Fi, fuel, regs);
    }
  }

  lemma {:induction false} ArmsMirror(w: Code, arms: Arms, pc: nat, end: nat, brk: Option<nat>, fuel: nat, regs: Regs,
    mregs: Regs)
    returns (m: nat, q: Regs)
    requires PlacedArms(w, arms, pc, end, brk) && ArmsOk(arms, w.n) && WorkIsLocal(w.vm, w.n) && Kept(regs, mregs, w.n)
    ensures Mirrors(w, RunArms(w.vm, arms, fuel, regs), pc, end, brk, fuel, mregs, m, q)
    decreases fuel, arms, 1
  {
    match arms {
      case Fi => m, q := 0, mregs;
      case Else(b) => m, q := BlockMirrors(w, b, pc, end, brk, fuel, regs, mregs);
      case Arm(c, b, rest) =>
        if rest.Fi? && Idle(w.vm, b) && CondPassed(w, c, pc, end) {
          m, q := IdleArmMirrors(w, c, b, pc, end, brk, fuel, regs, mregs);
        } else {
          m, q := ArmMirrors(w, c, b, rest, pc, end, brk, fuel, regs, mregs);
        }
    }
  }

  lemma {:induction false} ArmMirrors(w: Code, c: Expr, b: Block, rest: Arms, pc: nat, end: nat, brk: Option<nat>,
    fuel: nat, regs: Regs, mregs: Regs)
    returns (m: nat, q: Regs)
    requires PlacedArms(w, Arm(c, b, rest), pc, end, brk) && ArmsOk(Arm(c, b, rest), w.n)
    requires !(rest.Fi? && Idle(w.vm, b) && CondPassed(w, c, pc, end)) && WorkIsLocal(w.vm, w.n)
    requires Kept(regs, mregs, w.n)
    ensures Mirrors(w, RunArms(w.vm, Arm(c, b, rest), fuel, regs), pc, end, brk, fuel, mregs, m, q)
    decreases fuel, Arm(c, b, rest), 0
  {
    var mid: nat, out: nat, next: nat :|
      && CondAt(w, c, pc, mid, next) && PlacedBlock(w, b, mid, out, brk)
      && (if rest.Fi? then out == next else next == out + 1 && JumpAt(w, out, end))
      && PlacedArms(w, rest, next, end, brk);
    m, q := Decided(w, c, pc, mid, next, regs, mregs);
    var v := Eval(w.vm, c, regs);
    if v.Some? {
      var a, r := m, q;
      if Truthy(v.value) {
        m, q := BlockMirrors(w, b, mid, out, brk, fuel, regs, r);
        var x := RunBlock(w.vm, b, fuel, regs);
        if x.Done? && !rest.Fi? {
          JumpGoes(w, out, end, q);
          GoOn(w, m, 1, mid, r, out, q);
          m := m + 1;
        }
        Onward(w, x, pc, mid, end, brk, fuel, fuel, mregs, a, r, m, q);
      } else {
        m, q := ArmsMirror(w, rest, next, end, brk, fuel, regs, r);
        Onward(w, RunArms(w.vm, rest, fuel, regs), pc, next, end, brk, fuel, fuel, mregs, a, r, m, q);
      }
      m := a + m;
    }
  }

  lemma {:induction false} WhileMirrors(w: Code, c: Expr, b: Block, pc: nat, end: nat, brk: Option<nat>, fuel: nat,
    regs: Regs, mregs: Regs)
    returns (m: nat, q: Regs)
    requires PlacedStmt(w, While(c, b), pc, end, brk) && StmtOk(While(c, b), w.n) && WorkIsLocal(w.vm, w.n)
    requires Kept(regs, mregs, w.n)
    ensures Mirrors(w, RunStmt(w.vm, While(c, b), fuel, regs), pc, end, brk, fuel, mregs, m, q)
    decreases fuel, While(c, b), 0
  {
    var mid: nat, back: nat :| CondAt(w, c, pc, mid, end) && PlacedBlock(w, b, mid, back, Some(end))
        && JumpAt(w, back, pc) && end == back + 1;
    m, q := Decided(w, c, pc, mid, end, regs, mregs);
    var v := Eval(w.vm, c, regs);
    if v.Some? && Truthy(v.value) {
      var a, r := m, q;
      m, q := BlockMirrors(w, b, mid, back, Some(end), fuel, regs, r);
      GoOn(w, a, m, pc, mregs, mid, r);
      m := a + m;
      var x := RunBlock(w.vm, b, fuel, regs);
      if x.Done? {
        JumpGoes(w, back, pc, q);
        GoOn(w, m, 1, pc, mregs, back, q);
        m := m + 1;
        if fuel > 0 {
          var d, t := m, q;
          m, q := StmtMirrors(w, While(c, b), pc, end, brk, fuel - 1, x.regs, t);
          Onward(w, RunStmt(w.vm, While(c, b), fuel - 1, x.regs), pc, pc, end, brk, fuel - 1, fuel, mregs, d, t, m, q);
          m := d + m;
        }
      }
    }
  }

  lemma {:induction false} RepeatMirrors(w: Code, b: Block, c: Expr, pc: nat, end: nat, brk: Option<nat>, fuel: nat,
    regs: Regs, mregs: Regs)
    returns (m: nat, q: Regs)
    requires PlacedStmt(w, Repeat(b, c), pc, end, brk) && StmtOk(Repeat(b, c), w.n) && WorkIsLocal(w.vm, w.n)
    requires Kept(regs, mregs, w.n)
    ensures Mirrors(w, RunStmt(w.vm, Repeat(b, c), fuel, regs), pc, end, brk, fuel, mregs, m, q)
    decreases fuel, Repeat(b, c), 0
  {
    var mid: nat :| PlacedBlock(w, b, pc, mid, Some(end)) && CondAt(w, c, mid, end, pc);
    m, q := BlockMirrors(w, b, pc, mid, Some(end), fuel, regs, mregs);
    var x := RunBlock(w.vm, b, fuel, regs);
    if x.Done? {
      var a, r := m, q;
      m, q := Decided(w, c, mid, end, pc, x.regs, r);
      GoOn(w, a, m, pc, mregs, mid, r);
      m := a + m;
      var v := Eval(w.vm, c, x.regs);
      if v.Some? && !Truthy(v.value) && fuel > 0 {
        var d, t := m, q;
        m, q := StmtMirrors(w, Repeat(b, c), pc, end, brk, fuel - 1, x.regs, t);
        Onward(w, RunStmt(w.vm, Repeat(b, c), fuel - 1, x.regs), pc, pc, end, brk, fuel - 1, fuel, mregs, d, t, m, q);
        m := d + m;
      }
    }
  }
}
