/**
 * Structured statements over opaque straight-line work: their meaning, and how `compile_if`,
 * `compile_while` and `compile_repeat` lay them out with labels.
 */
module LuaStmt {
  import opened Prelude
  import opened LuaVm
  import opened LuaCompile

  datatype Stmt =
    | Work(id: nat)
    | Break
    | Do(body: Block)
    | If(arms: Arms)
    | While(cond: Expr, body: Block)
    | Repeat(body: Block, cond: Expr)

  datatype Block = Nothing | Then(s: Stmt, rest: Block)

  /** The arms of an `if`: conditions in order, then perhaps an `else`. */
  datatype Arms = Fi | Else(body: Block) | Arm(cond: Expr, body: Block, rest: Arms)

  // ----- meaning -----

  datatype Ending = Done(regs: Regs) | Broke(regs: Regs) | Error | Timeout

  /** Runs a statement; every loop may go round `fuel` times more. */
  function RunStmt(vm: Vm, s: Stmt, fuel: nat, regs: Regs): Ending
    decreases fuel, s
  {
    match s
    case Work(id) => (match vm.work(id, regs) case None => Error case Some(r) => Done(r))
    case Break => Broke(regs)
    case Do(b) => RunBlock(vm, b, fuel, regs)
    case If(arms) => RunArms(vm, arms, fuel, regs)
    case While(c, b) =>
      (match Eval(vm, c, regs)
       case None => Error
       case Some(v) =>
         if !Truthy(v) then Done(regs)
         else
           match RunBlock(vm, b, fuel, regs)
           case Done(r) => if fuel == 0 then Timeout else RunStmt(vm, s, fuel - 1, r)
           case Broke(r) => Done(r)
           case x => x)
    case Repeat(b, c) =>
      match RunBlock(vm, b, fuel, regs)
      case Done(r) =>
        (match Eval(vm, c, r)
         case None => Error
         case Some(v) =>
           if Truthy(v) then Done(r)
           else if fuel == 0 then Timeout
           else RunStmt(vm, s, fuel - 1, r))
      case Broke(r) => Done(r)
      case x => x
  }

  function RunBlock(vm: Vm, b: Block, fuel: nat, regs: Regs): Ending
    decreases fuel, b
  {
    match b
    case Nothing => Done(regs)
    case Then(s, rest) =>
      match RunStmt(vm, s, fuel, regs)
      case Done(r) => RunBlock(vm, rest, fuel, r)
      case x => x
  }

  function RunArms(vm: Vm, arms: Arms, fuel: nat, regs: Regs): Ending
    decreases fuel, arms
  {
    match arms
    case Fi => Done(regs)
    case Else(b) => RunBlock(vm, b, fuel, regs)
    case Arm(c, b, rest) =>
      match Eval(vm, c, regs)
      case None => Error
      case Some(v) => if Truthy(v) then RunBlock(vm, b, fuel, regs) else RunArms(vm, rest, fuel, regs)
  }

  // ----- labels -----

  /** A label number is kept in sixteen bits. */
  const LABELS := 0x10000

  /** The number of the label made after `k` others. */
  function LabelNumber(k: nat): nat {
    k % LABELS
  }

  function NewLabel(ch: Chunk): (nat, Chunk) {
    (LabelNumber(|ch.labels|), ch.(labels := ch.labels + [0]))
  }

  function SetLabel(ch: Chunk, l: nat, at: nat): Result<Chunk> {
    if l >= |ch.labels| then Err(Panic)
    else Ok(ch.(labels := ch.labels[l := at], lastTarget := Max(ch.lastTarget, at)))
  }

  function EmitJump(ch: Chunk, l: nat): Chunk {
    Emit(ch.(patches := ch.patches + [(|ch.tape|, l)]), JMP(0))
  }

  /** Jumps of a list become jumps to a label; they carry no value. */
  function ListToLabel(ch: Chunk, list: seq<nat>, l: nat): Result<Chunk> {
    if !Controlled(ch.tape, list) then Err(Panic)
    else Ok(ch.(tape := DowngradeTestsets(ch.tape, list),
      patches := ch.patches + seq(|list|, i requires 0 <= i < |list| => (list[i], l))))
  }

  // ----- statements -----

  /** Leaving a scope gives its registers back. */
  function Scoped(ch: Chunk, c: Chunk): Chunk {
    c.(freereg := ch.freereg, nactvar := ch.nactvar)
  }

  function CompileStmt(ch: Chunk, s: Stmt, brk: Option<nat>): Result<Chunk>
    decreases s, 0
  {
    match s
    case Work(id) => Ok(Emit(ch, WORK(id)))
    case Break => if brk.None? then Err(Outside) else Ok(EmitJump(ch, brk.value))
    case Do(b) => CompileScope(ch, b, brk)
    case If(arms) =>
      var (end, c) := NewLabel(ch);
      var c1 :- CompileArms(c, arms, end, brk);
      SetLabel(c1, end, |c1.tape|)
    case While(cond, b) =>
      var (out, c) := NewLabel(ch);
      var (top, c1) := NewLabel(c);
      var c2 :- SetLabel(c1, top, |c1.tape|);
      var (list, c3) :- CompileBranch(c2, cond);
      var c4 :- CompileBlock(c3, b, Some(out));
      var c5 := EmitJump(c4, top);
      var c6 :- ListToLabel(c5, list, out);
      var c7 :- SetLabel(c6, out, |c6.tape|);
      Ok(Scoped(ch, c7))
    case Repeat(b, cond) =>
      var (out, c) := NewLabel(ch);
      var c1 :- CompileBlock(c, b, Some(out));
      var (list, c2) :- CompileBranch(c1, cond);
      var c3 :- PatchTo(c2, list, |ch.tape|);
      SetLabel(Scoped(ch, c3), out, |c3.tape|)
  }

  function CompileBlock(ch: Chunk, b: Block, brk: Option<nat>): Result<Chunk>
    decreases b, 0
  {
    match b
    case Nothing => Ok(ch)
    case Then(s, rest) =>
      var c :- CompileStmt(ch, s, brk);
      CompileBlock(c, rest, brk)
  }

  function CompileScope(ch: Chunk, b: Block, brk: Option<nat>): Result<Chunk>
    decreases b, 1
  {
    var c :- CompileBlock(ch, b, brk);
    Ok(Scoped(ch, c))
  }

  function CompileArms(ch: Chunk, arms: Arms, end: nat, brk: Option<nat>): Result<Chunk>
    decreases arms, 0
  {
    match arms
    case Fi => Ok(ch)
    case Else(b) => CompileScope(ch, b, brk)
    case Arm(cond, b, rest) =>
      var (list, c1) :- CompileBranch(ch, cond);
      var c2 :- CompileScope(c1, b, brk);
      var c3 := if rest.Fi? then c2 else EmitJump(c2, end);
      var c4 :- PatchToHere(c3, list);
      CompileArms(c4, rest, end, brk)
  }

  // ----- assembly -----

  /** Aims every labelled jump at the place of its label. */
  function Assembled(tape: seq<Instr>, labels: seq<nat>, patches: seq<(nat, nat)>): Result<seq<Instr>>
    decreases |patches|
  {
    if patches == [] then Ok(tape)
    else
      var (i, l) := patches[0];
      if l >= |labels| || i >= |tape| || !tape[i].JMP? then Err(Panic)
      else Assembled(tape[i := JMP(labels[l] - (i + 1))], labels, patches[1..])
  }

  // ----- the statements covered -----

  /** Conditions name active locals, and `if` has a condition. */
  predicate StmtOk(s: Stmt, n: nat) {
    match s
    case Work(_) => true
    case Break => true
    case Do(b) => BlockOk(b, n)
    case If(arms) => arms.Arm? && ArmsOk(arms, n)
    case While(c, b) => WellScoped(c, n) && BlockOk(b, n)
    case Repeat(b, c) => WellScoped(c, n) && BlockOk(b, n)
  }

  predicate BlockOk(b: Block, n: nat) {
    match b
    case Nothing => true
    case Then(s, rest) => StmtOk(s, n) && BlockOk(rest, n)
  }

  predicate ArmsOk(arms: Arms, n: nat) {
    match arms
    case Fi => true
    case Else(b) => BlockOk(b, n)
    case Arm(c, b, rest) => WellScoped(c, n) && BlockOk(b, n) && ArmsOk(rest, n)
  }
}
