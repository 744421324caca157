/**
 * The jump-list compiler for conditions and short-circuit values, as functions on chunks
 * (src/compiler/rules.rs). A failed assertion of the source is the failure `Panic`.
 */
module LuaCompile {
  import opened Prelude
  import opened LuaVm

  datatype Fail = Registers | Constants | Outside | Panic

  datatype Result<+T> = Ok(value: T) | Err(fail: Fail) {
    predicate IsFailure() { Err? }
    function PropagateFailure<U>(): Result<U>
      requires Err?
    {
      Err(fail)
    }
    function Extract(): T
      requires Ok?
    {
      value
    }
  }

  /**
   * `orphans` is not in the source: it records whether an elision in `patch_to_here` has ever
   * left a jump pointing past the pair it removed.
   */
  datatype Chunk = Chunk(
    tape: seq<Instr>,
    consts: seq<Value>,
    freereg: nat,
    nactvar: nat,
    maxStack: nat,
    labels: seq<nat>,
    patches: seq<(nat, nat)>,
    lastTarget: nat,
    orphans: bool)

  datatype Kind =
    | InReg(r: nat)
    | Jump(head: Option<nat>)
    | Literal(v: Value)

  /** An expression under compilation: where its value is, and the jumps that leave it early. */
  datatype Desc = Desc(kind: Kind, tl: seq<nat>, fl: seq<nat>)

  predicate HasJumps(d: Desc) {
    d.tl != [] || d.fl != [] || (d.kind.Jump? && d.kind.head.Some?)
  }

  // ----- registers and constants -----

  function Emit(ch: Chunk, i: Instr): Chunk {
    ch.(tape := ch.tape + [i])
  }

  function ReserveReg(ch: Chunk): Result<(nat, Chunk)> {
    if ch.nactvar > ch.freereg then Err(Panic)
    else if ch.freereg == 255 then Err(Registers)
    else
      var n := ch.freereg + 1;
      Ok((ch.freereg, ch.(freereg := n, maxStack := if n > ch.maxStack then n else ch.maxStack)))
  }

  /** Locals are not freed; a temporary must be the one reserved last. */
  function FreeReg(ch: Chunk, r: nat): Result<Chunk> {
    if r < ch.nactvar then Ok(ch)
    else if r + 1 == ch.freereg then Ok(ch.(freereg := ch.freereg - 1))
    else Err(Panic)
  }

  function FreeRegs(ch: Chunk, r1: nat, r2: nat): Result<Chunk> {
    if r1 > r2 then
      var c :- FreeReg(ch, r1);
      FreeReg(c, r2)
    else
      var c :- FreeReg(ch, r2);
      FreeReg(c, r1)
  }

  function IndexOf(consts: seq<Value>, v: Value): nat {
    if consts == [] || consts[0] == v then 0 else 1 + IndexOf(consts[1..], v)
  }

  function AllocConstant(ch: Chunk, v: Value): Result<(nat, Chunk)> {
    var i := IndexOf(ch.consts, v);
    if i < |ch.consts| then Ok((i, ch))
    else if |ch.consts| >= 65535 then Err(Constants)
    else Ok((|ch.consts|, ch.(consts := ch.consts + [v])))
  }

  // ----- jump lists -----

  predicate IsControl(i: Instr) {
    i.CMP? || i.TEST? || i.TESTSET?
  }

  /** `assert_ctrl_predecessor` for every jump of a list. */
  predicate Controlled(tape: seq<Instr>, list: seq<nat>) {
    forall j :: j in list ==> j == 0 || (j - 1 < |tape| && IsControl(tape[j - 1]))
  }

  predicate AreJumps(tape: seq<Instr>, list: seq<nat>) {
    forall j :: j in list ==> j < |tape| && tape[j].JMP?
  }

  /** `TEST` and `TESTSET` skip on opposite flags. */
  function Lowered(i: Instr): Instr {
    if i.TESTSET? && i.dst == NO_REG then TEST(i.src, !i.inverted) else i
  }

  function DowngradeTestsets(tape: seq<Instr>, list: seq<nat>): (r: seq<Instr>)
    ensures |r| == |tape|
  {
    seq(|tape|, i requires 0 <= i < |tape| => if i + 1 in list then Lowered(tape[i]) else tape[i])
  }

  function AimJumps(tape: seq<Instr>, list: seq<nat>, target: int): (r: seq<Instr>)
    ensures |r| == |tape|
  {
    seq(|tape|, i requires 0 <= i < |tape| => if i in list then JMP(target - (i + 1)) else tape[i])
  }

  function Max(x: nat, y: nat): nat {
    if y > x then y else x
  }

  function PatchTo(ch: Chunk, list: seq<nat>, target: nat): Result<Chunk> {
    if !Controlled(ch.tape, list) || !AreJumps(ch.tape, list) then Err(Panic)
    else Ok(ch.(tape := AimJumps(DowngradeTestsets(ch.tape, list), list, target),
      lastTarget := Max(ch.lastTarget, target)))
  }

  function Position(list: seq<nat>, j: nat): nat {
    if list == [] || list[0] == j then 0 else 1 + Position(list[1..], j)
  }

  predicate Elidable(i: Instr) {
    i.TEST? || (i.TESTSET? && i.dst == NO_REG)
  }

  /** Nothing before position `cut` jumps past it, and no label or label jump lies past it. */
  predicate NothingPast(ch: Chunk, cut: nat) {
    && (forall i :: 0 <= i < cut && i < |ch.tape| && ch.tape[i].JMP? ==> i + 1 + ch.tape[i].offset <= cut)
    && (forall p :: p in ch.patches ==> p.0 < cut && (p.1 < |ch.labels| ==> ch.labels[p.1] <= cut))
  }

  function PatchToHere(ch: Chunk, list: seq<nat>): Result<Chunk>
    decreases |list|
  {
    var end := |ch.tape|;
    var pos := if end == 0 then |list| else Position(list, end - 1);
    if pos >= |list| || end == 1 || !Elidable(ch.tape[end - 2]) then PatchTo(ch, list, end)
    else
      PatchToHere(ch.(tape := ch.tape[..end - 2], orphans := ch.orphans || !NothingPast(ch, end - 2)),
        list[..pos] + list[pos + 1..])
  }

  /** Does some jump of the list need the boolean tail, because it does not preserve a value? */
  predicate NeedValue(tape: seq<Instr>, list: seq<nat>) {
    exists j :: j in list && (j == 0 || j - 1 >= |tape| || !(tape[j - 1].TESTSET? && tape[j - 1].dst == NO_REG))
  }

  /** The control of a value-preserving jump, once the destination register is known. */
  function Settled(i: Instr, reg: nat): Instr {
    if i.TESTSET? && i.dst == NO_REG then
      if i.src == reg then TEST(i.src, !i.inverted) else TESTSET(reg, i.src, i.inverted)
    else i
  }

  function PatchOne(tape: seq<Instr>, j: nat, vtarget: int, reg: nat, dtarget: int): (r: seq<Instr>)
    ensures |r| == |tape|
  {
    var keeps := 0 < j <= |tape| && tape[j - 1].TESTSET? && tape[j - 1].dst == NO_REG;
    var t := if keeps then tape[j - 1 := Settled(tape[j - 1], reg)] else tape;
    if j < |t| && t[j].JMP? then t[j := JMP((if keeps then vtarget else dtarget) - (j + 1))] else t
  }

  function PatchListAux(tape: seq<Instr>, list: seq<nat>, vtarget: int, reg: nat, dtarget: int): (r: seq<Instr>)
    ensures |r| == |tape|
    decreases |list|
  {
    if list == [] then tape
    else PatchListAux(PatchOne(tape, list[0], vtarget, reg, dtarget), list[1..], vtarget, reg, dtarget)
  }

  function Flipped(i: Instr): Instr {
    match i
    case CMP(op, l, r, inverted) => CMP(op, l, r, !inverted)
    case TEST(s, inverted) => TEST(s, !inverted)
    case TESTSET(d, s, inverted) => TESTSET(d, s, !inverted)
    case _ => i
  }

  function FlipControl(ch: Chunk, j: nat): Result<Chunk> {
    if j == 0 then Ok(ch)
    else if j > |ch.tape| || !IsControl(ch.tape[j - 1]) then Err(Panic)
    else Ok(ch.(tape := ch.tape[j - 1 := Flipped(ch.tape[j - 1])]))
  }

  function FlipAll(ch: Chunk, list: seq<nat>): Result<Chunk>
    decreases |list|
  {
    if list == [] then Ok(ch)
    else
      var c :- FlipControl(ch, list[0]);
      FlipAll(c, list[1..])
  }

  function NegateCond(ch: Chunk, d: Desc): Result<(Desc, Chunk)> {
    if d.kind.Jump? && d.kind.head.Some? then Err(Panic)
    else
      var c :- FlipAll(ch, d.tl + d.fl);
      Ok((d.(tl := d.fl, fl := d.tl), c))
  }

  /** `TESTSET` with a placeholder, and a jump taken when the truth of `src` is `ifTruthy`. */
  function EmitTestJump(ch: Chunk, src: nat, ifTruthy: bool): (nat, Chunk) {
    (|ch.tape| + 1, Emit(Emit(ch, TESTSET(NO_REG, src, !ifTruthy)), JMP(0)))
  }

  // ----- discharge to a register -----

  /** A literal is loaded now; other kinds are left alone. */
  function LoadLiteral(ch: Chunk, d: Desc): Result<(Desc, Chunk)> {
    if d.kind.Literal? then
      var (idx, c) :- AllocConstant(ch, d.kind.v);
      var (dst, c') :- ReserveReg(c);
      Ok((d.(kind := InReg(dst)), Emit(c', LOAD(dst, idx))))
    else Ok((d, ch))
  }

  /** The register that will hold the value; a local is copied so that it is not overwritten. */
  function PickDst(ch: Chunk, d: Desc): Result<(nat, Chunk)> {
    match d.kind
    case InReg(r) =>
      if r < ch.nactvar then
        var (copy, c) :- ReserveReg(ch);
        Ok((copy, Emit(c, MOVE(copy, r))))
      else Ok((r, ch))
    case Jump(_) => ReserveReg(ch)
    case Literal(_) => Err(Panic)
  }

  /** The pending head becomes the last jump of the true list. */
  function Absorbed(d: Desc): Desc {
    if d.kind.Jump? && d.kind.head.Some? then Desc(Jump(None), d.tl + [d.kind.head.value], d.fl) else d
  }

  /** Both lists of an expression patched, one after the other. */
  function PatchedBoth(tape: seq<Instr>, d: Desc, final: int, dst: nat, ft: int, tt: int): (r: seq<Instr>)
    ensures |r| == |tape|
  {
    PatchListAux(PatchListAux(tape, d.fl, final, dst, ft), d.tl, final, dst, tt)
  }

  /** Every jump preserves a value: all of them meet here. */
  function ResolvePlain(ch: Chunk, d: Desc, dst: nat): Chunk {
    ch.(tape := PatchedBoth(ch.tape, d, |ch.tape|, dst, 0, 0))
  }

  /** The two instructions that make a boolean, and the jump over them for a value already in `dst`. */
  function TailCode(dst: nat, isJump: bool, idx: nat): seq<Instr> {
    if isJump then [LFALSESKIP(dst), LOAD(dst, idx)] else [JMP(0), LFALSESKIP(dst), LOAD(dst, idx)]
  }

  function ResolveTail(ch: Chunk, d: Desc, dst: nat, isJump: bool): Result<Chunk> {
    var (idx, c) :- AllocConstant(ch, Bool(true));
    var n := |ch.tape|;
    var ft := if isJump then n else n + 1;
    var tape := PatchedBoth(ch.tape + TailCode(dst, isJump, idx), d, ft + 2, dst, ft, ft + 1);
    Ok(c.(tape := if isJump then tape else tape[n := JMP(2)]))
  }

  /** Lists resolved at `dst`; `isJump` says that falling through means false. */
  function ResolveLists(ch: Chunk, d: Desc, dst: nat, isJump: bool): Result<Chunk> {
    if !Controlled(ch.tape, d.fl) || !Controlled(ch.tape, d.tl) then Err(Panic)
    else if !NeedValue(ch.tape, d.fl) && !NeedValue(ch.tape, d.tl) then Ok(ResolvePlain(ch, d, dst))
    else ResolveTail(ch, d, dst, isJump)
  }

  function Discharge(ch: Chunk, d: Desc): Result<(nat, Chunk)> {
    if d.kind.InReg? && !HasJumps(d) then Ok((d.kind.r, ch))
    else
      var (d1, c1) :- LoadLiteral(ch, d);
      if d.kind.Literal? && !HasJumps(d1) then Ok((d1.kind.r, c1))
      else
        var (dst, c2) :- PickDst(c1, d1);
        var d2 := Absorbed(d1);
        if !HasJumps(d2) then Ok((dst, c2))
        else
          var c3 :- ResolveLists(c2, d2, dst, d1.kind.Jump?);
          Ok((dst, c3))
  }

  // ----- going by truth -----

  /** Fall through when the expression is truthy; the jumps taken otherwise are in `fl`. */
  function GoIfTrue(ch: Chunk, d: Desc): Result<(Desc, Chunk)> {
    if d.kind.Literal? && Truthy(d.kind.v) then Ok((d, ch))
    else if d.kind.Literal? then
      var (r, c) :- Discharge(ch, d);
      GoIfTrueReg(c, Desc(InReg(r), [], []), r)
    else
      match d.kind
      case Jump(Some(j)) =>
        var c :- FlipControl(ch, j);
        Ok((Desc(Jump(None), d.tl, d.fl + [j]), c))
      case Jump(None) =>
        if d.fl == [] && d.tl != [] then NegateCond(ch, d) else Ok((d, ch))
      case InReg(r) => GoIfTrueReg(ch, d, r)
  }

  function GoIfTrueReg(ch: Chunk, d: Desc, r: nat): Result<(Desc, Chunk)> {
    var c :- FreeReg(ch, r);
    var (j, c') := EmitTestJump(c, r, false);
    Ok((d.(fl := d.fl + [j]), c'))
  }

  /** Fall through when the expression is falsy; the jumps taken otherwise are in `tl`. */
  function GoIfFalse(ch: Chunk, d: Desc): Result<(Desc, Chunk)> {
    if d.kind.Literal? && !Truthy(d.kind.v) then Ok((d, ch))
    else if d.kind.Literal? then
      var (r, c) :- Discharge(ch, d);
      GoIfFalseReg(c, Desc(InReg(r), [], []), r)
    else
      match d.kind
      case Jump(Some(j)) => Ok((Desc(Jump(None), d.tl + [j], d.fl), ch))
      case Jump(None) =>
        if d.tl == [] && d.fl != [] then NegateCond(ch, d) else Ok((d, ch))
      case InReg(r) => GoIfFalseReg(ch, d, r)
  }

  function GoIfFalseReg(ch: Chunk, d: Desc, r: nat): Result<(Desc, Chunk)> {
    var c :- FreeReg(ch, r);
    var (j, c') := EmitTestJump(c, r, true);
    Ok((d.(tl := d.tl + [j]), c'))
  }

  // ----- expressions -----

  /** Negation swaps the exits and drops the values their jumps preserve. */
  function CodeNot(ch: Chunk, d: Desc, kind: Kind): Result<(Desc, Chunk)> {
    if !Controlled(ch.tape, d.tl) || !Controlled(ch.tape, d.fl) then Err(Panic)
    else Ok((Desc(kind, d.fl, d.tl), ch.(tape := DowngradeTestsets(DowngradeTestsets(ch.tape, d.tl), d.fl))))
  }

  function CompileNot(ch: Chunk, d: Desc): Result<(Desc, Chunk)> {
    match d.kind
    case Literal(v) =>
      if !HasJumps(d) then Ok((Desc(Literal(Bool(!Truthy(v))), [], []), ch))
      else CodeNot(ch, d, Literal(Bool(!Truthy(v))))
    case Jump(Some(j)) =>
      var c :- FlipControl(ch, j);
      CodeNot(c, d, d.kind)
    case Jump(None) => Err(Panic)
    case InReg(src) =>
      var c :- FreeReg(ch, src);
      var (dst, c') :- ReserveReg(c);
      CodeNot(Emit(c', NOT(dst, src)), d, InReg(dst))
  }

  /** The jump after a comparison is taken when the comparison holds. */
  function CompareInstr(op: Comparison, l: nat, r: nat): Instr {
    match op
    case Eq => CMP(EQ, l, r, true)
    case NEq => CMP(EQ, l, r, false)
    case Lt => CMP(LT, l, r, true)
    case Gt => CMP(LT, r, l, true)
    case LEq => CMP(LE, l, r, true)
    case GEq => CMP(LE, r, l, true)
  }

  /** A comparison of two registers, whose temporaries are then reclaimed. */
  function CompareRegs(ch: Chunk, op: Comparison, l: nat, r: nat): Result<(Desc, Chunk)> {
    var c := Emit(Emit(ch, CompareInstr(op, l, r)), JMP(0));
    var c' :- FreeRegs(c, l, r);
    Ok((Desc(Jump(Some(|ch.tape| + 1)), [], []), c'))
  }

  function CompileExpr(ch: Chunk, e: Expr): Result<(Desc, Chunk)>
    decreases e, 0
  {
    match e
    case Local(r) => Ok((Desc(InReg(r), [], []), ch))
    case Const(v) => Ok((Desc(Literal(v), [], []), ch))
    case Paren(x) => CompileExpr(ch, x)
    case Not(x) =>
      var (d, c) :- CompileExpr(ch, x);
      CompileNot(c, d)
    case And(x, y) =>
      var (d, c) :- CompileExpr(ch, x);
      var (d1, c1) :- GoIfTrue(c, d);
      var c2 :- PatchToHere(c1, d1.tl);
      var (d3, c3) :- CompileExpr(c2, y);
      Ok((d3.(fl := d3.fl + d1.fl), c3))
    case Or(x, y) =>
      var (d, c) :- CompileExpr(ch, x);
      var (d1, c1) :- GoIfFalse(c, d);
      var c2 :- PatchToHere(c1, d1.fl);
      var (d3, c3) :- CompileExpr(c2, y);
      Ok((d3.(tl := d3.tl + d1.tl), c3))
    case Compare(op, x, y) =>
      var (l, c1) :- CompileToReg(ch, x);
      var (r, c2) :- CompileToReg(c1, y);
      CompareRegs(c2, op, l, r)
  }

  function CompileToReg(ch: Chunk, e: Expr): Result<(nat, Chunk)>
    decreases e, 1
  {
    var (d, c) :- CompileExpr(ch, e);
    Discharge(c, d)
  }

  /** The jumps returned are taken when the condition is false. */
  function CompileBranch(ch: Chunk, e: Expr): Result<(seq<nat>, Chunk)> {
    var (d, c) :- CompileExpr(ch, e);
    var (d1, c1) :- GoIfTrue(c, d);
    var c2 :- PatchToHere(c1, d1.tl);
    Ok((d1.fl, c2))
  }
}
