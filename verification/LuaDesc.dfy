/** What a compiled expression promises: the invariants of `ExprDesc`, stated over runs. */
module LuaDesc {
  import opened Prelude
  import opened LuaVm
  import opened LuaCompile
  import opened LuaExec

  function Elems(l: seq<nat>): set<nat> {
    set x | x in l
  }

  function Pend(d: Desc): set<nat> {
    Elems(d.tl) + Elems(d.fl)
  }

  /** The code of a description that ends in a pending comparison stops before that comparison. */
  function End(ch: Chunk, d: Desc): nat {
    if d.kind.Jump? && d.kind.head.Some? && |ch.tape| >= 2 then |ch.tape| - 2 else |ch.tape|
  }

  /** The registers below `base` are as they were. */
  ghost predicate Kept(a: Regs, b: Regs, base: nat) {
    forall r :: 0 <= r < base ==> Get(a, r) == Get(b, r)
  }

  lemma KeptTrans(a: Regs, b: Regs, c: Regs, base: nat, base': nat)
    requires Kept(a, b, base) && Kept(b, c, base') && base <= base'
    ensures Kept(a, c, base)
  {
    forall r | 0 <= r < base ensures Get(a, r) == Get(c, r) {
      assert Get(b, r) == Get(c, r);
    }
  }

  // ----- structure -----

  /** A jump that may stand in a list: it follows its control instruction, and is still to be aimed. */
  predicate PendingAt(tape: seq<Instr>, start: nat, end: nat, j: nat) {
    && start < j < end <= |tape|
    && tape[j].JMP? && IsControl(tape[j - 1])
    && (tape[j - 1].TESTSET? ==> tape[j - 1].dst == NO_REG)
  }

  /** Placeholder destinations are left only where a list will resolve them. */
  ghost predicate NoStray(tape: seq<Instr>, start: nat, pend: set<nat>) {
    forall i :: start <= i < |tape| && Placeholder(tape[i]) ==> i + 1 in pend
  }

  ghost predicate ListsOk(tape: seq<Instr>, start: nat, end: nat, a: seq<nat>, b: seq<nat>) {
    && start <= end <= |tape|
    && (forall j :: j in a || j in b ==> PendingAt(tape, start, end, j))
    && NoDup(a + b)
    && NoStray(tape, start, Elems(a) + Elems(b))
  }

  /** The pending head is the last jump, after the last comparison. */
  predicate HeadOk(tape: seq<Instr>, start: nat, d: Desc) {
    match d.kind
    case Jump(Some(j)) => start + 2 <= |tape| && j == |tape| - 1 && tape[j - 1].CMP? && tape[j].JMP?
    case Jump(None) => false
    case _ => true
  }

  /** A value is in a local, or in the temporary reserved for it. */
  predicate RegOk(ch: Chunk, base: nat, d: Desc) {
    ch.nactvar <= base <= 255 &&
    match d.kind
    case InReg(r) => (r < ch.nactvar && ch.freereg == base) || (r == base < 255 && ch.freereg == base + 1)
    case _ => ch.freereg == base
  }

  ghost predicate WellFormed(ch: Chunk, start: nat, base: nat, d: Desc) {
    HeadOk(ch.tape, start, d) && RegOk(ch, base, d) && ListsOk(ch.tape, start, End(ch, d), d.tl, d.fl)
  }

  /** Compilation only appends: earlier code, constants and scopes stay as they were. */
  ghost predicate Extends(a: Chunk, b: Chunk) {
    && a.tape <= b.tape && a.consts <= b.consts
    && b.nactvar == a.nactvar && b.labels == a.labels && b.patches == a.patches
    && (a.orphans ==> b.orphans)
  }

  // ----- meaning -----

  /**
   * What the last comparison says about the value: with `sense`, its jump is taken when the
   * value is true; once its polarity is flipped, when it is false.
   */
  predicate HeadTells(vm: Vm, i: Instr, r: Regs, v: Option<Value>, sense: bool) {
    IsControl(i) &&
    match Skips(vm, i, r)
    case None => v == None
    case Some(skip) => v == Some(Bool(skip != sense))
  }

  /** A jump with a placeholder carries the value in its source register; any other, a boolean. */
  predicate Carries(tape: seq<Instr>, j: nat, r: Regs, v: Value) {
    0 < j <= |tape| && if tape[j - 1].TESTSET? then Get(r, tape[j - 1].src) == v else v.Bool?
  }

  ghost predicate KindTells(vm: Vm, tape: seq<Instr>, kind: Kind, r: Regs, v: Option<Value>) {
    match kind
    case InReg(q) => v == Some(Get(r, q))
    case Literal(c) => v == Some(c)
    case Jump(Some(j)) => 0 < j <= |tape| && HeadTells(vm, tape[j - 1], r, v, true)
    case Jump(None) => false
  }

  ghost predicate JumpTells(tape: seq<Instr>, d: Desc, j: nat, r: Regs, v: Option<Value>) {
    v.Some? && j in Pend(d)
    && (j in d.tl ==> Truthy(v.value)) && (j in d.fl ==> !Truthy(v.value))
    && Carries(tape, j, r, v.value)
  }

  /** One run of the code agrees with the value of the expression. */
  ghost predicate FitsExit(vm: Vm, tape: seq<Instr>, base: nat, d: Desc, v: Option<Value>, regs: Regs, x: Exit) {
    match x
    case Raise => v == None
    case Stuck => false
    case Fall(r) => Kept(regs, r, base) && KindTells(vm, tape, d.kind, r, v)
    case AtJump(j, r) => Kept(regs, r, base) && JumpTells(tape, d, j, r, v)
  }

  ghost predicate Fits(vm: Vm, ch: Chunk, start: nat, base: nat, d: Desc, v: Option<Value>, regs: Regs) {
    FitsExit(vm, ch.tape, base, d, v, regs, Exec(vm, ch.consts, ch.tape, Pend(d), start, End(ch, d), regs))
  }

  ghost predicate Good(vm: Vm, ch: Chunk, start: nat, base: nat, e: Expr, d: Desc) {
    forall regs :: Fits(vm, ch, start, base, d, Eval(vm, e, regs), regs)
  }

  /**
   * After the expression has been turned into a jump: the run falls out, or reaches a jump of
   * `stay`, if the truth is `want`; otherwise it leaves by a jump of `leave` carrying the value.
   */
  ghost predicate GoesExit(tape: seq<Instr>, base: nat, stay: seq<nat>, leave: seq<nat>, want: bool, v: Option<Value>,
    regs: Regs, x: Exit)
  {
    match x
    case Raise => v == None
    case Stuck => false
    case Fall(r) => Kept(regs, r, base) && v.Some? && Truthy(v.value) == want
    case AtJump(j, r) =>
      Kept(regs, r, base) && v.Some? &&
      if j in leave then Truthy(v.value) != want && Carries(tape, j, r, v.value)
      else j in stay && Truthy(v.value) == want
  }

  ghost predicate Goes(vm: Vm, ch: Chunk, start: nat, base: nat, stay: seq<nat>, leave: seq<nat>, want: bool,
    v: Option<Value>, regs: Regs)
  {
    GoesExit(ch.tape, base, stay, leave, want, v, regs,
      Exec(vm, ch.consts, ch.tape, Elems(stay) + Elems(leave), start, |ch.tape|, regs))
  }

  /** After discharge: the run falls out with the value in `dst`, and nothing is pending. */
  ghost predicate Delivers(x: Exit, base: nat, dst: nat, v: Option<Value>, regs: Regs) {
    match x
    case Raise => v == None
    case Fall(r) => Kept(regs, r, base) && v == Some(Get(r, dst))
    case _ => false
  }

  ghost predicate Yields(vm: Vm, ch: Chunk, start: nat, base: nat, dst: nat, v: Option<Value>, regs: Regs) {
    Delivers(Exec(vm, ch.consts, ch.tape, {}, start, |ch.tape|, regs), base, dst, v, regs)
  }

  // ----- appending code -----

  lemma ExecExtended(vm: Vm, k: seq<Value>, k': seq<Value>, tape: seq<Instr>, tape': seq<Instr>, pend: set<nat>,
    pend': set<nat>, start: nat, mid: nat, end: nat, regs: Regs)
    requires start <= mid <= end && mid <= |tape| && mid <= |tape'| && k <= k'
    requires forall i :: start <= i < mid ==> tape'[i] == tape[i]
    requires forall i :: start <= i <= mid ==> (i in pend <==> i in pend')
    requires !Exec(vm, k, tape, pend, start, mid, regs).Stuck?
    ensures Exec(vm, k', tape', pend', start, end, regs) ==
            match Exec(vm, k, tape, pend, start, mid, regs) {
              case Fall(r) => Exec(vm, k', tape', pend', mid, end, r)
              case x => x
            }
  {
    ExecLocal(vm, k, k', tape, tape', pend, pend', start, mid, regs);
    ExecSplit(vm, k', tape', pend', start, mid, end, regs);
  }
}
