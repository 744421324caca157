/**
 * Running a stretch of code some of whose jumps are still pending. A run ends by falling out at
 * the end, or at a pending jump reached from its control instruction.
 */
module LuaExec {
  import opened Prelude
  import opened LuaVm
  import opened LuaCompile

  datatype Exit = Fall(regs: Regs) | AtJump(j: nat, regs: Regs) | Raise | Stuck

  /** Whether a control instruction skips; `None` if it raises. */
  function Skips(vm: Vm, i: Instr, regs: Regs): Option<bool>
    requires IsControl(i)
  {
    match i
    case CMP(op, l, r, inverted) =>
      (match vm.cmp(op, Get(regs, l), Get(regs, r)) case None => None case Some(b) => Some(b != inverted))
    case TEST(s, inverted) => Some(Truthy(Get(regs, s)) != inverted)
    case TESTSET(_, s, inverted) => Some(Truthy(Get(regs, s)) == inverted)
  }

  predicate Placeholder(i: Instr) {
    i.TESTSET? && i.dst == NO_REG
  }

  /** The registers after a control instruction that does not skip. */
  function Assigned(i: Instr, regs: Regs): Regs {
    if i.TESTSET? && i.dst != NO_REG then regs[i.dst := Get(regs, i.src)] else regs
  }

  /** What one instruction does to a run: it moves on, always forward, or ends the run. */
  datatype Move = Goto(to: nat, regs: Regs) | Out(exit: Exit)

  function MoveFrom(vm: Vm, k: seq<Value>, tape: seq<Instr>, pend: set<nat>, pc: nat, regs: Regs): (m: Move)
    ensures m.Goto? ==> m.to > pc
  {
    if pc >= |tape| || pc in pend then Out(Stuck)
    else
      var i := tape[pc];
      if IsControl(i) then
        match Skips(vm, i, regs)
        case None => Out(Raise)
        case Some(true) => Goto(pc + 2, regs)
        case Some(false) =>
          if pc + 1 in pend then Out(AtJump(pc + 1, regs))
          else if Placeholder(i) then Out(Stuck)
          else Goto(pc + 1, Assigned(i, regs))
      else if i.JMP? then
        if i.offset >= 0 then Goto(pc + 1 + i.offset, regs) else Out(Stuck)
      else
        match i
        case MOVE(dst, src) => Goto(pc + 1, regs[dst := Get(regs, src)])
        case LOAD(dst, idx) => if idx < |k| then Goto(pc + 1, regs[dst := k[idx]]) else Out(Stuck)
        case LFALSESKIP(dst) => Goto(pc + 2, regs[dst := Bool(false)])
        case NOT(dst, src) => Goto(pc + 1, regs[dst := Bool(!Truthy(Get(regs, src)))])
        case _ => Out(Stuck)
  }

  /** Code for expressions only jumps forward, so this always ends. */
  function Exec(vm: Vm, k: seq<Value>, tape: seq<Instr>, pend: set<nat>, pc: nat, end: nat, regs: Regs): Exit
    decreases if pc < end then end - pc else 0
  {
    if pc == end then Fall(regs)
    else if pc > end then Stuck
    else
      match MoveFrom(vm, k, tape, pend, pc, regs)
      case Out(x) => x
      case Goto(to, r) => Exec(vm, k, tape, pend, to, end, r)
  }

  /** A run depends only on the code it passes through. */
  lemma {:induction false} ExecLocal(vm: Vm, k: seq<Value>, k': seq<Value>, tape: seq<Instr>, tape': seq<Instr>,
    pend: set<nat>, pend': set<nat>, pc: nat, end: nat, regs: Regs)
    requires end <= |tape| && end <= |tape'| && forall i :: pc <= i < end ==> tape'[i] == tape[i]
    requires forall i :: pc <= i <= end ==> (i in pend <==> i in pend')
    requires k <= k'
    requires !Exec(vm, k, tape, pend, pc, end, regs).Stuck?
    ensures Exec(vm, k', tape', pend', pc, end, regs) == Exec(vm, k, tape, pend, pc, end, regs)
    decreases if pc < end then end - pc else 0
  {
    if pc < end {
      var m := MoveFrom(vm, k, tape, pend, pc, regs);
      assert MoveFrom(vm, k', tape', pend', pc, regs) == m;
      if m.Goto? {
        ExecLocal(vm, k, k', tape, tape', pend, pend', m.to, end, m.regs);
      }
    }
  }

  /** Running to `end` is running to `mid` and, if that falls out, from there. */
  lemma {:induction false} ExecSplit(vm: Vm, k: seq<Value>, tape: seq<Instr>, pend: set<nat>, pc: nat, mid: nat,
    end: nat, regs: Regs)
    requires pc <= mid <= end
    requires !Exec(vm, k, tape, pend, pc, mid, regs).Stuck?
    ensures Exec(vm, k, tape, pend, pc, end, regs) ==
            match Exec(vm, k, tape, pend, pc, mid, regs) {
              case Fall(r) => Exec(vm, k, tape, pend, mid, end, r)
              case x => x
            }
    decreases mid - pc
  {
    if pc < mid {
      var m := MoveFrom(vm, k, tape, pend, pc, regs);
      if m.Goto? {
        ExecSplit(vm, k, tape, pend, m.to, mid, end, m.regs);
      }
    }
  }

  // ----- patching -----

  /** How the control of a pending jump may be rewritten: its decision must stay the same. */
  predicate Eased(i: Instr, i': Instr, resolved: bool) {
    if Placeholder(i) then
      i' == TEST(i.src, !i.inverted)
      || (resolved && i'.TESTSET? && i'.dst != NO_REG && i'.src == i.src && i'.inverted == i.inverted)
      || (!resolved && i' == i)
    else i' == i
  }

  /** Instruction `i` after jumps have been aimed: those in `aim` are resolved, the rest stay pending. */
  ghost predicate Rewired(tape: seq<Instr>, tape': seq<Instr>, pend: set<nat>, pend': set<nat>, aim: map<nat, nat>,
    end: nat, i: nat)
  {
    i < |tape| && i < |tape'| &&
    if i in pend then
      (if i in aim then i !in pend' && aim[i] >= end && tape'[i] == JMP(aim[i] - (i + 1)) else i in pend')
    else
      i !in pend'
      && (if IsControl(tape[i]) && i + 1 in pend then Eased(tape[i], tape'[i], i + 1 in aim) else tape'[i] == tape[i])
  }

  /** Where a run of the original code continues in the patched code. */
  function Resumed(vm: Vm, k: seq<Value>, tape': seq<Instr>, pend': set<nat>, aim: map<nat, nat>, end: nat, end': nat,
    x: Exit): Exit
  {
    match x
    case Fall(r) => Exec(vm, k, tape', pend', end, end', r)
    case AtJump(j, r) =>
      if j in aim && 0 < j <= |tape'| then Exec(vm, k, tape', pend', aim[j], end', Assigned(tape'[j - 1], r)) else x
    case _ => x
  }

  /** One move of the patched code mirrors the move of the original. */
  lemma PatchedMove(vm: Vm, k: seq<Value>, tape: seq<Instr>, tape': seq<Instr>, pend: set<nat>, pend': set<nat>,
    aim: map<nat, nat>, pc: nat, end: nat, regs: Regs)
    requires pc < end <= |tape| && end !in pend && end !in pend'
    requires Rewired(tape, tape', pend, pend', aim, end, pc)
    requires pc + 1 < end ==> Rewired(tape, tape', pend, pend', aim, end, pc + 1)
    ensures var m, m' := MoveFrom(vm, k, tape, pend, pc, regs), MoveFrom(vm, k, tape', pend', pc, regs);
      match m
      case Goto(_, _) => m' == m
      case Out(AtJump(j, r)) =>
        if j in aim then j < end && m' == Goto(j, Assigned(tape'[pc], r)) && j == pc + 1
          && MoveFrom(vm, k, tape', pend', j, m'.regs) == Goto(aim[j], m'.regs)
        else m' == m
      case Out(Stuck) => true
      case _ => m' == m
  {
  }

  lemma {:induction false} ExecPatched(vm: Vm, k: seq<Value>, tape: seq<Instr>, tape': seq<Instr>, pend: set<nat>,
    pend': set<nat>, aim: map<nat, nat>, pc: nat, end: nat, end': nat, regs: Regs)
    requires forall i :: pc <= i < end ==> Rewired(tape, tape', pend, pend', aim, end, i)
    requires end <= |tape| && pc <= end <= end' && end !in pend && end !in pend'
    requires !Exec(vm, k, tape, pend, pc, end, regs).Stuck?
    ensures Exec(vm, k, tape', pend', pc, end', regs) ==
            Resumed(vm, k, tape', pend', aim, end, end', Exec(vm, k, tape, pend, pc, end, regs))
    decreases end - pc
  {
    if pc < end {
      PatchedMove(vm, k, tape, tape', pend, pend', aim, pc, end, regs);
      var m := MoveFrom(vm, k, tape, pend, pc, regs);
      if m.Goto? {
        ExecPatched(vm, k, tape, tape', pend, pend', aim, m.to, end, end', m.regs);
      } else if m.exit.AtJump? && m.exit.j in aim {
        var j, r := m.exit.j, MoveFrom(vm, k, tape', pend', pc, regs).regs;
        assert Exec(vm, k, tape', pend', j, end', r) == Exec(vm, k, tape', pend', aim[j], end', r);
      }
    }
  }

  // ----- elision -----

  /** No jump of the stretch goes past `cut`. */
  predicate StaysWithin(tape: seq<Instr>, pc: nat, cut: nat) {
    forall i :: pc <= i < cut && i < |tape| && tape[i].JMP? ==> i + 1 + tape[i].offset <= cut
  }

  /** Without its last test and jump the code falls out where it fell out or reached that jump. */
  lemma {:induction false} ExecElided(vm: Vm, k: seq<Value>, tape: seq<Instr>, pend: set<nat>, pc: nat, cut: nat,
    regs: Regs)
    requires |tape| == cut + 2 && pc <= cut && cut + 1 in pend && Elidable(tape[cut])
    requires StaysWithin(tape, pc, cut)
    requires !Exec(vm, k, tape, pend, pc, cut + 2, regs).Stuck?
    ensures Exec(vm, k, tape[..cut], pend - {cut + 1}, pc, cut, regs) ==
            match Exec(vm, k, tape, pend, pc, cut + 2, regs) {
              case AtJump(j, r) => if j == cut + 1 then Fall(r) else AtJump(j, r)
              case x => x
            }
    decreases cut - pc
  {
    var m := MoveFrom(vm, k, tape, pend, pc, regs);
    if pc < cut {
      assert tape[..cut][pc] == tape[pc];
      assert MoveFrom(vm, k, tape[..cut], pend - {cut + 1}, pc, regs) == m;
      if m.Goto? {
        if m.to <= cut {
          ExecElided(vm, k, tape, pend, m.to, cut, m.regs);
        }
      }
    }
  }

  // ----- the machine -----

  /** The machine after `n` steps. */
  function Run(vm: Vm, k: seq<Value>, tape: seq<Instr>, n: nat, pc: int, regs: Regs): StepResult {
    if n == 0 then Next(pc, regs)
    else if !(0 <= pc < |tape|) then Bad
    else
      match Step(vm, k, tape[pc], pc, regs)
      case Next(to, r) => Run(vm, k, tape, n - 1, to, r)
      case x => x
  }

  /** A run with no pending jumps is a run of the machine. */
  lemma {:induction false} ExecRuns(vm: Vm, k: seq<Value>, tape: seq<Instr>, pc: nat, end: nat, regs: Regs)
    returns (n: nat)
    requires !Exec(vm, k, tape, {}, pc, end, regs).Stuck?
    ensures pc < end ==> n > 0
    ensures match Exec(vm, k, tape, {}, pc, end, regs)
            case Fall(r) => Run(vm, k, tape, n, pc, regs) == Next(end, r)
            case Raise => Run(vm, k, tape, n, pc, regs) == Raised
            case _ => false
    decreases if pc < end then end - pc else 0
  {
    if pc == end {
      n := 0;
    } else {
      var m := MoveFrom(vm, k, tape, {}, pc, regs);
      var s := Step(vm, k, tape[pc], pc, regs);
      if m.Goto? {
        assert s == Next(m.to, m.regs);
        var q := ExecRuns(vm, k, tape, m.to, end, m.regs);
        n := q + 1;
      } else {
        assert s == Raised;
        n := 1;
      }
    }
  }
}
