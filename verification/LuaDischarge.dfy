/** Discharging an expression to a register: its jumps are resolved and nothing stays pending. */
module LuaDischarge {
  import opened Prelude
  import opened LuaVm
  import opened LuaCompile
  import opened LuaExec
  import opened LuaDesc

  /** The code before `start` and the scopes are as they were; constants are only added. */
  ghost predicate Follows(a: Chunk, b: Chunk, start: nat) {
    && start <= |a.tape| && start <= |b.tape| && b.tape[..start] == a.tape[..start]
    && a.consts <= b.consts && b.nactvar == a.nactvar && b.labels == a.labels && b.patches == a.patches
    && (a.orphans ==> b.orphans)
  }

  // ----- patch_list_aux -----

  /** A list `patch_list_aux` may be given: distinct jumps, each after its own control. */
  ghost predicate Patchable(tape: seq<Instr>, list: seq<nat>) {
    NoDup(list) && forall j :: j in list ==> 0 < j < |tape| && tape[j].JMP? && IsControl(tape[j - 1])
  }

  function PatchedInstr(tape: seq<Instr>, list: seq<nat>, vtarget: int, reg: nat, dtarget: int, i: nat): Instr
    requires i < |tape|
  {
    if i in list && i > 0 then JMP((if Placeholder(tape[i - 1]) then vtarget else dtarget) - (i + 1))
    else if i + 1 in list then Settled(tape[i], reg)
    else tape[i]
  }

  lemma PatchOneAt(tape: seq<Instr>, j: nat, vtarget: int, reg: nat, dtarget: int, i: nat)
    requires 0 < j < |tape| && tape[j].JMP? && IsControl(tape[j - 1]) && i < |tape|
    ensures PatchOne(tape, j, vtarget, reg, dtarget)[i] == PatchedInstr(tape, [j], vtarget, reg, dtarget, i)
  {
  }

  lemma PatchOnePatchable(tape: seq<Instr>, list: seq<nat>, j: nat, vtarget: int, reg: nat, dtarget: int)
    requires Patchable(tape, list) && 0 < j < |tape| && tape[j].JMP? && IsControl(tape[j - 1])
    ensures Patchable(PatchOne(tape, j, vtarget, reg, dtarget), list)
  {
  }

  lemma {:induction false} PatchListAt(tape: seq<Instr>, list: seq<nat>, vtarget: int, reg: nat, dtarget: int, i: nat)
    requires Patchable(tape, list) && i < |tape|
    ensures PatchListAux(tape, list, vtarget, reg, dtarget)[i] == PatchedInstr(tape, list, vtarget, reg, dtarget, i)
    decreases |list|
  {
    if list != [] {
      var j, rest := list[0], list[1..];
      assert j in list;
      var t := PatchOne(tape, j, vtarget, reg, dtarget);
      assert forall x :: x in list <==> x == j || x in rest;
      PatchOnePatchable(tape, rest, j, vtarget, reg, dtarget);
      PatchListAt(t, rest, vtarget, reg, dtarget, i);
      PatchOneAt(tape, j, vtarget, reg, dtarget, i);
      if i > 0 { PatchOneAt(tape, j, vtarget, reg, dtarget, i - 1); }
    }
  }

  lemma PatchedBothAt(tape: seq<Instr>, d: Desc, final: int, dst: nat, ft: int, tt: int, i: nat)
    requires Patchable(tape, d.fl) && Patchable(tape, d.tl) && NoDup(d.tl + d.fl) && i < |tape|
    ensures PatchedBoth(tape, d, final, dst, ft, tt)[i] ==
            if i in d.fl && i > 0 then JMP((if Placeholder(tape[i - 1]) then final else ft) - (i + 1))
            else if i in d.tl && i > 0 then JMP((if Placeholder(tape[i - 1]) then final else tt) - (i + 1))
            else if i + 1 in d.fl || i + 1 in d.tl then Settled(tape[i], dst)
            else tape[i]
  {
    var (tl, fl) := (d.tl, d.fl);
    NoDupSplit(tl, fl);
    var t := PatchListAux(tape, fl, final, dst, ft);
    forall j | j in tl ensures 0 < j < |t| && t[j].JMP? && IsControl(t[j - 1]) && t[j - 1] == tape[j - 1] {
      PatchListAt(tape, fl, final, dst, ft, j);
      PatchListAt(tape, fl, final, dst, ft, j - 1);
    }
    PatchListAt(t, tl, final, dst, tt, i);
    PatchListAt(tape, fl, final, dst, ft, i);
    if i > 0 { PatchListAt(tape, fl, final, dst, ft, i - 1); }
  }

  lemma ListsPatchable(tape: seq<Instr>, start: nat, tl: seq<nat>, fl: seq<nat>)
    requires ListsOk(tape, start, |tape|, tl, fl)
    ensures Patchable(tape, fl) && Patchable(tape, tl) && Controlled(tape, fl) && Controlled(tape, tl)
  {
    NoDupSplit(tl, fl);
    forall j | j in tl || j in fl ensures PendingAt(tape, start, |tape|, j) {}
  }

  // ----- resolving the lists -----

  /** Before the lists are resolved: falling out means `dst` holds the value, or the value is false. */
  ghost predicate ReadyExit(tape: seq<Instr>, base: nat, d: Desc, dst: nat, isJump: bool, v: Option<Value>, regs: Regs,
    x: Exit)
  {
    match x
    case Raise => v == None
    case Stuck => false
    case Fall(r) => Kept(regs, r, base) && v == Some(if isJump then Bool(false) else Get(r, dst))
    case AtJump(j, r) => Kept(regs, r, base) && JumpTells(tape, d, j, r, v)
  }

  ghost predicate Ready(vm: Vm, ch: Chunk, start: nat, base: nat, d: Desc, dst: nat, isJump: bool, v: Option<Value>,
    regs: Regs)
  {
    ReadyExit(ch.tape, base, d, dst, isJump, v, regs, Exec(vm, ch.consts, ch.tape, Pend(d), start, |ch.tape|, regs))
  }

  /** Instruction `i` of a resolved expression. */
  predicate ResolvedAt(tape: seq<Instr>, i': Instr, d: Desc, final: nat, dst: nat, ft: nat, tt: nat, i: nat)
    requires i < |tape|
  {
    i' == if i in d.fl && i > 0 then JMP((if Placeholder(tape[i - 1]) then final else ft) - (i + 1))
          else if i in d.tl && i > 0 then JMP((if Placeholder(tape[i - 1]) then final else tt) - (i + 1))
          else if i + 1 in d.fl || i + 1 in d.tl then Settled(tape[i], dst)
          else tape[i]
  }

  /** Code of a resolved expression: patched pairs, then some tail. */
  ghost predicate Resolved(tape: seq<Instr>, tape': seq<Instr>, d: Desc, final: nat, dst: nat, ft: nat, tt: nat) {
    && |tape| <= |tape'|
    && forall i :: 0 <= i < |tape| ==> ResolvedAt(tape, tape'[i], d, final, dst, ft, tt, i)
  }

  function AimOf(tape: seq<Instr>, d: Desc, final: nat, ft: nat, tt: nat): map<nat, nat>
  {
    map j | j in Pend(d) :: if 0 < j <= |tape| && Placeholder(tape[j - 1]) then final else if j in d.fl then ft else tt
  }

  lemma ResolvedRewires(tape: seq<Instr>, tape': seq<Instr>, start: nat, d: Desc, final: nat, dst: nat, ft: nat,
    tt: nat, i: nat)
    requires ListsOk(tape, start, |tape|, d.tl, d.fl) && Resolved(tape, tape', d, final, dst, ft, tt) && dst != NO_REG
    requires |tape| <= final && |tape| <= ft && |tape| <= tt && start <= i < |tape|
    ensures Rewired(tape, tape', Pend(d), {}, AimOf(tape, d, final, ft, tt), |tape|, i)
  {
    NoDupSplit(d.tl, d.fl);
    assert ResolvedAt(tape, tape'[i], d, final, dst, ft, tt, i);
    assert i in d.tl || i in d.fl ==> PendingAt(tape, start, |tape|, i);
    assert i + 1 in d.tl || i + 1 in d.fl ==> PendingAt(tape, start, |tape|, i + 1);
  }

  /** A resolved run: falls as before, or goes where its jump was aimed with the value in place. */
  lemma ResolvedRuns(vm: Vm, k: seq<Value>, tape: seq<Instr>, tape': seq<Instr>, start: nat, d: Desc, final: nat,
    dst: nat, ft: nat, tt: nat, regs: Regs)
    requires ListsOk(tape, start, |tape|, d.tl, d.fl) && Resolved(tape, tape', d, final, dst, ft, tt) && dst != NO_REG
    requires |tape| <= final && |tape| <= ft && |tape| <= tt
    requires !Exec(vm, k, tape, Pend(d), start, |tape|, regs).Stuck?
    ensures Exec(vm, k, tape', {}, start, final, regs) ==
            Resumed(vm, k, tape', {}, AimOf(tape, d, final, ft, tt), |tape|, final,
              Exec(vm, k, tape, Pend(d), start, |tape|, regs))
  {
    forall i | start <= i < |tape| ensures Rewired(tape, tape', Pend(d), {}, AimOf(tape, d, final, ft, tt), |tape|, i) {
      ResolvedRewires(tape, tape', start, d, final, dst, ft, tt, i);
    }
    assert |tape| !in Pend(d);
    ExecPatched(vm, k, tape, tape', Pend(d), {}, AimOf(tape, d, final, ft, tt), start, |tape|, final, regs);
  }

  /** Where the control of a resolved jump leaves the value. */
  lemma ResolvedCarries(tape: seq<Instr>, tape': seq<Instr>, start: nat, d: Desc, final: nat, dst: nat, ft: nat,
    tt: nat, base: nat, regs: Regs, j: nat, r: Regs, v: Value)
    requires ListsOk(tape, start, |tape|, d.tl, d.fl) && Resolved(tape, tape', d, final, dst, ft, tt)
    requires j in Pend(d) && Carries(tape, j, r, v) && Kept(regs, r, base) && base <= dst != NO_REG
    ensures 0 < j <= |tape| <= |tape'|
    ensures var r' := Assigned(tape'[j - 1], r);
      Kept(regs, r', base) && if Placeholder(tape[j - 1]) then Get(r', dst) == v else r' == r && v.Bool?
  {
    assert PendingAt(tape, start, |tape|, j);
    assert ResolvedAt(tape, tape'[j - 1], d, final, dst, ft, tt, j - 1);
    assert j - 1 !in d.fl && j - 1 !in d.tl;
  }

  // the two shapes of the tail

  lemma NoTailTargets(ch: Chunk, c: Chunk, start: nat, d: Desc, dst: nat)
    requires ListsOk(ch.tape, start, |ch.tape|, d.tl, d.fl)
    requires !NeedValue(ch.tape, d.fl) && !NeedValue(ch.tape, d.tl)
    requires |c.tape| == |ch.tape| && Resolved(ch.tape, c.tape, d, |ch.tape|, dst, 0, 0)
    ensures Resolved(ch.tape, c.tape, d, |ch.tape|, dst, |ch.tape|, |ch.tape|)
    ensures forall j :: j in Pend(d) ==> 0 < j <= |ch.tape| && Placeholder(ch.tape[j - 1])
  {
    var n := |ch.tape|;
    ListsPatchable(ch.tape, start, d.tl, d.fl);
    forall j | j in Pend(d) ensures 0 < j <= |ch.tape| && Placeholder(ch.tape[j - 1]) {
      assert PendingAt(ch.tape, start, n, j);
    }
    forall i | 0 <= i < n ensures ResolvedAt(ch.tape, c.tape[i], d, n, dst, n, n, i) {
      assert ResolvedAt(ch.tape, c.tape[i], d, n, dst, 0, 0, i);
      assert i in d.tl || i in d.fl ==> PendingAt(ch.tape, start, n, i);
    }
  }

  lemma NoTailYields(vm: Vm, ch: Chunk, c: Chunk, start: nat, base: nat, d: Desc, dst: nat, v: Option<Value>,
    regs: Regs)
    requires ListsOk(ch.tape, start, |ch.tape|, d.tl, d.fl) && base <= dst != NO_REG
    requires Resolved(ch.tape, c.tape, d, |ch.tape|, dst, |ch.tape|, |ch.tape|)
    requires forall j :: j in Pend(d) ==> 0 < j <= |ch.tape| && Placeholder(ch.tape[j - 1])
    requires |c.tape| == |ch.tape| && c.consts == ch.consts
    requires Ready(vm, ch, start, base, d, dst, false, v, regs)
    ensures Yields(vm, c, start, base, dst, v, regs)
  {
    var n := |ch.tape|;
    ResolvedRuns(vm, ch.consts, ch.tape, c.tape, start, d, n, dst, n, n, regs);
    var x := Exec(vm, ch.consts, ch.tape, Pend(d), start, n, regs);
    if x.AtJump? {
      ResolvedCarries(ch.tape, c.tape, start, d, n, dst, n, n, base, regs, x.j, x.regs, v.value);
    }
  }

  /** The tail at `ft`: false is loaded and the next instruction skipped; at `ft + 1`, true is loaded. */
  lemma TailRuns(vm: Vm, k: seq<Value>, tape: seq<Instr>, ft: nat, dst: nat, idx: nat, r: Regs)
    requires |tape| == ft + 2 && tape[ft] == LFALSESKIP(dst) && tape[ft + 1] == LOAD(dst, idx)
    requires idx < |k| && k[idx] == Bool(true)
    ensures Exec(vm, k, tape, {}, ft, ft + 2, r) == Fall(r[dst := Bool(false)])
    ensures Exec(vm, k, tape, {}, ft + 1, ft + 2, r) == Fall(r[dst := Bool(true)])
  {
  }

  /** The code after a resolved expression that needs the boolean tail. */
  predicate HasTail(ch: Chunk, c: Chunk, dst: nat, isJump: bool, idx: nat) {
    var n, ft := |ch.tape|, |c.tape| - 2;
    && n <= ft == (if isJump then n else n + 1)
    && (!isJump ==> c.tape[n] == JMP(2))
    && c.tape[ft] == LFALSESKIP(dst) && c.tape[ft + 1] == LOAD(dst, idx)
    && ch.consts <= c.consts && idx < |c.consts| && c.consts[idx] == Bool(true)
  }

  lemma TailAfterFall(vm: Vm, ch: Chunk, c: Chunk, base: nat, dst: nat, isJump: bool, idx: nat, r: Regs,
    v: Option<Value>, regs: Regs)
    requires HasTail(ch, c, dst, isJump, idx) && base <= dst
    requires Kept(regs, r, base) && v == Some(if isJump then Bool(false) else Get(r, dst))
    ensures Delivers(Exec(vm, c.consts, c.tape, {}, |ch.tape|, |c.tape|, r), base, dst, v, regs)
  {
    if isJump {
      TailRuns(vm, c.consts, c.tape, |c.tape| - 2, dst, idx, r);
    } else {
      assert Exec(vm, c.consts, c.tape, {}, |c.tape|, |c.tape|, r) == Fall(r);
    }
  }

  lemma TailAfterJump(vm: Vm, ch: Chunk, c: Chunk, base: nat, dst: nat, isJump: bool, idx: nat, to: nat, r: Regs,
    v: Value, regs: Regs)
    requires HasTail(ch, c, dst, isJump, idx) && base <= dst && Kept(regs, r, base)
    requires (to == |c.tape| && Get(r, dst) == v)
          || (v.Bool? && to == if v.b then |c.tape| - 1 else |c.tape| - 2)
    ensures Delivers(Exec(vm, c.consts, c.tape, {}, to, |c.tape|, r), base, dst, Some(v), regs)
  {
    TailRuns(vm, c.consts, c.tape, |c.tape| - 2, dst, idx, r);
  }

  lemma TailDelivers(vm: Vm, ch: Chunk, c: Chunk, start: nat, base: nat, d: Desc, dst: nat, isJump: bool, idx: nat,
    v: Option<Value>, regs: Regs, x: Exit)
    requires ListsOk(ch.tape, start, |ch.tape|, d.tl, d.fl) && base <= dst != NO_REG
    requires |c.tape| >= |ch.tape| + 2 && HasTail(ch, c, dst, isJump, idx)
    requires Resolved(ch.tape, c.tape, d, |c.tape|, dst, |c.tape| - 2, |c.tape| - 1)
    requires ReadyExit(ch.tape, base, d, dst, isJump, v, regs, x)
    ensures Delivers(Resumed(vm, c.consts, c.tape, {}, AimOf(ch.tape, d, |c.tape|, |c.tape| - 2, |c.tape| - 1),
      |ch.tape|, |c.tape|, x), base, dst, v, regs)
  {
    match x {
      case Fall(r) => TailAfterFall(vm, ch, c, base, dst, isJump, idx, r, v, regs);
      case AtJump(j, r) => TailJumpYields(vm, ch, c, start, base, d, dst, isJump, idx, j, r, v, regs);
      case Raise =>
    }
  }

  /** A run to the end of the unresolved code, replayed in the resolved code with its constants. */
  lemma ResolvedReplays(vm: Vm, ch: Chunk, c: Chunk, start: nat, d: Desc, dst: nat, final: nat, ft: nat, tt: nat,
    regs: Regs)
    requires ListsOk(ch.tape, start, |ch.tape|, d.tl, d.fl) && dst != NO_REG && ch.consts <= c.consts
    requires Resolved(ch.tape, c.tape, d, final, dst, ft, tt) && |ch.tape| <= final && |ch.tape| <= ft
    requires |ch.tape| <= tt
    requires !Exec(vm, ch.consts, ch.tape, Pend(d), start, |ch.tape|, regs).Stuck?
    ensures Exec(vm, c.consts, c.tape, {}, start, final, regs) ==
      Resumed(vm, c.consts, c.tape, {}, AimOf(ch.tape, d, final, ft, tt), |ch.tape|, final,
        Exec(vm, ch.consts, ch.tape, Pend(d), start, |ch.tape|, regs))
  {
    ExecLocal(vm, ch.consts, c.consts, ch.tape, ch.tape, Pend(d), Pend(d), start, |ch.tape|, regs);
    ResolvedRuns(vm, c.consts, ch.tape, c.tape, start, d, final, dst, ft, tt, regs);
  }

  lemma TailYields(vm: Vm, ch: Chunk, c: Chunk, start: nat, base: nat, d: Desc, dst: nat, isJump: bool, idx: nat,
    v: Option<Value>, regs: Regs)
    requires ListsOk(ch.tape, start, |ch.tape|, d.tl, d.fl) && base <= dst != NO_REG
    requires |c.tape| >= |ch.tape| + 2 && HasTail(ch, c, dst, isJump, idx)
    requires Resolved(ch.tape, c.tape, d, |c.tape|, dst, |c.tape| - 2, |c.tape| - 1)
    requires Ready(vm, ch, start, base, d, dst, isJump, v, regs)
    ensures Yields(vm, c, start, base, dst, v, regs)
  {
    var m := |c.tape|;
    var x := Exec(vm, ch.consts, ch.tape, Pend(d), start, |ch.tape|, regs);
    var z := Resumed(vm, c.consts, c.tape, {}, AimOf(ch.tape, d, m, m - 2, m - 1), |ch.tape|, m, x);
    assert Delivers(z, base, dst, v, regs) by {
      TailDelivers(vm, ch, c, start, base, d, dst, isJump, idx, v, regs, x);
    }
    assert Exec(vm, c.consts, c.tape, {}, start, m, regs) == z by {
      ResolvedReplays(vm, ch, c, start, d, dst, m, m - 2, m - 1, regs);
    }
  }

  lemma TailJumpYields(vm: Vm, ch: Chunk, c: Chunk, start: nat, base: nat, d: Desc, dst: nat, isJump: bool, idx: nat,
    j: nat, r: Regs, v: Option<Value>, regs: Regs)
    requires ListsOk(ch.tape, start, |ch.tape|, d.tl, d.fl) && base <= dst != NO_REG
    requires |c.tape| >= |ch.tape| + 2 && HasTail(ch, c, dst, isJump, idx)
    requires Resolved(ch.tape, c.tape, d, |c.tape|, dst, |c.tape| - 2, |c.tape| - 1)
    requires Kept(regs, r, base) && JumpTells(ch.tape, d, j, r, v)
    ensures Delivers(Resumed(vm, c.consts, c.tape, {}, AimOf(ch.tape, d, |c.tape|, |c.tape| - 2, |c.tape| - 1),
      |ch.tape|, |c.tape|, AtJump(j, r)), base, dst, v, regs)
  {
    var m := |c.tape|;
    ResolvedCarries(ch.tape, c.tape, start, d, m, dst, m - 2, m - 1, base, regs, j, r, v.value);
    var to := if Placeholder(ch.tape[j - 1]) then m else if j in d.fl then m - 2 else m - 1;
    var r' := Assigned(c.tape[j - 1], r);
    TailAfterJump(vm, ch, c, base, dst, isJump, idx, to, r', v.value, regs);
    ResumedAt(vm, ch, c, d, j, r, to);
  }

  lemma ResumedAt(vm: Vm, ch: Chunk, c: Chunk, d: Desc, j: nat, r: Regs, to: nat)
    requires 0 < j <= |ch.tape| && |ch.tape| + 2 <= |c.tape| && j in Pend(d)
    requires to == if Placeholder(ch.tape[j - 1]) then |c.tape| else if j in d.fl then |c.tape| - 2 else |c.tape| - 1
    ensures Resumed(vm, c.consts, c.tape, {}, AimOf(ch.tape, d, |c.tape|, |c.tape| - 2, |c.tape| - 1),
      |ch.tape|, |c.tape|, AtJump(j, r)) ==
            Exec(vm, c.consts, c.tape, {}, to, |c.tape|, Assigned(c.tape[j - 1], r))
  {
    var aim := AimOf(ch.tape, d, |c.tape|, |c.tape| - 2, |c.tape| - 1);
    assert j in aim && aim[j] == to;
  }

  // ----- resolve -----

  lemma {:induction false} IndexOfFinds(consts: seq<Value>, v: Value)
    ensures IndexOf(consts, v) <= |consts|
    ensures IndexOf(consts, v) < |consts| ==> consts[IndexOf(consts, v)] == v
    decreases |consts|
  {
    if consts != [] && consts[0] != v { IndexOfFinds(consts[1..], v); }
  }

  lemma AllocConstantOk(ch: Chunk, v: Value)
    ensures AllocConstant(ch, v).Err? ==> AllocConstant(ch, v).fail == Constants
    ensures AllocConstant(ch, v).Ok? ==>
      var (idx, c) := AllocConstant(ch, v).value;
      c == ch.(consts := c.consts) && ch.consts <= c.consts && idx < |c.consts| && c.consts[idx] == v
  {
    IndexOfFinds(ch.consts, v);
  }

  /** Structure of the chunk after the lists have been resolved. */
  ghost predicate ResolvedShape(ch: Chunk, c: Chunk, start: nat) {
    Follows(ch, c, start) && c.freereg == ch.freereg && NoStray(c.tape, start, {})
  }

  /** The patched part of the code: prefix untouched, no placeholder left. */
  lemma PatchedShape(tape: seq<Instr>, tape': seq<Instr>, start: nat, d: Desc, final: nat, dst: nat, ft: nat, tt: nat,
    i: nat)
    requires ListsOk(tape, start, |tape|, d.tl, d.fl) && dst != NO_REG && Resolved(tape, tape', d, final, dst, ft, tt)
    requires i < |tape|
    ensures i < start ==> tape'[i] == tape[i]
    ensures i >= start ==> !Placeholder(tape'[i])
  {
    assert ResolvedAt(tape, tape'[i], d, final, dst, ft, tt, i);
    assert forall j :: j in d.tl || j in d.fl ==> PendingAt(tape, start, |tape|, j);
    if i < start {
      assert i !in d.tl && i !in d.fl && i + 1 !in d.tl && i + 1 !in d.fl;
    }
  }

  lemma PatchedIsResolved(tape: seq<Instr>, more: seq<Instr>, start: nat, d: Desc, final: nat, dst: nat, ft: nat,
    tt: nat, i: nat)
    requires ListsOk(tape, start, |tape|, d.tl, d.fl) && i < |tape + more|
    ensures var t := PatchedBoth(tape + more, d, final, dst, ft, tt);
      if i < |tape| then ResolvedAt(tape, t[i], d, final, dst, ft, tt, i) else t[i] == more[i - |tape|]
  {
    var t := tape + more;
    forall j | j in d.tl || j in d.fl
      ensures j < |tape| && 0 < j < |t| && t[j].JMP? && IsControl(t[j - 1]) && t[j - 1] == tape[j - 1]
    {
      assert PendingAt(tape, start, |tape|, j);
    }
    NoDupSplit(d.tl, d.fl);
    PatchedBothAt(t, d, final, dst, ft, tt, i);
    if i >= |tape| {
      assert i !in d.tl && i !in d.fl && i + 1 !in d.tl && i + 1 !in d.fl;
    }
  }

  lemma TailPatched(tape: seq<Instr>, d: Desc, dst: nat, isJump: bool, start: nat, idx: nat)
    requires ListsOk(tape, start, |tape|, d.tl, d.fl)
    ensures var ft := if isJump then |tape| else |tape| + 1;
      var t := PatchedBoth(tape + TailCode(dst, isJump, idx), d, ft + 2, dst, ft, ft + 1);
      Resolved(tape, t, d, ft + 2, dst, ft, ft + 1) && t[ft] == LFALSESKIP(dst) && t[ft + 1] == LOAD(dst, idx)
  {
    var more := TailCode(dst, isJump, idx);
    var ft := if isJump then |tape| else |tape| + 1;
    var t := PatchedBoth(tape + more, d, ft + 2, dst, ft, ft + 1);
    forall i | 0 <= i < |tape| ensures ResolvedAt(tape, t[i], d, ft + 2, dst, ft, ft + 1, i) {
      PatchedIsResolved(tape, more, start, d, ft + 2, dst, ft, ft + 1, i);
    }
    PatchedIsResolved(tape, more, start, d, ft + 2, dst, ft, ft + 1, ft);
    PatchedIsResolved(tape, more, start, d, ft + 2, dst, ft, ft + 1, ft + 1);
  }

  /** `ResolveTail` builds exactly the code the tail lemmas speak of. */
  lemma TailBuilt(ch: Chunk, d: Desc, dst: nat, isJump: bool, start: nat) returns (idx: nat)
    requires ListsOk(ch.tape, start, |ch.tape|, d.tl, d.fl)
    requires ResolveTail(ch, d, dst, isJump).Ok?
    ensures var c := ResolveTail(ch, d, dst, isJump).value;
      && c == ch.(tape := c.tape, consts := c.consts) && ch.consts <= c.consts
      && |c.tape| == |ch.tape| + (if isJump then 2 else 3)
      && HasTail(ch, c, dst, isJump, idx)
      && Resolved(ch.tape, c.tape, d, |c.tape|, dst, |c.tape| - 2, |c.tape| - 1)
  {
    AllocConstantOk(ch, Bool(true));
    idx := AllocConstant(ch, Bool(true)).value.0;
    var ft := if isJump then |ch.tape| else |ch.tape| + 1;
    var tape := PatchedBoth(ch.tape + TailCode(dst, isJump, idx), d, ft + 2, dst, ft, ft + 1);
    TailPatched(ch.tape, d, dst, isJump, start, idx);
    assert Resolved(ch.tape, if isJump then tape else tape[|ch.tape| := JMP(2)], d, ft + 2, dst, ft, ft + 1);
  }

  lemma PlainBuilt(ch: Chunk, d: Desc, dst: nat, start: nat)
    requires ListsOk(ch.tape, start, |ch.tape|, d.tl, d.fl)
    ensures Resolved(ch.tape, ResolvePlain(ch, d, dst).tape, d, |ch.tape|, dst, 0, 0)
  {
    assert ch.tape + [] == ch.tape;
    forall i | 0 <= i < |ch.tape|
      ensures ResolvedAt(ch.tape, ResolvePlain(ch, d, dst).tape[i], d, |ch.tape|, dst, 0, 0, i)
    {
      PatchedIsResolved(ch.tape, [], start, d, |ch.tape|, dst, 0, 0, i);
    }
  }

  lemma PlainShape(ch: Chunk, d: Desc, dst: nat, start: nat)
    requires ListsOk(ch.tape, start, |ch.tape|, d.tl, d.fl) && dst != NO_REG
    ensures ResolvedShape(ch, ResolvePlain(ch, d, dst), start)
  {
    PlainBuilt(ch, d, dst, start);
    ShapeOf(ch, ResolvePlain(ch, d, dst), start, d, |ch.tape|, dst, 0, 0);
  }

  lemma TailShape(ch: Chunk, d: Desc, dst: nat, isJump: bool, start: nat)
    requires ListsOk(ch.tape, start, |ch.tape|, d.tl, d.fl) && dst != NO_REG
    ensures ResolveTail(ch, d, dst, isJump).Err? ==> ResolveTail(ch, d, dst, isJump).fail == Constants
    ensures ResolveTail(ch, d, dst, isJump).Ok? ==> ResolvedShape(ch, ResolveTail(ch, d, dst, isJump).value, start)
  {
    AllocConstantOk(ch, Bool(true));
    if ResolveTail(ch, d, dst, isJump).Ok? {
      var c := ResolveTail(ch, d, dst, isJump).value;
      var idx := TailBuilt(ch, d, dst, isJump, start);
      ShapeOf(ch, c, start, d, |c.tape|, dst, |c.tape| - 2, |c.tape| - 1);
    }
  }

  lemma ResolveShape(ch: Chunk, d: Desc, dst: nat, isJump: bool, start: nat)
    requires ListsOk(ch.tape, start, |ch.tape|, d.tl, d.fl) && dst != NO_REG
    ensures ResolveLists(ch, d, dst, isJump).Err? ==> ResolveLists(ch, d, dst, isJump).fail == Constants
    ensures ResolveLists(ch, d, dst, isJump).Ok? ==> ResolvedShape(ch, ResolveLists(ch, d, dst, isJump).value, start)
  {
    ListsPatchable(ch.tape, start, d.tl, d.fl);
    PlainShape(ch, d, dst, start);
    TailShape(ch, d, dst, isJump, start);
  }

  lemma ShapeOf(ch: Chunk, c: Chunk, start: nat, d: Desc, final: nat, dst: nat, ft: nat, tt: nat)
    requires ListsOk(ch.tape, start, |ch.tape|, d.tl, d.fl) && dst != NO_REG
    requires Resolved(ch.tape, c.tape, d, final, dst, ft, tt)
    requires forall i :: |ch.tape| <= i < |c.tape| ==> !Placeholder(c.tape[i])
    ensures c.tape[..start] == ch.tape[..start] && NoStray(c.tape, start, {})
  {
    forall i | 0 <= i < |ch.tape|
      ensures (i < start ==> c.tape[i] == ch.tape[i]) && (i >= start ==> !Placeholder(c.tape[i]))
    {
      PatchedShape(ch.tape, c.tape, start, d, final, dst, ft, tt, i);
    }
  }

  lemma ResolveYields(vm: Vm, ch: Chunk, start: nat, base: nat, d: Desc, dst: nat, isJump: bool, v: Option<Value>,
    regs: Regs)
    requires ListsOk(ch.tape, start, |ch.tape|, d.tl, d.fl) && base <= dst != NO_REG
    requires isJump ==> NeedValue(ch.tape, d.tl)
    requires ResolveLists(ch, d, dst, isJump).Ok?
    requires Ready(vm, ch, start, base, d, dst, isJump, v, regs)
    ensures Yields(vm, ResolveLists(ch, d, dst, isJump).value, start, base, dst, v, regs)
  {
    if NeedValue(ch.tape, d.fl) || NeedValue(ch.tape, d.tl) {
      var idx := TailBuilt(ch, d, dst, isJump, start);
      TailYields(vm, ch, ResolveTail(ch, d, dst, isJump).value, start, base, d, dst, isJump, idx, v, regs);
    } else {
      var c := ResolvePlain(ch, d, dst);
      PlainBuilt(ch, d, dst, start);
      NoTailTargets(ch, c, start, d, dst);
      NoTailYields(vm, ch, c, start, base, d, dst, v, regs);
    }
  }

  // ----- getting ready -----

  /** One more instruction that falls through, after the code of a description with the same lists. */
  lemma AppendedShape(ch: Chunk, c: Chunk, start: nat, d: Desc, i: Instr)
    requires ListsOk(ch.tape, start, |ch.tape|, d.tl, d.fl) && c.tape == ch.tape + [i] && !Placeholder(i)
    ensures ListsOk(c.tape, start, |c.tape|, d.tl, d.fl) && c.tape[..start] == ch.tape[..start]
    ensures forall j :: j in Pend(d) ==> 0 < j < |ch.tape| && c.tape[j - 1] == ch.tape[j - 1]
  {
    forall j | j in d.tl || j in d.fl ensures PendingAt(c.tape, start, |c.tape|, j) && c.tape[j - 1] == ch.tape[j - 1] {
      assert PendingAt(ch.tape, start, |ch.tape|, j);
    }
    forall x | start <= x < |c.tape| && Placeholder(c.tape[x]) ensures x + 1 in Pend(d) {
      assert c.tape[x] == ch.tape[x];
    }
  }

  /** Running on through the appended instruction. */
  lemma AppendedRuns(vm: Vm, ch: Chunk, c: Chunk, start: nat, d: Desc, i: Instr, regs: Regs)
    requires ListsOk(ch.tape, start, |ch.tape|, d.tl, d.fl) && c.tape == ch.tape + [i] && ch.consts <= c.consts
    requires !IsControl(i) && !i.JMP? && !i.WORK? && !i.LFALSESKIP?
    requires i.LOAD? ==> i.idx < |c.consts|
    requires !Exec(vm, ch.consts, ch.tape, Pend(d), start, |ch.tape|, regs).Stuck?
    ensures Exec(vm, c.consts, c.tape, Pend(d), start, |c.tape|, regs) ==
            match Exec(vm, ch.consts, ch.tape, Pend(d), start, |ch.tape|, regs) {
              case Fall(r) => Fall(Step(vm, c.consts, i, |ch.tape|, r).regs)
              case x => x
            }
  {
    var n := |ch.tape|;
    assert n !in Pend(d);
    ExecExtended(vm, ch.consts, c.consts, ch.tape, c.tape, Pend(d), Pend(d), start, n, n + 1, regs);
    var x := Exec(vm, ch.consts, ch.tape, Pend(d), start, n, regs);
    if x.Fall? {
      assert c.tape[n] == i;
      assert Exec(vm, c.consts, c.tape, Pend(d), n, n + 1, x.regs) == Fall(Step(vm, c.consts, i, n, x.regs).regs);
    }
  }

  lemma CarriesSame(tape: seq<Instr>, tape': seq<Instr>, d: Desc, j: nat, r: Regs, v: Option<Value>)
    requires JumpTells(tape, d, j, r, v) && 0 < j <= |tape'| && j <= |tape| && tape'[j - 1] == tape[j - 1]
    ensures JumpTells(tape', d, j, r, v)
  {
  }
}
