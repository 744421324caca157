/** Turning an expression into jumps, and resolving the jumps that come back to the next instruction. */
module LuaGo {
  import opened Prelude
  import opened LuaVm
  import opened LuaCompile
  import opened LuaExec
  import opened LuaDesc

  // ----- patch_to -----

  lemma ListsPanicFree(tape: seq<Instr>, start: nat, end: nat, a: seq<nat>, b: seq<nat>)
    requires ListsOk(tape, start, end, a, b)
    ensures Controlled(tape, a) && AreJumps(tape, a) && Controlled(tape, b) && AreJumps(tape, b)
  {
    forall j | j in a || j in b ensures PendingAt(tape, start, end, j) {}
  }

  /** The instruction at `i` after the jumps of `list` have been aimed at `target`. */
  lemma AimedAt(tape: seq<Instr>, list: seq<nat>, target: int, i: nat)
    requires i < |tape|
    ensures AimJumps(DowngradeTestsets(tape, list), list, target)[i] ==
            if i in list then JMP(target - (i + 1)) else if i + 1 in list then Lowered(tape[i]) else tape[i]
  {
  }

  lemma PatchToShape(ch: Chunk, start: nat, stay: seq<nat>, leave: seq<nat>)
    requires ListsOk(ch.tape, start, |ch.tape|, stay, leave)
    ensures PatchTo(ch, stay, |ch.tape|).Ok?
    ensures var c := PatchTo(ch, stay, |ch.tape|).value;
      && |c.tape| == |ch.tape| && c.tape[..start] == ch.tape[..start]
      && ListsOk(c.tape, start, |c.tape|, [], leave)
      && (forall j :: j in leave ==> c.tape[j - 1] == ch.tape[j - 1])
  {
    ListsPanicFree(ch.tape, start, |ch.tape|, stay, leave);
    var c := PatchTo(ch, stay, |ch.tape|).value;
    forall i | 0 <= i < |ch.tape|
      ensures c.tape[i] == if i in stay then JMP(|ch.tape| - (i + 1)) else if i + 1 in stay then Lowered(ch.tape[i])
        else ch.tape[i]
    {
      AimedAt(ch.tape, stay, |ch.tape|, i);
    }
    forall i | 0 <= i < start ensures c.tape[i] == ch.tape[i] {
      assert i !in stay && i + 1 !in stay;
    }
    NoDupSplit(stay, leave);
    assert [] + leave == leave;
    forall j | j in leave ensures PendingAt(c.tape, start, |c.tape|, j) && c.tape[j - 1] == ch.tape[j - 1] {
      assert PendingAt(ch.tape, start, |ch.tape|, j);
      assert j !in stay && j - 1 !in stay;
    }
    forall i | start <= i < |c.tape| && Placeholder(c.tape[i]) ensures i + 1 in Elems([]) + Elems(leave) {
      assert Placeholder(ch.tape[i]);
    }
  }

  lemma PatchToRewires(ch: Chunk, start: nat, stay: seq<nat>, leave: seq<nat>, aim: map<nat, nat>, i: nat)
    requires ListsOk(ch.tape, start, |ch.tape|, stay, leave) && PatchTo(ch, stay, |ch.tape|).Ok?
    requires aim == map j | j in stay :: |ch.tape|
    requires start <= i < |ch.tape|
    ensures Rewired(ch.tape, PatchTo(ch, stay, |ch.tape|).value.tape,
      Elems(stay) + Elems(leave), Elems(leave), aim, |ch.tape|, i)
  {
    AimedAt(ch.tape, stay, |ch.tape|, i);
    NoDupSplit(stay, leave);
    assert i in stay || i in leave ==> PendingAt(ch.tape, start, |ch.tape|, i);
    assert i + 1 in stay || i + 1 in leave ==> PendingAt(ch.tape, start, |ch.tape|, i + 1);
  }

  predicate AssignsNothing(i: Instr) {
    !(i.TESTSET? && i.dst != NO_REG)
  }

  /** A control instruction whose jump has been aimed at the end assigns nothing. */
  lemma PatchedAssignsNothing(ch: Chunk, start: nat, stay: seq<nat>, leave: seq<nat>, j: nat)
    requires ListsOk(ch.tape, start, |ch.tape|, stay, leave) && PatchTo(ch, stay, |ch.tape|).Ok? && j in stay
    ensures 0 < j < |ch.tape| && AssignsNothing(PatchTo(ch, stay, |ch.tape|).value.tape[j - 1])
  {
    assert PendingAt(ch.tape, start, |ch.tape|, j);
    AimedAt(ch.tape, stay, |ch.tape|, j - 1);
    assert j - 1 !in stay;
  }

  lemma PatchToRuns(vm: Vm, ch: Chunk, start: nat, stay: seq<nat>, leave: seq<nat>, aim: map<nat, nat>, regs: Regs)
    requires ListsOk(ch.tape, start, |ch.tape|, stay, leave) && PatchTo(ch, stay, |ch.tape|).Ok?
    requires aim == map j | j in stay :: |ch.tape|
    requires !Exec(vm, ch.consts, ch.tape, Elems(stay) + Elems(leave), start, |ch.tape|, regs).Stuck?
    ensures var c, n := PatchTo(ch, stay, |ch.tape|).value, |ch.tape|;
      |c.tape| == n && c.consts == ch.consts
      && Exec(vm, ch.consts, c.tape, Elems(leave), start, n, regs) ==
         Resumed(vm, ch.consts, c.tape, Elems(leave), aim, n, n,
           Exec(vm, ch.consts, ch.tape, Elems(stay) + Elems(leave), start, n, regs))
  {
    var n, pend := |ch.tape|, Elems(stay) + Elems(leave);
    var tape := PatchTo(ch, stay, n).value.tape;
    forall i | start <= i < n ensures Rewired(ch.tape, tape, pend, Elems(leave), aim, n, i) {
      PatchToRewires(ch, start, stay, leave, aim, i);
    }
    assert n !in pend;
    ExecPatched(vm, ch.consts, ch.tape, tape, pend, Elems(leave), aim, start, n, n, regs);
  }

  /** Jumps that only fall out at the end any more. */
  lemma FallsOut(vm: Vm, k: seq<Value>, tape: seq<Instr>, tape': seq<Instr>, base: nat, stay: seq<nat>, leave: seq<nat>,
    aim: map<nat, nat>, want: bool, v: Option<Value>, regs: Regs, x: Exit)
    requires |tape'| == |tape| && aim == map j | j in stay :: |tape|
    requires forall j :: j in stay ==> j !in leave && 0 < j < |tape|
    requires forall j :: j in stay ==> AssignsNothing(tape'[j - 1])
    requires forall j :: j in leave ==> 0 < j < |tape| && tape'[j - 1] == tape[j - 1]
    requires GoesExit(tape, base, stay, leave, want, v, regs, x)
    ensures GoesExit(tape', base, [], leave, want, v, regs, Resumed(vm, k, tape', Elems(leave), aim, |tape|, |tape|, x))
  {
  }

  lemma PatchToGoes(vm: Vm, ch: Chunk, start: nat, base: nat, stay: seq<nat>, leave: seq<nat>, want: bool,
    v: Option<Value>, regs: Regs)
    requires ListsOk(ch.tape, start, |ch.tape|, stay, leave) && PatchTo(ch, stay, |ch.tape|).Ok?
    requires Goes(vm, ch, start, base, stay, leave, want, v, regs)
    ensures Goes(vm, PatchTo(ch, stay, |ch.tape|).value, start, base, [], leave, want, v, regs)
  {
    var c, n := PatchTo(ch, stay, |ch.tape|).value, |ch.tape|;
    var aim := map j | j in stay :: n;
    PatchToShape(ch, start, stay, leave);
    PatchToRuns(vm, ch, start, stay, leave, aim, regs);
    NoDupSplit(stay, leave);
    forall j | j in stay ensures 0 < j < n && AssignsNothing(c.tape[j - 1]) {
      PatchedAssignsNothing(ch, start, stay, leave, j);
    }
    forall j | j in leave ensures 0 < j < n && c.tape[j - 1] == ch.tape[j - 1] {
      assert PendingAt(ch.tape, start, n, j);
    }
    var x := Exec(vm, ch.consts, ch.tape, Elems(stay) + Elems(leave), start, n, regs);
    FallsOut(vm, ch.consts, ch.tape, c.tape, base, stay, leave, aim, want, v, regs, x);
    assert Elems([]) + Elems(leave) == Elems(leave);
  }

  // ----- patch_to_here -----

  lemma {:induction false} PositionFinds(list: seq<nat>, j: nat)
    ensures Position(list, j) <= |list|
    ensures Position(list, j) < |list| ==> list[Position(list, j)] == j
    ensures Position(list, j) == |list| ==> j !in list
    decreases |list|
  {
    if list != [] && list[0] != j { PositionFinds(list[1..], j); }
  }

  /** The position of the last jump, when the list has it and the pair it ends may be elided. */
  predicate Elides(ch: Chunk, list: seq<nat>) {
    |ch.tape| >= 2 && Position(list, |ch.tape| - 1) < |list| && Elidable(ch.tape[|ch.tape| - 2])
  }

  function ElidedChunk(ch: Chunk): Chunk
    requires |ch.tape| >= 2
  {
    ch.(tape := ch.tape[..|ch.tape| - 2], orphans := ch.orphans || !NothingPast(ch, |ch.tape| - 2))
  }

  function ElidedList(ch: Chunk, list: seq<nat>): seq<nat>
    requires Elides(ch, list)
  {
    var pos := Position(list, |ch.tape| - 1);
    list[..pos] + list[pos + 1..]
  }

  lemma PatchToHereStep(ch: Chunk, list: seq<nat>)
    ensures PatchToHere(ch, list) ==
            if Elides(ch, list) then PatchToHere(ElidedChunk(ch), ElidedList(ch, list))
              else PatchTo(ch, list, |ch.tape|)
  {
    if |ch.tape| == 1 { PositionFinds(list, 0); }
  }

  lemma PatchNothing(ch: Chunk)
    ensures PatchToHere(ch, []) == Ok(ch.(lastTarget := Max(ch.lastTarget, |ch.tape|)))
  {
    PatchToHereStep(ch, []);
    assert AimJumps(DowngradeTestsets(ch.tape, []), [], |ch.tape|) == ch.tape;
  }

  lemma ElidedShape(ch: Chunk, start: nat, stay: seq<nat>, leave: seq<nat>)
    requires ListsOk(ch.tape, start, |ch.tape|, stay, leave) && Elides(ch, stay)
    ensures var c, l := ElidedChunk(ch), ElidedList(ch, stay);
      && |l| == |stay| - 1 && start <= |c.tape| && c.tape[..start] == ch.tape[..start]
      && ListsOk(c.tape, start, |c.tape|, l, leave)
      && Elems(l) + Elems(leave) == Elems(stay) + Elems(leave) - {|ch.tape| - 1}
      && (forall j :: j in leave ==> c.tape[j - 1] == ch.tape[j - 1])
  {
    var c, l, last := ElidedChunk(ch), ElidedList(ch, stay), |ch.tape| - 1;
    var pos := Position(stay, last);
    PositionFinds(stay, last);
    assert PendingAt(ch.tape, start, |ch.tape|, last);
    var all := stay + leave;
    NoDupRemove(all, pos);
    assert l + leave == all[..pos] + all[pos + 1..];
    forall x ensures x in l || x in leave <==> (x in stay || x in leave) && x != last {
      assert x in l + leave <==> x in l || x in leave;
      assert x in all <==> x in stay || x in leave;
    }
    forall j | j in l || j in leave ensures PendingAt(c.tape, start, |c.tape|, j) {
      assert PendingAt(ch.tape, start, |ch.tape|, j);
      assert j != last;
      assert j != last - 1;
    }
    assert c.tape[..start] == ch.tape[..start];
  }

  lemma ElidedExit(tape: seq<Instr>, tape': seq<Instr>, base: nat, stay: seq<nat>, l: seq<nat>, leave: seq<nat>,
    want: bool, v: Option<Value>, regs: Regs, x: Exit, y: Exit, top: nat)
    requires GoesExit(tape, base, stay, leave, want, v, regs, x) && top in stay && top !in leave
    requires forall j :: j in leave ==> 0 < j <= |tape'| && j <= |tape| && tape'[j - 1] == tape[j - 1]
    requires forall j :: j in stay && j != top ==> j in l
    requires y == match x {
      case AtJump(j, r) => if j == top then Fall(r) else AtJump(j, r)
      case _ => x
    }
    ensures GoesExit(tape', base, l, leave, want, v, regs, y)
  {
  }

  lemma ElidedGoes(vm: Vm, ch: Chunk, start: nat, base: nat, stay: seq<nat>, leave: seq<nat>, want: bool,
    v: Option<Value>, regs: Regs)
    requires ListsOk(ch.tape, start, |ch.tape|, stay, leave) && Elides(ch, stay) && !ElidedChunk(ch).orphans
    requires Goes(vm, ch, start, base, stay, leave, want, v, regs)
    ensures Goes(vm, ElidedChunk(ch), start, base, ElidedList(ch, stay), leave, want, v, regs)
  {
    ElidedShape(ch, start, stay, leave);
    var cut := |ch.tape| - 2;
    var pend := Elems(stay) + Elems(leave);
    PositionFinds(stay, cut + 1);
    ExecElided(vm, ch.consts, ch.tape, pend, start, cut, regs);
    ElidedJumps(ch, start, stay, leave);
    ElidedExit(ch.tape, ElidedChunk(ch).tape, base, stay, ElidedList(ch, stay), leave, want, v, regs,
      Exec(vm, ch.consts, ch.tape, pend, start, cut + 2, regs),
      Exec(vm, ch.consts, ElidedChunk(ch).tape, pend - {cut + 1}, start, cut, regs), cut + 1);
  }

  lemma ElidedJumps(ch: Chunk, start: nat, stay: seq<nat>, leave: seq<nat>)
    requires ListsOk(ch.tape, start, |ch.tape|, stay, leave) && Elides(ch, stay)
    ensures var t := ElidedChunk(ch).tape;
      && |ch.tape| - 1 in stay && |ch.tape| - 1 !in leave
      && (forall j :: j in leave ==> 0 < j <= |t| && j <= |ch.tape| && t[j - 1] == ch.tape[j - 1])
      && (forall j :: j in stay && j != |ch.tape| - 1 ==> j in ElidedList(ch, stay))
  {
    ElidedShape(ch, start, stay, leave);
    PositionFinds(stay, |ch.tape| - 1);
    NoDupSplit(stay, leave);
    forall j | j in leave ensures 0 < j <= |ElidedChunk(ch).tape| { assert PendingAt(ch.tape, start, |ch.tape|, j); }
    forall j | j in stay && j != |ch.tape| - 1 ensures j in ElidedList(ch, stay) {
      assert j in Elems(ElidedList(ch, stay)) + Elems(leave);
    }
  }

  /** Structure after `patch_to_here`; only the list it was given is gone. */
  lemma {:induction false} PatchToHereShape(ch: Chunk, start: nat, stay: seq<nat>, leave: seq<nat>)
    requires ListsOk(ch.tape, start, |ch.tape|, stay, leave)
    ensures PatchToHere(ch, stay).Ok?
    ensures var c := PatchToHere(ch, stay).value;
      && start <= |c.tape| && c.tape[..start] == ch.tape[..start]
      && ListsOk(c.tape, start, |c.tape|, [], leave)
      && c == ch.(tape := c.tape, orphans := c.orphans, lastTarget := c.lastTarget) && (ch.orphans ==> c.orphans)
    decreases |stay|
  {
    PatchToHereStep(ch, stay);
    if Elides(ch, stay) {
      ElidedShape(ch, start, stay, leave);
      PatchToHereShape(ElidedChunk(ch), start, ElidedList(ch, stay), leave);
    } else {
      PatchToShape(ch, start, stay, leave);
    }
  }

  /** Meaning after `patch_to_here`: the jumps of the list now fall out. */
  lemma {:induction false} PatchToHereGoes(vm: Vm, ch: Chunk, start: nat, base: nat, stay: seq<nat>, leave: seq<nat>,
    want: bool, v: Option<Value>, regs: Regs)
    requires ListsOk(ch.tape, start, |ch.tape|, stay, leave)
    requires PatchToHere(ch, stay).Ok? && !PatchToHere(ch, stay).value.orphans
    requires Goes(vm, ch, start, base, stay, leave, want, v, regs)
    ensures Goes(vm, PatchToHere(ch, stay).value, start, base, [], leave, want, v, regs)
    decreases |stay|
  {
    PatchToHereStep(ch, stay);
    if Elides(ch, stay) {
      ElidedShape(ch, start, stay, leave);
      PatchToHereShape(ElidedChunk(ch), start, ElidedList(ch, stay), leave);
      ElidedGoes(vm, ch, start, base, stay, leave, want, v, regs);
      PatchToHereGoes(vm, ElidedChunk(ch), start, base, ElidedList(ch, stay), leave, want, v, regs);
    } else {
      PatchToGoes(vm, ch, start, base, stay, leave, want, v, regs);
    }
  }
}
