/** Going by truth, and the short-circuit operators built on it. */
module LuaLogic {
  import opened Prelude
  import opened LuaVm
  import opened LuaCompile
  import opened LuaExec
  import opened LuaDesc
  import opened LuaDischarge
  import opened LuaReg

  // ----- goiftrue and goiffalse -----

  function GoIf(ch: Chunk, d: Desc, want: bool): Result<(Desc, Chunk)> {
    if want then GoIfTrue(ch, d) else GoIfFalse(ch, d)
  }

  /** The jumps that stay in the expression, and those that leave it. */
  function Stay(d: Desc, want: bool): seq<nat> { if want then d.tl else d.fl }
  function Leave(d: Desc, want: bool): seq<nat> { if want then d.fl else d.tl }

  ghost predicate Gone(ch: Chunk, c: Chunk, start: nat, base: nat, d: Desc, want: bool) {
    && Follows(ch, c, start) && c.orphans == ch.orphans && c.freereg == base
    && ListsOk(c.tape, start, |c.tape|, Stay(d, want), Leave(d, want))
  }

  lemma ListsSwap(tape: seq<Instr>, start: nat, end: nat, a: seq<nat>, b: seq<nat>)
    requires ListsOk(tape, start, end, a, b)
    ensures ListsOk(tape, start, end, b, a)
  {
    NoDupSwap(a, b);
    assert Elems(b) + Elems(a) == Elems(a) + Elems(b);
  }

  /** A register operand: its temporary is freed and a test with a placeholder appended. */
  lemma GoRegShape(ch: Chunk, start: nat, base: nat, d: Desc, r: nat, want: bool)
    requires WellFormed(ch, start, base, d) && d.kind == InReg(r)
    ensures FreeReg(ch, r).Ok? && FreeReg(ch, r).value == ch.(freereg := base)
    ensures var (j, c) := EmitTestJump(ch.(freereg := base), r, !want);
      && j == |ch.tape| + 1 && c.tape == ch.tape + [TESTSET(NO_REG, r, want), JMP(0)]
      && Gone(ch, c, start, base, if want then Desc(d.kind, d.tl, d.fl + [j]) else Desc(d.kind, d.tl + [j], d.fl), want)
  {
    var n := |ch.tape|;
    var (j, c) := EmitTestJump(ch.(freereg := base), r, !want);
    var (a, b) := (Stay(d, want), Leave(d, want));
    if !want { ListsSwap(ch.tape, start, n, d.tl, d.fl); }
    TestAppended(ch.tape, c.tape, start, a, b, r, want);
  }

  lemma TestAppended(tape: seq<Instr>, tape': seq<Instr>, start: nat, a: seq<nat>, b: seq<nat>, r: nat, want: bool)
    requires ListsOk(tape, start, |tape|, a, b) && tape' == tape + [TESTSET(NO_REG, r, want), JMP(0)]
    ensures ListsOk(tape', start, |tape'|, a, b + [|tape| + 1])
    ensures forall j :: j in a || j in b ==> 0 < j < |tape| && tape'[j - 1] == tape[j - 1]
  {
    var n := |tape|;
    assert forall j :: j in a || j in b ==> PendingAt(tape, start, n, j);
    assert n + 1 !in a + b;
    NoDupInsert(a + b, [], n + 1);
    assert a + b + [] == a + b && a + b + [n + 1] + [] == a + (b + [n + 1]);
    forall j | j in a || j in b + [n + 1] ensures PendingAt(tape', start, n + 2, j) {
      if j != n + 1 { assert PendingAt(tape, start, n, j); }
    }
    forall i | start <= i < n + 2 && Placeholder(tape'[i]) ensures i + 1 in Elems(a) + Elems(b + [n + 1]) {
      if i < n { assert tape'[i] == tape[i]; }
    }
  }

  /** The appended test: on falling past it the truth is `want`, else its jump is reached. */
  lemma TestRuns(vm: Vm, k: seq<Value>, tape: seq<Instr>, pend: set<nat>, n: nat, r: nat, want: bool, regs: Regs)
    requires |tape| == n + 2 && tape[n] == TESTSET(NO_REG, r, want) && n !in pend && n + 1 in pend
    ensures Exec(vm, k, tape, pend, n, n + 2, regs) ==
            if Truthy(Get(regs, r)) == want then Fall(regs) else AtJump(n + 1, regs)
  {
    assert Exec(vm, k, tape, pend, n + 2, n + 2, regs) == Fall(regs);
  }

  /** What the test adds to a run that has reached it. */
  lemma TestGoes(vm: Vm, k: seq<Value>, tape: seq<Instr>, tape': seq<Instr>, base: nat, d: Desc, r: nat, want: bool,
    v: Option<Value>, regs: Regs, pend: set<nat>, x: Exit)
    requires d.kind == InReg(r) && FitsExit(vm, tape, base, d, v, regs, x)
    requires tape' == tape + [TESTSET(NO_REG, r, want), JMP(0)]
    requires pend == Pend(d) + {|tape| + 1} && forall j :: j in Pend(d) ==> 0 < j < |tape|
    requires forall y :: y in d.tl ==> y !in d.fl
    ensures GoesExit(tape', base, Stay(d, want), Leave(d, want) + [|tape| + 1], want, v, regs,
      match x { case Fall(q) => Exec(vm, k, tape', pend, |tape|, |tape| + 2, q) case y => y })
  {
    match x {
      case Fall(q) => TestRuns(vm, k, tape', pend, |tape|, r, want, q);
      case AtJump(j, q) => assert tape'[j - 1] == tape[j - 1];
      case _ =>
    }
  }

  lemma PendGrows(d: Desc, want: bool, j: nat)
    ensures Elems(Stay(d, want)) + Elems(Leave(d, want) + [j]) == Pend(d) + {j}
  {
    assert Elems(Leave(d, want) + [j]) == Elems(Leave(d, want)) + {j};
  }

  lemma JumpsBelow(tape: seq<Instr>, start: nat, end: nat, d: Desc)
    requires ListsOk(tape, start, end, d.tl, d.fl)
    ensures forall j :: j in Pend(d) ==> 0 < j < end
    ensures forall j :: j in d.tl ==> j !in d.fl
  {
    forall j | j in Pend(d) ensures 0 < j < end { assert PendingAt(tape, start, end, j); }
    NoDupSplit(d.tl, d.fl);
  }

  lemma GoRegRuns(vm: Vm, ch: Chunk, start: nat, base: nat, d: Desc, r: nat, want: bool, v: Option<Value>, regs: Regs)
    requires ListsOk(ch.tape, start, |ch.tape|, d.tl, d.fl) && d.kind == InReg(r)
    requires Fits(vm, ch, start, base, d, v, regs)
    ensures var (j, c) := EmitTestJump(ch.(freereg := base), r, !want);
      Goes(vm, c, start, base, Stay(d, want), Leave(d, want) + [j], want, v, regs)
  {
    var n := |ch.tape|;
    var tape' := ch.tape + [TESTSET(NO_REG, r, want), JMP(0)];
    assert EmitTestJump(ch.(freereg := base), r, !want).1.tape == tape';
    PendGrows(d, want, n + 1);
    JumpsBelow(ch.tape, start, n, d);
    TestAfter(vm, ch.consts, ch.tape, tape', start, base, d, r, want, v, regs);
  }

  lemma GoRegGoes(vm: Vm, ch: Chunk, start: nat, base: nat, d: Desc, r: nat, want: bool, v: Option<Value>, regs: Regs)
    requires WellFormed(ch, start, base, d) && d.kind == InReg(r) && Fits(vm, ch, start, base, d, v, regs)
    ensures var (j, c) := EmitTestJump(ch.(freereg := base), r, !want);
      Goes(vm, c, start, base, Stay(d, want), Leave(d, want) + [j], want, v, regs)
  {
    GoRegRuns(vm, ch, start, base, d, r, want, v, regs);
  }

  lemma TestAfter(vm: Vm, k: seq<Value>, tape: seq<Instr>, tape': seq<Instr>, start: nat, base: nat, d: Desc, r: nat,
    want: bool, v: Option<Value>, regs: Regs)
    requires start <= |tape| && d.kind == InReg(r)
    requires FitsExit(vm, tape, base, d, v, regs, Exec(vm, k, tape, Pend(d), start, |tape|, regs))
    requires tape' == tape + [TESTSET(NO_REG, r, want), JMP(0)]
    requires forall j :: j in Pend(d) ==> 0 < j < |tape|
    requires forall y :: y in d.tl ==> y !in d.fl
    ensures GoesExit(tape', base, Stay(d, want), Leave(d, want) + [|tape| + 1], want, v, regs,
      Exec(vm, k, tape', Pend(d) + {|tape| + 1}, start, |tape| + 2, regs))
  {
    var n, pend := |tape|, Pend(d) + {|tape| + 1};
    ExecExtended(vm, k, k, tape, tape', Pend(d), pend, start, n, n + 2, regs);
    TestGoes(vm, k, tape, tape', base, d, r, want, v, regs, pend, Exec(vm, k, tape, Pend(d), start, n, regs));
  }

  lemma FlipHeadShape(tape: seq<Instr>, tape': seq<Instr>, start: nat, d: Desc)
    requires start + 2 <= |tape| && ListsOk(tape, start, |tape| - 2, d.tl, d.fl) && tape[|tape| - 2].CMP?
    requires tape' == tape[|tape| - 2 := Flipped(tape[|tape| - 2])]
    ensures ListsOk(tape', start, |tape'| - 2, d.tl, d.fl) && tape'[|tape'| - 2].CMP? && tape'[..start] == tape[..start]
    ensures forall j :: j in d.tl || j in d.fl ==> 0 < j <= |tape| && tape'[j - 1] == tape[j - 1]
  {
    var n := |tape| - 2;
    forall j | j in d.tl || j in d.fl ensures PendingAt(tape', start, n, j) && tape'[j - 1] == tape[j - 1] {
      assert PendingAt(tape, start, n, j);
    }
    forall i | start <= i < |tape'| && Placeholder(tape'[i]) ensures i + 1 in Elems(d.tl) + Elems(d.fl) {
      assert i != n;
    }
  }

  lemma FlipTells(vm: Vm, tape: seq<Instr>, tape': seq<Instr>, base: nat, d: Desc, v: Option<Value>, regs: Regs,
    x: Exit)
    requires |tape| >= 2 && tape[|tape| - 2].CMP? && tape' == tape[|tape| - 2 := Flipped(tape[|tape| - 2])]
    requires forall j :: j in Pend(d) ==> 0 < j < |tape| - 1
    requires HeadFitsExit(vm, tape, base, d, true, v, regs, x)
    ensures HeadFitsExit(vm, tape', base, d, false, v, regs, x)
  {
  }

  lemma FlippedRuns(vm: Vm, ch: Chunk, c: Chunk, start: nat, base: nat, d: Desc, regs: Regs)
    requires WellFormed(ch, start, base, d) && d.kind.Jump?
    requires c.tape == ch.tape[|ch.tape| - 2 := Flipped(ch.tape[|ch.tape| - 2])] && c.consts == ch.consts
    requires !Exec(vm, ch.consts, ch.tape, Pend(d), start, |ch.tape| - 2, regs).Stuck?
    ensures Exec(vm, c.consts, c.tape, Pend(d), start, |ch.tape| - 2, regs) ==
      Exec(vm, ch.consts, ch.tape, Pend(d), start, |ch.tape| - 2, regs)
  {
    var n := |ch.tape| - 2;
    forall j | j in Pend(d) ensures 0 < j < n + 1 { assert PendingAt(ch.tape, start, n, j); }
    ExecLocal(vm, ch.consts, ch.consts, ch.tape, c.tape, Pend(d), Pend(d), start, n, regs);
  }

  /** A comparison with its polarity flipped: same structure, opposite sense. */
  lemma FlipHead(vm: Vm, ch: Chunk, c: Chunk, start: nat, base: nat, d: Desc, v: Option<Value>, regs: Regs)
    requires WellFormed(ch, start, base, d) && d.kind.Jump? && Fits(vm, ch, start, base, d, v, regs)
    requires c.tape == ch.tape[|ch.tape| - 2 := Flipped(ch.tape[|ch.tape| - 2])] && c.consts == ch.consts
    ensures HeadFits(vm, c, start, base, d, false, v, regs)
  {
    var n := |ch.tape| - 2;
    FitsHead(vm, ch, start, base, d, v, regs);
    FlippedRuns(vm, ch, c, start, base, d, regs);
    FlipTells(vm, ch.tape, c.tape, base, d, v, regs, Exec(vm, ch.consts, ch.tape, Pend(d), start, n, regs));
  }

  function HeadChunk(ch: Chunk, want: bool): Chunk
    requires |ch.tape| >= 2
  {
    if want then ch.(tape := ch.tape[|ch.tape| - 2 := Flipped(ch.tape[|ch.tape| - 2])]) else ch
  }

  function HeadDesc(d: Desc, want: bool, head: nat): Desc {
    if want then Desc(Jump(None), d.tl, d.fl + [head]) else Desc(Jump(None), d.tl + [head], d.fl)
  }

  lemma GoHeadIs(ch: Chunk, start: nat, d: Desc, want: bool)
    requires HeadOk(ch.tape, start, d) && d.kind.Jump?
    ensures GoIf(ch, d, want) == Ok((HeadDesc(d, want, |ch.tape| - 1), HeadChunk(ch, want)))
  {
  }

  lemma GoHeadShape(ch: Chunk, start: nat, base: nat, d: Desc, want: bool)
    requires WellFormed(ch, start, base, d) && d.kind.Jump?
    ensures Gone(ch, HeadChunk(ch, want), start, base, HeadDesc(d, want, |ch.tape| - 1), want)
  {
    if want {
      FlipHeadShape(ch.tape, HeadChunk(ch, want).tape, start, d);
      HeadJoins(HeadChunk(ch, want).tape, start, d.tl, d.fl);
    } else {
      HeadJoins(ch.tape, start, d.tl, d.fl);
      ListsSwap(ch.tape, start, |ch.tape|, d.tl + [|ch.tape| - 1], d.fl);
    }
  }

  /** The exit of a run through the head, in terms of what stays and what leaves. */
  lemma HeadLeaves(tape: seq<Instr>, base: nat, d: Desc, want: bool, v: Option<Value>, regs: Regs, x: Exit)
    requires |tape| >= 1 && |tape| - 1 !in Pend(d) && forall j :: j in d.tl ==> j !in d.fl
    requires HeadExit(tape, base, d, !want, v, regs, x)
    requires |tape| >= 2 && tape[|tape| - 2].CMP?
    ensures GoesExit(tape, base, Stay(d, want), Leave(d, want) + [|tape| - 1], want, v, regs, x)
  {
  }

  lemma HeadGoes(vm: Vm, c: Chunk, start: nat, base: nat, d: Desc, want: bool, v: Option<Value>, regs: Regs)
    requires start + 2 <= |c.tape| && ListsOk(c.tape, start, |c.tape| - 2, d.tl, d.fl) && c.tape[|c.tape| - 2].CMP?
    requires HeadFits(vm, c, start, base, d, !want, v, regs)
    ensures Goes(vm, c, start, base, Stay(d, want), Leave(d, want) + [|c.tape| - 1], want, v, regs)
  {
    var n := |c.tape|;
    HeadRuns(vm, c, start, base, d, !want, v, regs);
    JumpsBelow(c.tape, start, n - 2, d);
    HeadLeaves(c.tape, base, d, want, v, regs, Exec(vm, c.consts, c.tape, Pend(d) + {n - 1}, start, n, regs));
    PendGrows(d, want, n - 1);
  }

  lemma GoHeadGoes(vm: Vm, ch: Chunk, start: nat, base: nat, d: Desc, want: bool, v: Option<Value>, regs: Regs)
    requires WellFormed(ch, start, base, d) && d.kind.Jump? && Fits(vm, ch, start, base, d, v, regs)
    ensures Goes(vm, HeadChunk(ch, want), start, base, Stay(d, want), Leave(d, want) + [|ch.tape| - 1], want, v, regs)
  {
    var c := HeadChunk(ch, want);
    assert |c.tape| == |ch.tape|;
    if want {
      FlipHead(vm, ch, c, start, base, d, v, regs);
      FlipHeadShape(ch.tape, c.tape, start, d);
      HeadGoes(vm, c, start, base, d, true, v, regs);
    } else {
      FitsHead(vm, ch, start, base, d, v, regs);
      HeadGoes(vm, ch, start, base, d, false, v, regs);
    }
  }

  lemma GoIfShape(ch: Chunk, start: nat, base: nat, d: Desc, want: bool)
    requires WellFormed(ch, start, base, d)
    ensures GoIf(ch, d, want).Err? ==> GoIf(ch, d, want).fail != Panic
    ensures GoIf(ch, d, want).Ok? ==> var (d1, c) := GoIf(ch, d, want).value; Gone(ch, c, start, base, d1, want)
  {
    match d.kind {
      case Jump(_) =>
        GoHeadIs(ch, start, d, want);
        GoHeadShape(ch, start, base, d, want);
      case InReg(r) => GoRegShape(ch, start, base, d, r, want);
      case Literal(k) =>
        if Truthy(k) == want {
          if !want { ListsSwap(ch.tape, start, |ch.tape|, d.tl, d.fl); }
        } else {
          DischargeOk(ch, start, base, d);
          if Discharge(ch, d).Ok? {
            var (r, c) := Discharge(ch, d).value;
            GoRegShape(c, start, base, Desc(InReg(r), [], []), r, want);
          }
        }
    }
  }

  /** A literal that does not fall through is loaded and tested. */
  lemma GoLiteralGoes(vm: Vm, ch: Chunk, start: nat, base: nat, d: Desc, want: bool, v: Option<Value>, regs: Regs)
    requires WellFormed(ch, start, base, d) && Fits(vm, ch, start, base, d, v, regs) && GoIf(ch, d, want).Ok?
    requires d.kind.Literal? && Truthy(d.kind.v) != want
    ensures var (d1, c) := GoIf(ch, d, want).value;
      Goes(vm, c, start, base, Stay(d1, want), Leave(d1, want), want, v, regs)
  {
    var (r, c) := Discharge(ch, d).value;
    var d0 := Desc(InReg(r), [], []);
    assert WellFormed(c, start, base, d0) by { DischargeOk(ch, start, base, d); }
    assert Fits(vm, c, start, base, d0, v, regs) by {
      DischargeYields(vm, ch, start, base, d, v, regs);
      assert Pend(d0) == {};
    }
    GoRegShape(c, start, base, d0, r, want);
    GoRegGoes(vm, c, start, base, d0, r, want, v, regs);
  }

  lemma GoIfGoes(vm: Vm, ch: Chunk, start: nat, base: nat, d: Desc, want: bool, v: Option<Value>, regs: Regs)
    requires WellFormed(ch, start, base, d) && Fits(vm, ch, start, base, d, v, regs) && GoIf(ch, d, want).Ok?
    ensures var (d1, c) := GoIf(ch, d, want).value;
      Goes(vm, c, start, base, Stay(d1, want), Leave(d1, want), want, v, regs)
  {
    match d.kind {
      case Jump(_) =>
        GoHeadIs(ch, start, d, want);
        GoHeadGoes(vm, ch, start, base, d, want, v, regs);
      case InReg(r) =>
        GoRegShape(ch, start, base, d, r, want);
        GoRegGoes(vm, ch, start, base, d, r, want, v, regs);
      case Literal(k) =>
        NoDupSplit(d.tl, d.fl);
        if Truthy(k) == want {
          assert Elems(Stay(d, want)) + Elems(Leave(d, want)) == Pend(d);
        } else {
          GoLiteralGoes(vm, ch, start, base, d, want, v, regs);
        }
    }
  }

  // ----- negatecond -----

  /** Negating a condition flips every control of its jumps, and nothing else in the code. */
  lemma {:induction false} FlipAllFlips(ch: Chunk, list: seq<nat>)
    requires NoDup(list) && forall j :: j in list ==> 0 < j <= |ch.tape| && IsControl(ch.tape[j - 1])
    ensures FlipAll(ch, list).Ok?
    ensures var c := FlipAll(ch, list).value;
      c == ch.(tape := c.tape) && |c.tape| == |ch.tape|
      && forall i :: 0 <= i < |ch.tape| ==> c.tape[i] == if i + 1 in list then Flipped(ch.tape[i]) else ch.tape[i]
    decreases |list|
  {
    if list != [] {
      var j, rest := list[0], list[1..];
      assert list == [j] + rest;
      NoDupSplit([j], rest);
      assert j in [j] && j !in rest;
      assert forall x :: x in list <==> x == j || x in rest;
      FlipAllFlips(FlipControl(ch, j).value, rest);
    }
  }

  /** A flipped control skips exactly when the original does not. */
  lemma FlippedSkips(vm: Vm, i: Instr, regs: Regs)
    requires IsControl(i)
    ensures IsControl(Flipped(i))
    ensures Skips(vm, Flipped(i), regs) == match Skips(vm, i, regs) { case None => None case Some(b) => Some(!b) }
  {
  }

  /** `negate_cond` swaps the exits, and every jump is taken exactly when it was not before. */
  lemma NegateCondNegates(vm: Vm, ch: Chunk, d: Desc, j: nat, regs: Regs)
    requires NoDup(d.tl + d.fl) && !(d.kind.Jump? && d.kind.head.Some?)
    requires forall x :: x in d.tl + d.fl ==> 0 < x <= |ch.tape| && IsControl(ch.tape[x - 1])
    ensures NegateCond(ch, d).Ok?
    ensures var (e, c) := NegateCond(ch, d).value;
      && e == Desc(d.kind, d.fl, d.tl) && c == ch.(tape := c.tape) && |c.tape| == |ch.tape|
      && (j < |ch.tape| && j + 1 !in d.tl + d.fl ==> c.tape[j] == ch.tape[j])
      && (j in d.tl + d.fl ==>
            IsControl(c.tape[j - 1]) && Skips(vm, c.tape[j - 1], regs) ==
              match Skips(vm, ch.tape[j - 1], regs) { case None => None case Some(b) => Some(!b) })
  {
    FlipAllFlips(ch, d.tl + d.fl);
    if j in d.tl + d.fl { FlippedSkips(vm, ch.tape[j - 1], regs); }
  }

  // ----- and, or -----

  function Logic(want: bool, x: Expr, y: Expr): Expr {
    if want then And(x, y) else Or(x, y)
  }

  /** The description of `x and y` or `x or y`: that of `y`, with the jumps that left `x`. */
  function Joined(d: Desc, want: bool, leave: seq<nat>): Desc {
    if want then d.(fl := d.fl + leave) else d.(tl := d.tl + leave)
  }

  /** The jumps that left `x` are still pending after `y` has been compiled behind them. */
  lemma LeftPending(tape: seq<Instr>, tape': seq<Instr>, start: nat, end: nat, leave: seq<nat>)
    requires ListsOk(tape, start, |tape|, [], leave) && tape <= tape' && |tape| <= end <= |tape'|
    ensures NoDup(leave)
    ensures forall j :: j in leave ==> j < |tape| && PendingAt(tape', start, end, j) && tape'[j - 1] == tape[j - 1]
    ensures forall i :: start <= i < |tape| && Placeholder(tape'[i]) ==> i + 1 in leave
  {
    assert [] + leave == leave;
    forall j | j in leave ensures j < |tape| && PendingAt(tape', start, end, j) && tape'[j - 1] == tape[j - 1] {
      assert PendingAt(tape, start, |tape|, j);
    }
    forall i | start <= i < |tape| && Placeholder(tape'[i]) ensures i + 1 in leave {
      assert Placeholder(tape[i]);
      assert i + 1 in Elems([]) + Elems(leave);
    }
  }

  lemma JoinedLists(tape: seq<Instr>, start: nat, mid: nat, end: nat, d: Desc, e: Desc, want: bool, leave: seq<nat>)
    requires start <= mid && ListsOk(tape, mid, end, d.tl, d.fl) && e == Joined(d, want, leave)
    requires NoDup(leave) && forall j :: j in leave ==> j < mid && PendingAt(tape, start, end, j)
    requires forall i :: start <= i < mid && Placeholder(tape[i]) ==> i + 1 in leave
    ensures ListsOk(tape, start, end, e.tl, e.fl)
  {
    assert forall j :: j in d.tl || j in d.fl ==> PendingAt(tape, mid, end, j);
    forall j | j in e.tl || j in e.fl ensures PendingAt(tape, start, end, j) {
      if j !in leave { assert PendingAt(tape, mid, end, j); }
    }
    NoDupJoin(d.tl, d.fl, leave);
    assert e.tl + e.fl == if want then d.tl + d.fl + leave else d.tl + leave + d.fl;
    forall i | start <= i < |tape| && Placeholder(tape[i]) ensures i + 1 in Elems(e.tl) + Elems(e.fl) {
      if i >= mid { assert i + 1 in Elems(d.tl) + Elems(d.fl); }
    }
  }

  lemma JoinedShape(a: Chunk, c: Chunk, start: nat, base: nat, d: Desc, want: bool, leave: seq<nat>)
    requires start <= |a.tape| && ListsOk(a.tape, start, |a.tape|, [], leave)
    requires Extends(a, c) && WellFormed(c, |a.tape|, base, d)
    ensures WellFormed(c, start, base, Joined(d, want, leave))
    ensures forall j :: j in leave ==> start < j < |a.tape| && c.tape[j - 1] == a.tape[j - 1]
  {
    LeftPending(a.tape, c.tape, start, End(c, d), leave);
    JoinedLists(c.tape, start, |a.tape|, End(c, d), d, Joined(d, want, leave), want, leave);
  }

  lemma NoDupJoin(a: seq<nat>, b: seq<nat>, c: seq<nat>)
    requires NoDup(a + b) && NoDup(c) && forall x :: x in a || x in b ==> x !in c
    ensures NoDup(a + b + c) && NoDup(a + c + b)
  {
    NoDupSplit(a, b);
    NoDupAppend(a + b, c);
    NoDupAppend(a, c);
    NoDupAppend(a + c, b);
  }

  lemma NoDupAppend(a: seq<nat>, b: seq<nat>)
    requires NoDup(a) && NoDup(b) && forall x :: x in a ==> x !in b
    ensures NoDup(a + b)
  {
    var l := a + b;
    forall i, j | 0 <= i < j < |l| ensures l[i] != l[j] {
      if i < |a| <= j {
        assert l[i] in a && l[j] in b;
      } else if i >= |a| {
        assert l[i] == b[i - |a|] && l[j] == b[j - |a|];
      }
    }
  }

  /** Values of `x` decide, or those of `y` follow. */
  lemma LogicValue(vm: Vm, want: bool, x: Expr, y: Expr, regs: Regs)
    ensures Eval(vm, Logic(want, x, y), regs) ==
            match Eval(vm, x, regs) {
              case None => None
              case Some(v) => if Truthy(v) == want then Eval(vm, y, regs) else Some(v)
            }
  {
  }

  /** What the run of the left operand says about the whole expression. */
  lemma JoinedLeaves(c: Chunk, a: Chunk, base: nat, d: Desc, want: bool, leave: seq<nat>, j: nat, r: Regs, v: Value)
    requires j in leave && Truthy(v) != want && Carries(a.tape, j, r, v)
    requires 0 < j <= |a.tape| <= |c.tape| && c.tape[j - 1] == a.tape[j - 1] && j !in d.tl && j !in d.fl
    ensures JumpTells(c.tape, Joined(d, want, leave), j, r, Some(v))
  {
  }

  lemma JoinedFits(vm: Vm, a: Chunk, c: Chunk, start: nat, base: nat, x: Expr, y: Expr, want: bool, leave: seq<nat>,
    d: Desc, regs: Regs)
    requires start <= |a.tape| && ListsOk(a.tape, start, |a.tape|, [], leave)
    requires Extends(a, c) && WellFormed(c, |a.tape|, base, d) && WellScoped(y, base)
    requires Goes(vm, a, start, base, [], leave, want, Eval(vm, x, regs), regs)
    requires Good(vm, c, |a.tape|, base, y, d)
    ensures Fits(vm, c, start, base, Joined(d, want, leave), Eval(vm, Logic(want, x, y), regs), regs)
  {
    JoinedShape(a, c, start, base, d, want, leave);
    LogicValue(vm, want, x, y, regs);
    var mid, end := |a.tape|, End(c, d);
    var e := Joined(d, want, leave);
    var pend := Elems([]) + Elems(leave);
    assert forall j :: j in d.tl || j in d.fl ==> PendingAt(c.tape, mid, end, j);
    assert forall i :: start <= i <= mid ==> (i in pend <==> i in Pend(e));
    ExecExtended(vm, a.consts, c.consts, a.tape, c.tape, pend, Pend(e), start, mid, end, regs);
    var z := Exec(vm, a.consts, a.tape, pend, start, mid, regs);
    match z {
      case Fall(r) =>
        EvalReadsLocals(vm, y, base, regs, r);
        JoinedRight(vm, c, mid, base, d, e, want, leave, Eval(vm, y, regs), regs, r);
      case AtJump(j, r) =>
        JoinedLeaves(c, a, base, d, want, leave, j, r, Eval(vm, x, regs).value);
      case _ =>
    }
  }

  lemma JoinedRight(vm: Vm, c: Chunk, mid: nat, base: nat, d: Desc, e: Desc, want: bool, leave: seq<nat>,
    v: Option<Value>, regs: Regs, r: Regs)
    requires WellFormed(c, mid, base, d) && e == Joined(d, want, leave) && Kept(regs, r, base)
    requires forall j :: j in leave ==> j < mid
    requires Fits(vm, c, mid, base, d, v, r)
    ensures FitsExit(vm, c.tape, base, e, v, regs, Exec(vm, c.consts, c.tape, Pend(e), mid, End(c, d), r))
  {
    var end := End(c, d);
    assert forall j :: j in d.tl || j in d.fl ==> PendingAt(c.tape, mid, end, j);
    assert forall i :: mid <= i <= end ==> (i in Pend(d) <==> i in Pend(e));
    ExecLocal(vm, c.consts, c.consts, c.tape, c.tape, Pend(d), Pend(e), mid, end, r);
    var z := Exec(vm, c.consts, c.tape, Pend(d), mid, end, r);
    match z {
      case Fall(r') => KeptTrans(regs, r, r', base, base);
      case AtJump(j, r') => KeptTrans(regs, r, r', base, base);
      case _ =>
    }
  }
}
