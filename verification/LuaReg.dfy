/** Discharge of every kind of description. */
module LuaReg {
  import opened Prelude
  import opened LuaVm
  import opened LuaCompile
  import opened LuaExec
  import opened LuaDesc
  import opened LuaDischarge

  // ----- the pending head -----

  /** A run up to the last comparison, which tells the truth about the value. */
  ghost predicate HeadFitsExit(vm: Vm, tape: seq<Instr>, base: nat, d: Desc, sense: bool, v: Option<Value>, regs: Regs,
    x: Exit)
  {
    match x
    case Raise => v == None
    case Stuck => false
    case Fall(r) => Kept(regs, r, base) && |tape| >= 2 && HeadTells(vm, tape[|tape| - 2], r, v, sense)
    case AtJump(j, r) => Kept(regs, r, base) && JumpTells(tape, d, j, r, v)
  }

  ghost predicate HeadFits(vm: Vm, ch: Chunk, start: nat, base: nat, d: Desc, sense: bool, v: Option<Value>, regs: Regs)
  {
    |ch.tape| >= 2
    && HeadFitsExit(vm, ch.tape, base, d, sense, v, regs,
      Exec(vm, ch.consts, ch.tape, Pend(d), start, |ch.tape| - 2, regs))
  }

  /** Running through the comparison as well, its jump being pending like the others. */
  ghost predicate HeadExit(tape: seq<Instr>, base: nat, d: Desc, sense: bool, v: Option<Value>, regs: Regs, x: Exit) {
    match x
    case Raise => v == None
    case Stuck => false
    case Fall(r) => Kept(regs, r, base) && v == Some(Bool(!sense))
    case AtJump(j, r) =>
      Kept(regs, r, base) && if j == |tape| - 1 then v == Some(Bool(sense)) else JumpTells(tape, d, j, r, v)
  }

  /** The code before the head runs the same with the jump of the head pending. */
  lemma BeforeHead(vm: Vm, k: seq<Value>, tape: seq<Instr>, start: nat, n: nat, d: Desc, regs: Regs)
    requires start <= n && n + 2 == |tape| && ListsOk(tape, start, n, d.tl, d.fl)
    requires !Exec(vm, k, tape, Pend(d), start, n, regs).Stuck?
    ensures n !in Pend(d) + {n + 1}
    ensures Exec(vm, k, tape, Pend(d) + {n + 1}, start, n + 2, regs) ==
      match Exec(vm, k, tape, Pend(d), start, n, regs) {
        case Fall(r) => Exec(vm, k, tape, Pend(d) + {n + 1}, n, n + 2, r)
        case _ => Exec(vm, k, tape, Pend(d), start, n, regs)
      }
  {
    assert forall j :: j in Pend(d) ==> PendingAt(tape, start, n, j);
    ExecExtended(vm, k, k, tape, tape, Pend(d), Pend(d) + {n + 1}, start, n, n + 2, regs);
  }

  lemma HeadEnds(vm: Vm, k: seq<Value>, tape: seq<Instr>, base: nat, pend: set<nat>, d: Desc, sense: bool,
    v: Option<Value>, regs: Regs, r: Regs)
    requires |tape| >= 2 && tape[|tape| - 2].CMP? && |tape| - 2 !in pend && |tape| - 1 in pend
    requires Kept(regs, r, base) && HeadTells(vm, tape[|tape| - 2], r, v, sense)
    ensures HeadExit(tape, base, d, sense, v, regs, Exec(vm, k, tape, pend, |tape| - 2, |tape|, r))
  {
    ComparisonRuns(vm, k, tape, pend, |tape| - 2, r);
  }

  lemma HeadDecides(vm: Vm, k: seq<Value>, tape: seq<Instr>, start: nat, base: nat, d: Desc, sense: bool,
    v: Option<Value>, regs: Regs, x: Exit, y: Exit)
    requires start + 2 <= |tape| && ListsOk(tape, start, |tape| - 2, d.tl, d.fl) && tape[|tape| - 2].CMP?
    requires |tape| - 2 !in Pend(d) && HeadFitsExit(vm, tape, base, d, sense, v, regs, x)
    requires y == match x {
      case Fall(r) => Exec(vm, k, tape, Pend(d) + {|tape| - 1}, |tape| - 2, |tape|, r)
      case _ => x
    }
    ensures HeadExit(tape, base, d, sense, v, regs, y)
  {
    match x {
      case Fall(r) => HeadEnds(vm, k, tape, base, Pend(d) + {|tape| - 1}, d, sense, v, regs, r);
      case AtJump(j, r) => assert PendingAt(tape, start, |tape| - 2, j);
      case Raise =>
      case Stuck =>
    }
  }

  lemma HeadRuns(vm: Vm, ch: Chunk, start: nat, base: nat, d: Desc, sense: bool, v: Option<Value>, regs: Regs)
    requires start + 2 <= |ch.tape| && ListsOk(ch.tape, start, |ch.tape| - 2, d.tl, d.fl)
    requires ch.tape[|ch.tape| - 2].CMP? && HeadFits(vm, ch, start, base, d, sense, v, regs)
    ensures HeadExit(ch.tape, base, d, sense, v, regs,
      Exec(vm, ch.consts, ch.tape, Pend(d) + {|ch.tape| - 1}, start, |ch.tape|, regs))
  {
    var n := |ch.tape| - 2;
    BeforeHead(vm, ch.consts, ch.tape, start, n, d, regs);
    HeadDecides(vm, ch.consts, ch.tape, start, base, d, sense, v, regs,
      Exec(vm, ch.consts, ch.tape, Pend(d), start, n, regs),
      Exec(vm, ch.consts, ch.tape, Pend(d) + {n + 1}, start, n + 2, regs));
  }

  /** A comparison skips its jump, which is pending, or reaches it. */
  lemma ComparisonRuns(vm: Vm, k: seq<Value>, tape: seq<Instr>, pend: set<nat>, n: nat, regs: Regs)
    requires n + 2 <= |tape| && tape[n].CMP? && n !in pend && n + 1 in pend
    ensures Exec(vm, k, tape, pend, n, n + 2, regs) ==
      match Skips(vm, tape[n], regs) {
        case None => Raise
        case Some(skips) => if skips then Fall(regs) else AtJump(n + 1, regs)
      }
  {
    var m := MoveFrom(vm, k, tape, pend, n, regs);
    assert Exec(vm, k, tape, pend, n + 2, n + 2, regs) == Fall(regs);
  }

  lemma FitsHead(vm: Vm, ch: Chunk, start: nat, base: nat, d: Desc, v: Option<Value>, regs: Regs)
    requires HeadOk(ch.tape, start, d) && d.kind.Jump? && Fits(vm, ch, start, base, d, v, regs)
    ensures HeadFits(vm, ch, start, base, d, true, v, regs)
  {
  }

  /** The head joins one of the lists. */
  lemma HeadJoins(tape: seq<Instr>, start: nat, a: seq<nat>, b: seq<nat>)
    requires start + 2 <= |tape| && ListsOk(tape, start, |tape| - 2, a, b)
    requires tape[|tape| - 2].CMP? && tape[|tape| - 1].JMP?
    ensures ListsOk(tape, start, |tape|, a + [|tape| - 1], b)
    ensures ListsOk(tape, start, |tape|, a, b + [|tape| - 1])
    ensures |tape| - 1 !in a && |tape| - 1 !in b
  {
    var h := |tape| - 1;
    assert forall j :: j in a || j in b ==> PendingAt(tape, start, |tape| - 2, j);
    assert PendingAt(tape, start, |tape|, h);
    NoDupInsert(a, b, h);
    NoDupInsert(a + b, [], h);
    assert a + b + [] == a + b && a + b + [h] + [] == a + (b + [h]);
    forall j | j in a + [h] || j in b || j in b + [h] ensures PendingAt(tape, start, |tape|, j) {
      if j != h { assert PendingAt(tape, start, |tape| - 2, j); }
    }
    assert Elems(a + [h]) == Elems(a) + {h} && Elems(b + [h]) == Elems(b) + {h};
  }

  // ----- ready -----

  lemma ReserveRegOk(ch: Chunk)
    requires ch.nactvar <= ch.freereg
    ensures ReserveReg(ch).Err? ==> ReserveReg(ch).fail == Registers
    ensures ReserveReg(ch).Ok? ==>
      var (r, c) := ReserveReg(ch).value;
      r == ch.freereg != 255 && c == ch.(freereg := r + 1, maxStack := c.maxStack)
  {
  }

  lemma LoadLiteralShape(ch: Chunk, start: nat, base: nat, d: Desc)
    requires WellFormed(ch, start, base, d) && d.kind.Literal?
    ensures LoadLiteral(ch, d).Err? ==> LoadLiteral(ch, d).fail != Panic
    ensures LoadLiteral(ch, d).Ok? ==>
      var (d1, c1) := LoadLiteral(ch, d).value;
      && d1 == Desc(InReg(base), d.tl, d.fl) && base < 255 && c1.freereg == base + 1
      && Follows(ch, c1, start) && ListsOk(c1.tape, start, |c1.tape|, d.tl, d.fl)
  {
    AllocConstantOk(ch, d.kind.v);
    if LoadLiteral(ch, d).Ok? {
      var (d1, c1) := LoadLiteral(ch, d).value;
      var idx := AllocConstant(ch, d.kind.v).value.0;
      AppendedShape(ch, c1, start, d, LOAD(base, idx));
    }
  }

  lemma LoadLiteralReady(vm: Vm, ch: Chunk, start: nat, base: nat, d: Desc, v: Option<Value>, regs: Regs)
    requires WellFormed(ch, start, base, d) && d.kind.Literal? && LoadLiteral(ch, d).Ok?
    requires Fits(vm, ch, start, base, d, v, regs)
    ensures var (d1, c1) := LoadLiteral(ch, d).value; Ready(vm, c1, start, base, d1, base, false, v, regs)
  {
    AllocConstantOk(ch, d.kind.v);
    var (d1, c1) := LoadLiteral(ch, d).value;
    var idx := AllocConstant(ch, d.kind.v).value.0;
    AppendedRuns(vm, ch, c1, start, d, LOAD(base, idx), regs);
    AppendedShape(ch, c1, start, d, LOAD(base, idx));
    var x := Exec(vm, ch.consts, ch.tape, Pend(d), start, |ch.tape|, regs);
    if x.AtJump? { CarriesSame(ch.tape, c1.tape, d, x.j, x.regs, v); }
  }

  /** The chunk after a local's value has been copied to a fresh temporary. */
  function Copied(ch: Chunk, c: Chunk, base: nat, r: nat): Chunk {
    ch.(tape := ch.tape + [MOVE(base, r)], freereg := base + 1, maxStack := c.maxStack)
  }

  lemma CopyReady(vm: Vm, ch: Chunk, c: Chunk, start: nat, base: nat, d: Desc, r: nat, v: Option<Value>, regs: Regs)
    requires WellFormed(ch, start, base, d) && d.kind == InReg(r) && c == Copied(ch, c, base, r)
    requires Fits(vm, ch, start, base, d, v, regs)
    ensures Ready(vm, c, start, base, d, base, false, v, regs)
  {
    AppendedRuns(vm, ch, c, start, d, MOVE(base, r), regs);
    AppendedShape(ch, c, start, d, MOVE(base, r));
    var x := Exec(vm, ch.consts, ch.tape, Pend(d), start, |ch.tape|, regs);
    if x.AtJump? { CarriesSame(ch.tape, c.tape, d, x.j, x.regs, v); }
  }

  lemma AbsorbReady(vm: Vm, ch: Chunk, c: Chunk, start: nat, base: nat, d: Desc, v: Option<Value>, regs: Regs)
    requires WellFormed(ch, start, base, d) && d.kind.Jump? && c.tape == ch.tape && c.consts == ch.consts
    requires Fits(vm, ch, start, base, d, v, regs)
    ensures Ready(vm, c, start, base, Absorbed(d), base, true, v, regs)
  {
    var n := |ch.tape|;
    FitsHead(vm, ch, start, base, d, v, regs);
    HeadRuns(vm, ch, start, base, d, true, v, regs);
    HeadJoins(ch.tape, start, d.tl, d.fl);
    assert Pend(Absorbed(d)) == Pend(d) + {n - 1};
  }

  // ----- discharge -----

  /** What discharge leaves: a register, nothing pending, and no placeholder. */
  ghost predicate Discharged(ch: Chunk, c: Chunk, start: nat, base: nat, r: nat) {
    && Follows(ch, c, start) && c.orphans == ch.orphans
    && RegOk(c, base, Desc(InReg(r), [], [])) && NoStray(c.tape, start, {})
  }

  /** The description that is left to resolve, the chunk it stands in, and its register. */
  function Prepared(ch: Chunk, d: Desc): Result<(Desc, nat, Chunk)> {
    var (d1, c1) :- LoadLiteral(ch, d);
    var (dst, c2) :- PickDst(c1, d1);
    Ok((Absorbed(d1), dst, c2))
  }

  lemma PreparedOk(ch: Chunk, start: nat, base: nat, d: Desc)
    requires WellFormed(ch, start, base, d)
    ensures Prepared(ch, d).Err? ==> Prepared(ch, d).fail != Panic
    ensures Prepared(ch, d).Ok? ==>
      var (d2, dst, c2) := Prepared(ch, d).value;
      && dst == base < 255 && c2.freereg == base + 1 && Follows(ch, c2, start) && c2.orphans == ch.orphans
      && ListsOk(c2.tape, start, |c2.tape|, d2.tl, d2.fl)
      && (d.kind.Jump? ==> NeedValue(c2.tape, d2.tl))
  {
    ReserveRegOk(ch);
    match d.kind {
      case Literal(_) =>
        LoadLiteralShape(ch, start, base, d);
      case InReg(r) =>
        if r < ch.nactvar && Prepared(ch, d).Ok? {
          var (d2, dst, c2) := Prepared(ch, d).value;
          assert c2 == Copied(ch, c2, base, r);
          AppendedShape(ch, c2, start, d, MOVE(base, r));
        }
      case Jump(Some(j)) =>
        HeadJoins(ch.tape, start, d.tl, d.fl);
        if Prepared(ch, d).Ok? {
          var (d2, dst, c2) := Prepared(ch, d).value;
          assert j in d2.tl && !Placeholder(c2.tape[j - 1]);
        }
    }
  }

  lemma PreparedReady(vm: Vm, ch: Chunk, start: nat, base: nat, d: Desc, v: Option<Value>, regs: Regs)
    requires WellFormed(ch, start, base, d) && Prepared(ch, d).Ok? && Fits(vm, ch, start, base, d, v, regs)
    ensures var (d2, dst, c2) := Prepared(ch, d).value; Ready(vm, c2, start, base, d2, dst, d.kind.Jump?, v, regs)
  {
    var (d2, dst, c2) := Prepared(ch, d).value;
    ReserveRegOk(ch);
    match d.kind {
      case Literal(_) =>
        LoadLiteralShape(ch, start, base, d);
        LoadLiteralReady(vm, ch, start, base, d, v, regs);
      case InReg(r) =>
        if r < ch.nactvar { CopyReady(vm, ch, c2, start, base, d, r, v, regs); }
      case Jump(Some(j)) =>
        AbsorbReady(vm, ch, c2, start, base, d, v, regs);
    }
  }

  /** Discharge in terms of the prepared description. */
  lemma DischargeCases(ch: Chunk, start: nat, base: nat, d: Desc)
    requires WellFormed(ch, start, base, d)
    ensures Discharge(ch, d) ==
            if d.kind.InReg? && !HasJumps(d) then Ok((d.kind.r, ch))
            else match Prepared(ch, d) {
              case Err(f) => Err(f)
              case Ok((d2, dst, c2)) =>
                if !HasJumps(d2) then Ok((dst, c2))
                else match ResolveLists(c2, d2, dst, d.kind.Jump?) {
                  case Err(f) => Err(f)
                  case Ok(c3) => Ok((dst, c3))
                }
            }
  {
    if d.kind.Literal? { LoadLiteralShape(ch, start, base, d); }
  }

  lemma DischargeOk(ch: Chunk, start: nat, base: nat, d: Desc)
    requires WellFormed(ch, start, base, d)
    ensures Discharge(ch, d).Err? ==> Discharge(ch, d).fail != Panic
    ensures Discharge(ch, d).Ok? ==>
      var (r, c) := Discharge(ch, d).value; Discharged(ch, c, start, base, r)
  {
    DischargeCases(ch, start, base, d);
    PreparedOk(ch, start, base, d);
    assert Elems([]) == {};
    if !(d.kind.InReg? && !HasJumps(d)) && Prepared(ch, d).Ok? {
      var (d2, dst, c2) := Prepared(ch, d).value;
      if HasJumps(d2) {
        ResolveShape(c2, d2, dst, d.kind.Jump?, start);
      }
    }
  }

  lemma DischargeYields(vm: Vm, ch: Chunk, start: nat, base: nat, d: Desc, v: Option<Value>, regs: Regs)
    requires WellFormed(ch, start, base, d) && Discharge(ch, d).Ok? && Fits(vm, ch, start, base, d, v, regs)
    ensures var (r, c) := Discharge(ch, d).value; Yields(vm, c, start, base, r, v, regs)
  {
    DischargeCases(ch, start, base, d);
    if d.kind.InReg? && !HasJumps(d) {
      assert Pend(d) == {};
    } else {
      PreparedOk(ch, start, base, d);
      PreparedReady(vm, ch, start, base, d, v, regs);
      var (d2, dst, c2) := Prepared(ch, d).value;
      if HasJumps(d2) {
        ResolveYields(vm, c2, start, base, d2, dst, d.kind.Jump?, v, regs);
      } else {
        assert Pend(d2) == {};
      }
    }
  }
}
