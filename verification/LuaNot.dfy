/** Negation and comparison. */
module LuaNot {
  import opened Prelude
  import opened LuaVm
  import opened LuaCompile
  import opened LuaExec
  import opened LuaDesc
  import opened LuaDischarge
  import opened LuaReg
  import opened LuaLogic

  // ----- codenot -----

  function Negated(v: Option<Value>): Option<Value> {
    match v
    case None => None
    case Some(x) => Some(Bool(!Truthy(x)))
  }

  function Downgraded(tape: seq<Instr>, d: Desc): (r: seq<Instr>)
    ensures |r| == |tape|
  {
    DowngradeTestsets(DowngradeTestsets(tape, d.tl), d.fl)
  }

  lemma DowngradedAt(tape: seq<Instr>, d: Desc, i: nat)
    requires i < |tape|
    ensures Downgraded(tape, d)[i] == if i + 1 in d.tl || i + 1 in d.fl then Lowered(tape[i]) else tape[i]
  {
  }

  /** Once downgraded, no jump of the lists carries a value; everything else is untouched. */
  lemma DowngradedShape(tape: seq<Instr>, start: nat, end: nat, d: Desc)
    requires ListsOk(tape, start, end, d.tl, d.fl)
    ensures var t := Downgraded(tape, d);
      && t[..start] == tape[..start] && ListsOk(t, start, end, d.fl, d.tl)
      && (forall j :: j in Pend(d) ==> 0 < j < |t| && !t[j - 1].TESTSET?)
      && (forall i :: 0 <= i < |tape| && !Placeholder(tape[i]) ==> t[i] == tape[i])
  {
    var t := Downgraded(tape, d);
    forall i | 0 <= i < |tape| ensures t[i] == if i + 1 in d.tl || i + 1 in d.fl then Lowered(tape[i]) else tape[i] {
      DowngradedAt(tape, d, i);
    }
    forall j | j in d.fl || j in d.tl ensures PendingAt(t, start, end, j) && !t[j - 1].TESTSET? {
      assert PendingAt(tape, start, end, j);
    }
    NoDupSwap(d.tl, d.fl);
    forall i | 0 <= i < start ensures t[i] == tape[i] {
      assert i + 1 !in d.tl && i + 1 !in d.fl;
    }
    forall i | start <= i < |t| && Placeholder(t[i]) ensures i + 1 in Elems(d.fl) + Elems(d.tl) {
      assert Placeholder(tape[i]);
    }
  }

  lemma DowngradedRuns(vm: Vm, k: seq<Value>, tape: seq<Instr>, start: nat, end: nat, d: Desc, regs: Regs)
    requires ListsOk(tape, start, end, d.tl, d.fl) && !Exec(vm, k, tape, Pend(d), start, end, regs).Stuck?
    ensures Exec(vm, k, Downgraded(tape, d), Pend(d), start, end, regs) == Exec(vm, k, tape, Pend(d), start, end, regs)
  {
    var t, pend := Downgraded(tape, d), Pend(d);
    forall i | start <= i < end ensures Rewired(tape, t, pend, pend, map[], end, i) {
      DowngradedAt(tape, d, i);
      assert i in pend ==> PendingAt(tape, start, end, i);
      assert i + 1 in pend ==> PendingAt(tape, start, end, i + 1);
    }
    assert end in pend ==> PendingAt(tape, start, end, end);
    ExecPatched(vm, k, tape, t, pend, pend, map[], start, end, end, regs);
  }

  /** The jumps of the negated expression, seen from one run of the original. */
  lemma NegatedJump(tape: seq<Instr>, t: seq<Instr>, d: Desc, kind: Kind, j: nat, r: Regs, v: Option<Value>)
    requires JumpTells(tape, d, j, r, v) && 0 < j <= |t| && !t[j - 1].TESTSET?
    ensures JumpTells(t, Desc(kind, d.fl, d.tl), j, r, Negated(v))
  {
  }

  /** `codenot` after the fall-through value has been negated. */
  lemma CodeNotShape(ch: Chunk, start: nat, end: nat, d: Desc, kind: Kind)
    requires ListsOk(ch.tape, start, end, d.tl, d.fl)
    ensures CodeNot(ch, d, kind) == Ok((Desc(kind, d.fl, d.tl), ch.(tape := Downgraded(ch.tape, d))))
  {
    forall j | j in d.tl || j in d.fl ensures PendingAt(ch.tape, start, end, j) {}
  }

  /** A run up to the negated fall-through value, with the jumps still those of the operand. */
  ghost predicate HalfNegated(vm: Vm, tape: seq<Instr>, t: seq<Instr>, base: nat, d: Desc, kind: Kind, v: Option<Value>,
    regs: Regs, x: Exit)
  {
    match x
    case Raise => v == None
    case Stuck => false
    case Fall(r) => Kept(regs, r, base) && KindTells(vm, t, kind, r, Negated(v))
    case AtJump(j, r) => Kept(regs, r, base) && JumpTells(tape, d, j, r, v)
  }

  lemma NegatedFits(vm: Vm, ch: Chunk, start: nat, base: nat, d: Desc, kind: Kind, v: Option<Value>, regs: Regs,
    end: nat)
    requires ListsOk(ch.tape, start, end, d.tl, d.fl)
    requires HalfNegated(vm, ch.tape, Downgraded(ch.tape, d), base, d, kind, v, regs,
      Exec(vm, ch.consts, ch.tape, Pend(d), start, end, regs))
    requires end == End(ch, d.(kind := kind))
    ensures Fits(vm, ch.(tape := Downgraded(ch.tape, d)), start, base, Desc(kind, d.fl, d.tl), Negated(v), regs)
  {
    assert end == End(ch.(tape := Downgraded(ch.tape, d)), Desc(kind, d.fl, d.tl));
    DowngradedRuns(vm, ch.consts, ch.tape, start, end, d, regs);
    DowngradedShape(ch.tape, start, end, d);
    assert Pend(Desc(kind, d.fl, d.tl)) == Pend(d);
    var x := Exec(vm, ch.consts, ch.tape, Pend(d), start, end, regs);
    if x.AtJump? { NegatedJump(ch.tape, Downgraded(ch.tape, d), d, kind, x.j, x.regs, v); }
  }

  // ----- not, by kind -----

  /** The chunk and kind that `codenot` is given. */
  function BeforeCodeNot(ch: Chunk, d: Desc): Result<(Kind, Chunk)> {
    match d.kind
    case Literal(v) => Ok((Literal(Bool(!Truthy(v))), ch))
    case Jump(Some(j)) =>
      var c :- FlipControl(ch, j);
      Ok((d.kind, c))
    case Jump(None) => Err(Panic)
    case InReg(src) =>
      var c :- FreeReg(ch, src);
      var (dst, c') :- ReserveReg(c);
      Ok((InReg(dst), Emit(c', NOT(dst, src))))
  }

  lemma BeforeShape(ch: Chunk, start: nat, base: nat, d: Desc)
    requires WellFormed(ch, start, base, d)
    ensures BeforeCodeNot(ch, d).Err? ==> BeforeCodeNot(ch, d).fail == Registers
    ensures BeforeCodeNot(ch, d).Ok? ==>
      var (kind, c) := BeforeCodeNot(ch, d).value;
      && Follows(ch, c, start) && c.orphans == ch.orphans && c.consts == ch.consts
      && WellFormed(c, start, base, d.(kind := kind))
  {
    match d.kind {
      case InReg(src) =>
        GoRegShape(ch, start, base, d, src, true);
        ReserveRegOk(ch.(freereg := base));
        if BeforeCodeNot(ch, d).Ok? {
          AppendedShape(ch, BeforeCodeNot(ch, d).value.1, start, d, NOT(base, src));
        }
      case Jump(_) =>
        var c := BeforeCodeNot(ch, d).value.1;
        FlipHeadShape(ch.tape, c.tape, start, d);
      case Literal(_) =>
    }
  }

  lemma NotCases(ch: Chunk, start: nat, base: nat, d: Desc)
    requires WellFormed(ch, start, base, d)
    ensures CompileNot(ch, d) ==
      match BeforeCodeNot(ch, d) {
        case Err(f) => Err(f)
        case Ok((kind, c)) => Ok((Desc(kind, d.fl, d.tl), c.(tape := Downgraded(c.tape, d))))
      }
  {
    BeforeShape(ch, start, base, d);
    if BeforeCodeNot(ch, d).Ok? {
      var (kind, c) := BeforeCodeNot(ch, d).value;
      CodeNotShape(c, start, End(c, d.(kind := kind)), d, kind);
      if d.kind.Literal? && !HasJumps(d) {
        assert Downgraded(c.tape, d) == c.tape;
      }
    }
  }

  lemma NotShape(ch: Chunk, start: nat, base: nat, d: Desc)
    requires WellFormed(ch, start, base, d)
    ensures CompileNot(ch, d).Err? ==> CompileNot(ch, d).fail != Panic
    ensures CompileNot(ch, d).Ok? ==>
      var (d', c') := CompileNot(ch, d).value;
      Follows(ch, c', start) && c'.orphans == ch.orphans && WellFormed(c', start, base, d')
  {
    NotCases(ch, start, base, d);
    BeforeShape(ch, start, base, d);
    if BeforeCodeNot(ch, d).Ok? {
      var (kind, c) := BeforeCodeNot(ch, d).value;
      DowngradedShape(c.tape, start, End(c, d.(kind := kind)), d.(kind := kind));
    }
  }

  lemma NotHalf(vm: Vm, ch: Chunk, start: nat, base: nat, d: Desc, v: Option<Value>, regs: Regs)
    requires WellFormed(ch, start, base, d) && BeforeCodeNot(ch, d).Ok? && Fits(vm, ch, start, base, d, v, regs)
    ensures var (kind, c) := BeforeCodeNot(ch, d).value;
      HalfNegated(vm, c.tape, Downgraded(c.tape, d), base, d, kind, v, regs,
        Exec(vm, c.consts, c.tape, Pend(d), start, End(c, d.(kind := kind)), regs))
  {
    var (kind, c) := BeforeCodeNot(ch, d).value;
    match d.kind {
      case InReg(src) =>
        assert kind == InReg(base) && c.tape == ch.tape + [NOT(base, src)] && c.consts == ch.consts by {
          BeforeShape(ch, start, base, d);
        }
        NotReg(vm, ch, c, start, base, d, src, v, regs);
      case Jump(_) =>
        assert kind == d.kind && c.consts == ch.consts
          && c.tape == ch.tape[|ch.tape| - 2 := Flipped(ch.tape[|ch.tape| - 2])] by { BeforeShape(ch, start, base, d); }
        NotHead(vm, ch, c, start, base, d, v, regs);
      case Literal(_) =>
    }
  }

  lemma NotReg(vm: Vm, ch: Chunk, c: Chunk, start: nat, base: nat, d: Desc, src: nat, v: Option<Value>, regs: Regs)
    requires WellFormed(ch, start, base, d) && d.kind == InReg(src) && Fits(vm, ch, start, base, d, v, regs)
    requires c.tape == ch.tape + [NOT(base, src)] && c.consts == ch.consts
    ensures HalfNegated(vm, c.tape, Downgraded(c.tape, d), base, d, InReg(base), v, regs,
        Exec(vm, c.consts, c.tape, Pend(d), start, |c.tape|, regs))
  {
    AppendedRuns(vm, ch, c, start, d, NOT(base, src), regs);
    AppendedShape(ch, c, start, d, NOT(base, src));
    var x := Exec(vm, ch.consts, ch.tape, Pend(d), start, |ch.tape|, regs);
    if x.AtJump? { CarriesSame(ch.tape, c.tape, d, x.j, x.regs, v); }
  }

  lemma NotHead(vm: Vm, ch: Chunk, c: Chunk, start: nat, base: nat, d: Desc, v: Option<Value>, regs: Regs)
    requires WellFormed(ch, start, base, d) && d.kind.Jump? && Fits(vm, ch, start, base, d, v, regs)
    requires c.tape == ch.tape[|ch.tape| - 2 := Flipped(ch.tape[|ch.tape| - 2])] && c.consts == ch.consts
    ensures HalfNegated(vm, c.tape, Downgraded(c.tape, d), base, d, d.kind, v, regs,
        Exec(vm, c.consts, c.tape, Pend(d), start, |c.tape| - 2, regs))
  {
    var n := |ch.tape| - 2;
    FlipHead(vm, ch, c, start, base, d, v, regs);
    assert Downgraded(c.tape, d)[n] == c.tape[n] by {
      FlipHeadShape(ch.tape, c.tape, start, d);
      DowngradedShape(c.tape, start, n, d);
    }
    var x := Exec(vm, c.consts, c.tape, Pend(d), start, n, regs);
    if x.Fall? { SenseSwaps(vm, c.tape[n], x.regs, v); }
  }

  /** A comparison whose jump is taken when the value is false tells the negated value. */
  lemma SenseSwaps(vm: Vm, i: Instr, r: Regs, v: Option<Value>)
    requires HeadTells(vm, i, r, v, false)
    ensures HeadTells(vm, i, r, Negated(v), true)
  {
  }

  lemma NotFits(vm: Vm, ch: Chunk, start: nat, base: nat, d: Desc, v: Option<Value>, regs: Regs)
    requires WellFormed(ch, start, base, d) && CompileNot(ch, d).Ok? && Fits(vm, ch, start, base, d, v, regs)
    ensures var (d', c') := CompileNot(ch, d).value; Fits(vm, c', start, base, d', Negated(v), regs)
  {
    NotCases(ch, start, base, d);
    var (kind, c) := BeforeCodeNot(ch, d).value;
    assert ListsOk(c.tape, start, End(c, d.(kind := kind)), d.tl, d.fl) by { BeforeShape(ch, start, base, d); }
    NotHalf(vm, ch, start, base, d, v, regs);
    NegatedFits(vm, c, start, base, d, kind, v, regs, End(c, d.(kind := kind)));
  }

  // ----- comparison -----

  /** `CMP` and its jump after both operands, whose temporaries are then free. */
  function Compared(c: Chunk, op: Comparison, l: nat, r: nat, base: nat): Chunk {
    c.(tape := c.tape + [CompareInstr(op, l, r), JMP(0)], freereg := base)
  }

  function ComparedDesc(c: Chunk): Desc {
    Desc(Jump(Some(|c.tape| + 1)), [], [])
  }

  /** The operands are in locals or in the two topmost temporaries, so both can be freed. */
  lemma OperandsFreed(c1: Chunk, c2: Chunk, c3: Chunk, base: nat, l: nat, r: nat)
    requires RegOk(c1, base, Desc(InReg(l), [], [])) && RegOk(c2, c1.freereg, Desc(InReg(r), [], []))
    requires c2.nactvar == c1.nactvar && c3.nactvar == c2.nactvar && c3.freereg == c2.freereg
    ensures FreeRegs(c3, l, r) == Ok(c3.(freereg := base))
    ensures l < c1.freereg
  {
    assert c3 == c3.(freereg := c3.freereg);
  }

  lemma RegsCompared(c1: Chunk, c2: Chunk, op: Comparison, base: nat, l: nat, r: nat)
    requires RegOk(c1, base, Desc(InReg(l), [], [])) && RegOk(c2, c1.freereg, Desc(InReg(r), [], []))
    requires c2.nactvar == c1.nactvar
    ensures CompareRegs(c2, op, l, r) == Ok((ComparedDesc(c2), Compared(c2, op, l, r, base)))
  {
    var c3 := Emit(Emit(c2, CompareInstr(op, l, r)), JMP(0));
    OperandsFreed(c1, c2, c3, base, l, r);
    assert c3.tape == c2.tape + [CompareInstr(op, l, r), JMP(0)];
  }

  lemma ComparedShape(c1: Chunk, c2: Chunk, op: Comparison, start: nat, base: nat, l: nat, r: nat)
    requires start <= |c1.tape| && RegOk(c1, base, Desc(InReg(l), [], [])) && NoStray(c1.tape, start, {})
    requires Follows(c1, c2, |c1.tape|) && RegOk(c2, c1.freereg, Desc(InReg(r), [], []))
    requires NoStray(c2.tape, |c1.tape|, {})
    ensures var c := Compared(c2, op, l, r, base);
      Follows(c2, c, |c2.tape|) && WellFormed(c, start, base, ComparedDesc(c2))
  {
    var c := Compared(c2, op, l, r, base);
    assert Elems([]) + Elems([]) == {};
    forall i | start <= i < |c.tape| ensures !Placeholder(c.tape[i]) {
      if i < |c1.tape| {
        assert c2.tape[i] == c2.tape[..|c1.tape|][i];
        assert c.tape[i] == c1.tape[i];
      } else if i < |c2.tape| {
        assert c.tape[i] == c2.tape[i];
      }
    }
  }

  lemma CompareTells(vm: Vm, op: Comparison, l: nat, r: nat, regs: Regs)
    ensures HeadTells(vm, CompareInstr(op, l, r), regs,
      match Outcome(vm, op, Get(regs, l), Get(regs, r)) { case None => None case Some(b) => Some(Bool(b)) }, true)
  {
  }

  function Combined(vm: Vm, op: Comparison, a: Option<Value>, b: Option<Value>): Option<Value> {
    match (a, b)
    case (Some(x), Some(y)) => (match Outcome(vm, op, x, y) case None => None case Some(c) => Some(Bool(c)))
    case _ => None
  }

  lemma ComparedFits(vm: Vm, c1: Chunk, c2: Chunk, op: Comparison, start: nat, base: nat, l: nat, r: nat,
    a: Option<Value>, b: Option<Value>, regs: Regs)
    requires start <= |c1.tape| && Follows(c1, c2, |c1.tape|) && l < c1.freereg && base <= c1.freereg
    requires Yields(vm, c1, start, base, l, a, regs)
    requires forall q :: Kept(regs, q, base) ==> Yields(vm, c2, |c1.tape|, c1.freereg, r, b, q)
    ensures Fits(vm, Compared(c2, op, l, r, base), start, base, ComparedDesc(c2), Combined(vm, op, a, b), regs)
  {
    var c := Compared(c2, op, l, r, base);
    var mid, end := |c1.tape|, |c2.tape|;
    assert Pend(ComparedDesc(c2)) == {};
    forall i | 0 <= i < mid ensures c.tape[i] == c1.tape[i] {
      assert c2.tape[i] == c2.tape[..mid][i];
    }
    ExecExtended(vm, c1.consts, c.consts, c1.tape, c.tape, {}, {}, start, mid, end, regs);
    var x := Exec(vm, c1.consts, c1.tape, {}, start, mid, regs);
    if x.Fall? {
      var q := x.regs;
      ExecLocal(vm, c2.consts, c.consts, c2.tape, c.tape, {}, {}, mid, end, q);
      var y := Exec(vm, c2.consts, c2.tape, {}, mid, end, q);
      if y.Fall? {
        KeptTrans(regs, q, y.regs, base, c1.freereg);
        assert Get(q, l) == Get(y.regs, l);
        CompareTells(vm, op, l, r, y.regs);
      }
    }
  }
}
