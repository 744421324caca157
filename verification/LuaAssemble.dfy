/** The code of a compiled statement, once assembled, stands where the simulation expects it. */
module LuaAssemble {
  import opened Prelude
  import opened LuaVm
  import opened LuaCompile
  import opened LuaExec
  import opened LuaDesc
  import opened LuaCorrect
  import opened LuaStmt
  import opened LuaPlaced
  import opened LuaLayout

  // ----- assembly -----

  /** What assembling means: each labelled jump has its target, all else is as it was. */
  ghost predicate Aimed(f: Chunk, tape: seq<Instr>) {
    && |tape| == |f.tape|
    && (forall k :: 0 <= k < |f.patches| ==> AimedAt(f, tape, k))
    && (forall i :: 0 <= i < |tape| && Untouched(f, i) ==> tape[i] == f.tape[i])
  }

  ghost predicate AimedAt(f: Chunk, tape: seq<Instr>, k: nat)
    requires k < |f.patches|
  {
    var (i, l) := f.patches[k];
    i < |tape| && l < |f.labels| && tape[i] == JMP(f.labels[l] - (i + 1))
  }

  ghost predicate Untouched(f: Chunk, i: nat) {
    forall k :: 0 <= k < |f.patches| ==> f.patches[k].0 != i
  }

  /** Assembly never panics and does what it should. */
  lemma {:induction false} AssembledAims(f: Chunk, tape: seq<Instr>, n: nat)
    requires Neat(f) && n <= |f.patches| && |tape| == |f.tape|
    requires forall i :: 0 <= i < |tape| ==> tape[i].JMP? == f.tape[i].JMP?
    requires forall k :: 0 <= k < n ==> AimedAt(f, tape, k)
    requires forall i :: 0 <= i < |tape| && Untouched(f, i) ==> tape[i] == f.tape[i]
    ensures Assembled(tape, f.labels, f.patches[n..]).Ok? && Aimed(f, Assembled(tape, f.labels, f.patches[n..]).value)
    decreases |f.patches| - n
  {
    if n < |f.patches| {
      assert PatchOk(f, n);
      var (i, l) := f.patches[n];
      var offset := f.labels[l] as int - (i + 1);
      var t := tape[i := JMP(offset)];
      forall k | 0 <= k <= n ensures AimedAt(f, t, k) {
        if k < n { assert AimedAt(f, tape, k); }
      }
      assert !Untouched(f, i);
      AssembledAims(f, t, n + 1);
      assert f.patches[n..][1..] == f.patches[n + 1..];
    }
  }

  // ----- code that will not change any more -----

  /** The code and labels made between `a` and `b` are those of the finished chunk. */
  ghost predicate Fixed(a: Chunk, b: Chunk, f: Chunk) {
    && |a.tape| <= |b.tape| <= |f.tape| && (forall i :: |a.tape| <= i < |b.tape| ==> f.tape[i] == b.tape[i])
    && b.consts <= f.consts
    && |a.patches| <= |b.patches| && b.patches <= f.patches
    && (forall k :: |b.patches| <= k < |f.patches| ==> f.patches[k].0 < |a.tape| || |b.tape| <= f.patches[k].0)
    && |a.labels| <= |b.labels| <= |f.labels|
    && (forall l :: |a.labels| <= l < |b.labels| ==> f.labels[l] == b.labels[l])
  }

  lemma FixedIn(a: Chunk, b: Chunk, p: Chunk, q: Chunk, f: Chunk)
    requires Fixed(a, b, f) && Fixed(p, q, b) && |a.tape| <= |p.tape| && |a.labels| <= |p.labels|
    ensures Fixed(p, q, f)
  {
    forall k | |q.patches| <= k < |f.patches| ensures f.patches[k].0 < |p.tape| || |q.tape| <= f.patches[k].0 {
      if k < |b.patches| { assert f.patches[k] == b.patches[k]; }
    }
  }

  lemma GrownFixes(p: Chunk, q: Chunk, b: Chunk)
    requires Grown(p, q) && Grown(q, b) && |b.labels| <= LABELS
    ensures Fixed(p, q, b)
  {
  }

  /** Code that is there to stay may be followed by more. */
  lemma FixedThen(a: Chunk, p: Chunk, q: Chunk, b: Chunk, f: Chunk)
    requires Fixed(a, b, f) && Grown(a, p) && Grown(p, q) && Grown(q, b) && |b.labels| <= LABELS
    ensures Fixed(p, q, f)
  {
    GrownFixes(p, q, b);
    FixedIn(a, b, p, q, f);
  }

  // ----- conditions -----

  /** The assembled code of a condition. */
  ghost predicate CondPatched(tape: seq<Instr>, t: seq<Instr>, start: nat, list: seq<nat>, no: nat) {
    |tape| <= |t| && forall i :: start <= i < |tape| ==> t[i] == PatchedAt(tape, list, Some(no), i)
  }

  lemma {:induction false} CondRuns(w: Code, k: seq<Value>, tape: seq<Instr>, start: nat, list: seq<nat>, no: nat,
    pc: nat, regs: Regs)
    returns (m: nat)
    requires ListsOk(tape, start, |tape|, [], list) && CondPatched(tape, w.tape, start, list, no) && k <= w.k
    requires start <= pc && !Exec(w.vm, k, tape, Elems(list), pc, |tape|, regs).Stuck?
    ensures match Exec(w.vm, k, tape, Elems(list), pc, |tape|, regs)
            case Fall(r) => Go(w, m, pc, regs) == Next(|tape|, r)
            case AtJump(j, r) => Go(w, m, pc, regs) == Next(no, r) && m >= 1
            case Raise => Go(w, m, pc, regs) == Raised
            case Stuck => false
    decreases if pc < |tape| then |tape| - pc else 0
  {
    if pc == |tape| {
      m := 0;
    } else {
      var pend := Elems(list);
      var x := MoveFrom(w.vm, k, tape, pend, pc, regs);
      CondStep(w, k, tape, start, list, no, pc, regs);
      match x {
        case Goto(to, r) =>
          var n := CondRuns(w, k, tape, start, list, no, to, r);
          m := n + 1;
        case Out(AtJump(j, r)) =>
          assert Go(w, 0, no, r) == Next(no, r);
          assert Go(w, 1, j, r) == Next(no, r);
          m := 2;
        case Out(Raise) => m := 1;
      }
    }
  }

  /** One move of a pending run is one step of the machine, or two to go where the list was sent. */
  lemma CondStep(w: Code, k: seq<Value>, tape: seq<Instr>, start: nat, list: seq<nat>, no: nat, pc: nat, regs: Regs)
    requires ListsOk(tape, start, |tape|, [], list) && CondPatched(tape, w.tape, start, list, no) && k <= w.k
    requires start <= pc < |tape|
    ensures match MoveFrom(w.vm, k, tape, Elems(list), pc, regs)
            case Goto(to, r) => Step(w.vm, w.k, w.tape[pc], pc, regs) == Next(to, r)
            case Out(AtJump(j, r)) =>
              Step(w.vm, w.k, w.tape[pc], pc, regs) == Next(j, r) && j < |tape| && w.tape[j] == JMP(no - (j + 1))
            case Out(Raise) => Step(w.vm, w.k, w.tape[pc], pc, regs) == Raised
            case Out(_) => true
  {
    assert w.tape[pc] == PatchedAt(tape, list, Some(no), pc);
    assert pc in list ==> PendingAt(tape, start, |tape|, pc);
    assert pc + 1 in list ==> PendingAt(tape, start, |tape|, pc + 1);
    if pc + 1 in list { assert w.tape[pc + 1] == PatchedAt(tape, list, Some(no), pc + 1); }
  }

  /** A compiled condition decides, wherever its jumps have been sent. */
  lemma CondPlaced(w: Code, ch: Chunk, cond: Expr, no: nat)
    requires Room(ch) && WellScoped(cond, ch.nactvar) && CompileBranch(ch, cond).Ok? && w.n == ch.nactvar
    requires var (list, c) := CompileBranch(ch, cond).value;
      !c.orphans && c.consts <= w.k && CondPatched(c.tape, w.tape, |ch.tape|, list, no)
    ensures CondAt(w, cond, |ch.tape|, |CompileBranch(ch, cond).value.1.tape|, no)
  {
    var (list, c) := CompileBranch(ch, cond).value;
    forall regs ensures DecidesFrom(w, cond, |c.tape|, no, |ch.tape|, regs) {
      CondDecides(w, ch, cond, no, regs);
    }
  }

  lemma CondDecides(w: Code, ch: Chunk, cond: Expr, no: nat, regs: Regs)
    requires Room(ch) && WellScoped(cond, ch.nactvar) && CompileBranch(ch, cond).Ok? && w.n == ch.nactvar
    requires var (list, c) := CompileBranch(ch, cond).value;
      !c.orphans && c.consts <= w.k && CondPatched(c.tape, w.tape, |ch.tape|, list, no)
    ensures DecidesFrom(w, cond, |CompileBranch(ch, cond).value.1.tape|, no, |ch.tape|, regs)
  {
    var (list, c) := CompileBranch(ch, cond).value;
    BranchShape(ch, cond);
    BranchGoes(w.vm, ch, cond, regs);
    assert Elems([]) + Elems(list) == Elems(list);
    var x := Exec(w.vm, c.consts, c.tape, Elems(list), |ch.tape|, |c.tape|, regs);
    var m := CondRuns(w, c.consts, c.tape, |ch.tape|, list, no, |ch.tape|, regs);
    var q := match x { case Fall(r) => r case AtJump(_, r) => r case _ => regs };
    assert Decides(w, cond, |c.tape|, no, |ch.tape|, regs, m, q);
  }
}
