/** The flag of the compiler, read off the source: expressions, conditions and statements. */
module LuaExact {
  import opened LuaVm
  import opened LuaCompile
  import opened LuaDesc
  import opened LuaDischarge
  import opened LuaReg
  import opened LuaLogic
  import opened LuaNot
  import opened LuaCorrect
  import opened LuaOrphans
  import opened LuaShape

  // ----- discharge keeps jumps inside -----

  /** No jump goes past position `n`. */
  predicate BoundedBy(tape: seq<Instr>, n: nat) {
    forall i :: 0 <= i < |tape| && tape[i].JMP? ==> i + 1 + tape[i].offset <= n
  }

  lemma {:induction false} PatchListBounded(tape: seq<Instr>, list: seq<nat>, vtarget: int, reg: nat, dtarget: int,
    n: nat)
    requires BoundedBy(tape, n) && vtarget <= n && dtarget <= n
    ensures BoundedBy(PatchListAux(tape, list, vtarget, reg, dtarget), n)
    decreases |list|
  {
    if list != [] {
      PatchOneBounded(tape, list[0], vtarget, reg, dtarget, n);
      PatchListBounded(PatchOne(tape, list[0], vtarget, reg, dtarget), list[1..], vtarget, reg, dtarget, n);
    }
  }

  lemma PatchOneBounded(tape: seq<Instr>, j: nat, vtarget: int, reg: nat, dtarget: int, n: nat)
    requires BoundedBy(tape, n) && vtarget <= n && dtarget <= n
    ensures BoundedBy(PatchOne(tape, j, vtarget, reg, dtarget), n)
  {
    var t := PatchOne(tape, j, vtarget, reg, dtarget);
    forall i | 0 <= i < |t| && t[i].JMP? ensures i + 1 + t[i].offset <= n {
      if i != j { assert tape[i].JMP? && t[i] == tape[i]; }
    }
  }

  lemma PatchedBounded(tape: seq<Instr>, d: Desc, final: int, dst: nat, ft: int, tt: int, n: nat)
    requires BoundedBy(tape, n) && final <= n && ft <= n && tt <= n
    ensures BoundedBy(PatchedBoth(tape, d, final, dst, ft, tt), n)
  {
    PatchListBounded(tape, d.fl, final, dst, ft, n);
    PatchListBounded(PatchListAux(tape, d.fl, final, dst, ft), d.tl, final, dst, tt, n);
  }

  lemma TailBounded(ch: Chunk, d: Desc, dst: nat, isJump: bool)
    requires Bounded(ch.tape) && ResolveTail(ch, d, dst, isJump).Ok?
    ensures var c := ResolveTail(ch, d, dst, isJump).value;
      Bounded(c.tape) && c.orphans == ch.orphans && |ch.tape| <= |c.tape|
  {
    var (idx, c) := AllocConstant(ch, Bool(true)).value;
    var ft := if isJump then |ch.tape| else |ch.tape| + 1;
    var t := ch.tape + TailCode(dst, isJump, idx);
    assert c.orphans == ch.orphans;
    assert |t| == ft + 2 && BoundedBy(t, ft + 2);
    PatchedBounded(t, d, ft + 2, dst, ft, ft + 1, ft + 2);
  }

  lemma ResolveBounded(ch: Chunk, d: Desc, dst: nat, isJump: bool)
    requires Bounded(ch.tape) && ResolveLists(ch, d, dst, isJump).Ok?
    ensures var c := ResolveLists(ch, d, dst, isJump).value;
      Bounded(c.tape) && c.orphans == ch.orphans && |ch.tape| <= |c.tape|
  {
    var n := |ch.tape|;
    if !NeedValue(ch.tape, d.fl) && !NeedValue(ch.tape, d.tl) {
      PatchedBounded(ch.tape, d, n, dst, 0, 0, n);
    } else {
      TailBounded(ch, d, dst, isJump);
    }
  }

  lemma DischargeBounded(ch: Chunk, start: nat, base: nat, d: Desc)
    requires WellFormed(ch, start, base, d) && Bounded(ch.tape) && Discharge(ch, d).Ok?
    ensures var c := Discharge(ch, d).value.1;
      Bounded(c.tape) && c.orphans == ch.orphans && |ch.tape| <= |c.tape| && (d.kind.Literal? ==> |ch.tape| < |c.tape|)
  {
    DischargeCases(ch, start, base, d);
    if !(d.kind.InReg? && !HasJumps(d)) {
      var (d2, dst, c2) := Prepared(ch, d).value;
      assert Bounded(c2.tape) && c2.orphans == ch.orphans && |ch.tape| <= |c2.tape|
        && (d.kind.Literal? ==> |ch.tape| < |c2.tape|) by {
        PreparedBounded(ch, d);
      }
      if HasJumps(d2) { ResolveBounded(c2, d2, dst, d.kind.Jump?); }
    }
  }

  lemma PreparedBounded(ch: Chunk, d: Desc)
    requires Bounded(ch.tape) && Prepared(ch, d).Ok?
    ensures var c := Prepared(ch, d).value.2;
      Bounded(c.tape) && c.orphans == ch.orphans && |ch.tape| <= |c.tape| && (d.kind.Literal? ==> |ch.tape| < |c.tape|)
  {
  }

  // ----- going by truth -----

  ghost predicate ShapedDesc(c: Chunk, start: nat, d: Desc, s: Shape) {
    Shaped(c.tape, start, |c.tape|, d.tl, d.fl, s) && EndsAs(d.kind, s.ending)
  }

  /** A test and its jump at the end become the last pair. */
  lemma TestShapes(tape: seq<Instr>, tape': seq<Instr>, start: nat, want: bool, stay: seq<nat>, leave: seq<nat>, r: nat,
    s: Shape)
    requires ShapedBy(tape, start, want, stay, leave, s) && Bounded(tape) && start <= |tape|
    requires tape' == tape + [TESTSET(NO_REG, r, want), JMP(0)]
    requires forall j :: j in stay || j in leave ==> j < |tape|
    ensures Bounded(tape')
    ensures ShapedBy(tape', start, want, stay, leave + [|tape| + 1], s.(tail := [Pair(!want, false)] + s.tail))
  {
    TestPairs(tape, tape', start, want, stay, leave, r, s.tail);
    TestFloor(tape, tape', start, want, stay, leave, r, s);
  }

  lemma TestPairs(tape: seq<Instr>, tape': seq<Instr>, start: nat, want: bool, stay: seq<nat>, leave: seq<nat>, r: nat,
    tail: seq<Pair>)
    requires PairsAre(tape, start, |tape|, Tl(want, stay, leave), Fl(want, stay, leave), tail) && Bounded(tape)
    requires start <= |tape|
    requires tape' == tape + [TESTSET(NO_REG, r, want), JMP(0)]
    ensures Bounded(tape')
    ensures var l := leave + [|tape| + 1];
      PairsAre(tape', start, |tape'|, Tl(want, stay, l), Fl(want, stay, l), [Pair(!want, false)] + tail)
  {
    var n, t, l := |tape|, [Pair(!want, false)] + tail, leave + [|tape| + 1];
    assert tape'[n + 1] == JMP(0);
    forall i | 0 <= i < |t| ensures PairIs(tape', start, Tl(want, stay, l), Fl(want, stay, l), n + 1 - 2 * i, t[i]) {
      if i > 0 {
        assert PairIs(tape, start, Tl(want, stay, leave), Fl(want, stay, leave), n - 1 - 2 * (i - 1), tail[i - 1]);
        LongerPair(tape, tape', start, want, stay, leave, n + 1, n + 1 - 2 * i, t[i]);
      }
    }
  }

  lemma LongerPair(tape: seq<Instr>, tape': seq<Instr>, start: nat, want: bool, stay: seq<nat>, leave: seq<nat>, x: nat,
    j: int, p: Pair)
    requires PairIs(tape, start, Tl(want, stay, leave), Fl(want, stay, leave), j, p) && tape <= tape'
    ensures PairIs(tape', start, Tl(want, stay, leave + [x]), Fl(want, stay, leave + [x]), j, p)
  {
    SamePast(tape, tape', j - 1);
  }

  lemma TestFloor(tape: seq<Instr>, tape': seq<Instr>, start: nat, want: bool, stay: seq<nat>, leave: seq<nat>, r: nat,
    s: Shape)
    requires ShapedBy(tape, start, want, stay, leave, s)
    requires tape' == tape + [TESTSET(NO_REG, r, want), JMP(0)]
    ensures var b, l := |tape| - 2 * |s.tail|, leave + [|tape| + 1];
      && FloorIs(tape', start, b, Tl(want, stay, l), Fl(want, stay, l), s.open)
      && (Below(l, b) <==> Below(leave, b))
  {
    var b := |tape| - 2 * |s.tail|;
    if Below(leave, b) {
      var j :| j in leave && j < b;
      assert j in leave + [|tape| + 1];
    }
  }

  lemma WaitBelow(tape: seq<Instr>, start: nat, end: nat, a: seq<nat>, b: seq<nat>)
    requires ListsOk(tape, start, end, a, b)
    ensures forall j :: j in a || j in b ==> start < j < end
  {
    forall j | j in a || j in b ensures start < j < end { assert PendingAt(tape, start, end, j); }
  }

  lemma GoRegIs(ch: Chunk, start: nat, base: nat, d: Desc, r: nat, want: bool)
    requires WellFormed(ch, start, base, d) && d.kind == InReg(r)
    ensures var n := |ch.tape|;
      GoIf(ch, d, want) == Ok((if want then d.(fl := d.fl + [n + 1]) else d.(tl := d.tl + [n + 1]),
        ch.(tape := ch.tape + [TESTSET(NO_REG, r, want), JMP(0)], freereg := base)))
  {
    GoRegShape(ch, start, base, d, r, want);
  }

  lemma RegTested(tape: seq<Instr>, t: seq<Instr>, start: nat, d: Desc, d1: Desc, r: nat, want: bool, s: Shape)
    requires ListsOk(tape, start, |tape|, d.tl, d.fl) && Bounded(tape) && Shaped(tape, start, |tape|, d.tl, d.fl, s)
    requires t == tape + [TESTSET(NO_REG, r, want), JMP(0)]
    requires d1 == if want then d.(fl := d.fl + [|tape| + 1]) else d.(tl := d.tl + [|tape| + 1])
    ensures Bounded(t)
    ensures ShapedBy(t, start, want, Stay(d1, want), Leave(d1, want), s.(tail := [Pair(!want, false)] + s.tail))
  {
    WaitBelow(tape, start, |tape|, d.tl, d.fl);
    TestShapes(tape, t, start, want, Stay(d, want), Leave(d, want), r, s);
  }

  lemma GoRegShapes(ch: Chunk, start: nat, base: nat, d: Desc, r: nat, want: bool, s: Shape)
    requires WellFormed(ch, start, base, d) && d.kind == InReg(r) && Bounded(ch.tape) && ShapedDesc(ch, start, d, s)
    ensures var (d1, c1) := GoIf(ch, d, want).value;
      GoIf(ch, d, want).Ok? && Bounded(c1.tape)
      && ShapedBy(c1.tape, start, want, Stay(d1, want), Leave(d1, want), s.(tail := [Pair(!want, false)] + s.tail))
  {
    var n, t := |ch.tape|, ch.tape + [TESTSET(NO_REG, r, want), JMP(0)];
    var d1 := if want then d.(fl := d.fl + [n + 1]) else d.(tl := d.tl + [n + 1]);
    GoRegIs(ch, start, base, d, r, want);
    RegTested(ch.tape, t, start, d, d1, r, want, s);
  }

  /** A literal that does not fall through is discharged; only its own test is left at the end. */
  lemma GoLiteralShapes(ch: Chunk, start: nat, base: nat, d: Desc, want: bool, s: Shape)
    requires WellFormed(ch, start, base, d) && Bounded(ch.tape) && ShapedDesc(ch, start, d, s)
    requires d.kind.Literal? && Truthy(d.kind.v) != want && GoIf(ch, d, want).Ok?
    ensures var (d1, c1) := GoIf(ch, d, want).value;
      Bounded(c1.tape) && ShapedBy(c1.tape, start, want, Stay(d1, want), Leave(d1, want), Tested(s, want))
  {
    var (r, c) := Discharge(ch, d).value;
    var d0 := Desc(InReg(r), [], []);
    DischargeOk(ch, start, base, d);
    DischargeBounded(ch, start, base, d);
    var s0 := Shape(OnRegister, [], false, false, false);
    assert Elems([]) + Elems([]) == {};
    assert WellFormed(c, start, base, d0);
    assert ShapedDesc(c, start, d0, s0);
    GoRegShapes(c, start, base, d0, r, want, s0);
    assert [Pair(!want, false)] + [] == [Pair(!want, false)];
  }

  lemma HeadTested(ch: Chunk, start: nat, d: Desc, want: bool, s: Shape)
    requires |ch.tape| >= 2 && start <= |ch.tape| - 2 && ListsOk(ch.tape, start, |ch.tape| - 2, d.tl, d.fl)
    requires IsControl(ch.tape[|ch.tape| - 2]) && Bounded(ch.tape) && Shaped(ch.tape, start, |ch.tape|, d.tl, d.fl, s)
    requires ch.tape[|ch.tape| - 2].CMP? && s.ending.OnComparison? && s.tail == [] && !s.open
    ensures var d1, c1 := HeadDesc(d, want, |ch.tape| - 1), HeadChunk(ch, want);
      Bounded(c1.tape) && ShapedBy(c1.tape, start, want, Stay(d1, want), Leave(d1, want), Tested(s, want))
  {
    var n := |ch.tape|;
    WaitBelow(ch.tape, start, n - 2, d.tl, d.fl);
    var d1, c1 := HeadDesc(d, want, n - 1), HeadChunk(ch, want);
    forall i | 0 <= i < n && c1.tape[i].JMP? ensures c1.tape[i] == ch.tape[i] {}
    assert n - 1 in Leave(d1, want);
    assert Below(d1.tl, n) <==> Below(d.tl, n) || !want by { HeadBelow(d.tl, n, !want); }
    assert Below(d1.fl, n) <==> Below(d.fl, n) || want by { HeadBelow(d.fl, n, want); }
  }

  lemma GoHeadShapes(ch: Chunk, start: nat, base: nat, d: Desc, want: bool, s: Shape)
    requires WellFormed(ch, start, base, d) && d.kind.Jump? && Bounded(ch.tape) && ShapedDesc(ch, start, d, s)
    requires s.tail == [] && !s.open
    ensures var (d1, c1) := GoIf(ch, d, want).value;
      GoIf(ch, d, want).Ok? && Bounded(c1.tape)
      && ShapedBy(c1.tape, start, want, Stay(d1, want), Leave(d1, want), Tested(s, want))
  {
    GoHeadIs(ch, start, d, want);
    HeadTested(ch, start, d, want, s);
  }

  lemma HeadBelow(list: seq<nat>, n: nat, added: bool)
    requires n > 0
    ensures Below(if added then list + [n - 1] else list, n) <==> Below(list, n) || added
  {
    if added {
      assert n - 1 in list + [n - 1];
    }
  }

  /** A comparison ends the code, and no pair stands behind it. */
  predicate Regular(s: Shape) {
    s.ending.OnComparison? ==> s.tail == [] && !s.open
  }

  lemma GoIfShapes(ch: Chunk, start: nat, base: nat, d: Desc, want: bool, s: Shape)
    requires WellFormed(ch, start, base, d) && Bounded(ch.tape) && ShapedDesc(ch, start, d, s) && Regular(s)
    requires GoIf(ch, d, want).Ok?
    ensures var (d1, c1) := GoIf(ch, d, want).value;
      Bounded(c1.tape) && ShapedBy(c1.tape, start, want, Stay(d1, want), Leave(d1, want), Tested(s, want))
  {
    match d.kind {
      case InReg(r) => GoRegShapes(ch, start, base, d, r, want, s);
      case Jump(_) => GoHeadShapes(ch, start, base, d, want, s);
      case Literal(v) => if Truthy(v) != want { GoLiteralShapes(ch, start, base, d, want, s); }
    }
  }

  /** A left operand or condition: the flag, and the shape afterwards. */
  lemma LeftShapes(ch: Chunk, start: nat, base: nat, d: Desc, want: bool, s: Shape)
    requires WellFormed(ch, start, base, d) && ShapedDesc(ch, start, d, s) && Regular(s) && Left(ch, d, want).Ok?
    requires Bounded(ch.tape) && Labelled(ch, start) && !ch.orphans
    ensures var (d1, c2) := Left(ch, d, want).value;
      && (c2.orphans <==> LeftOrphans(s, want))
      && (!c2.orphans ==> Bounded(c2.tape) && ShapedBy(c2.tape, start, want, [], Leave(d1, want), LeftOf(s, want)))
  {
    var (d1, c1) := GoIf(ch, d, want).value;
    GoIfShape(ch, start, base, d, want);
    GoIfShapes(ch, start, base, d, want, s);
    PatchShapes(c1, start, want, Stay(d1, want), Leave(d1, want), Tested(s, want));
  }

  // ----- the right operand -----

  lemma JoinedPairs(tape: seq<Instr>, tape': seq<Instr>, start: nat, want: bool, leave: seq<nat>, d: Desc, x: Shape,
    y: Shape)
    requires tape <= tape' && ShapedBy(tape, start, want, [], leave, x)
    requires Shaped(tape', |tape|, |tape'|, d.tl, d.fl, y) && start <= |tape|
    ensures var e, s := Joined(d, want, leave), Followed(x, y);
      PairsAre(tape', start, |tape'|, e.tl, e.fl, s.tail)
  {
    var n, e, s := |tape'|, Joined(d, want, leave), Followed(x, y);
    forall i | 0 <= i < |s.tail| ensures PairIs(tape', start, e.tl, e.fl, n - 1 - 2 * i, s.tail[i]) {
      if i < |y.tail| {
        assert PairIs(tape', |tape|, d.tl, d.fl, n - 1 - 2 * i, y.tail[i]);
      } else {
        var k := i - |y.tail|;
        assert PairIs(tape, start, Tl(want, [], leave), Fl(want, [], leave), |tape| - 1 - 2 * k, x.tail[k]);
        SamePast(tape, tape', |tape| - 2 - 2 * k);
      }
    }
  }

  lemma JoinedFloor(tape: seq<Instr>, tape': seq<Instr>, start: nat, want: bool, leave: seq<nat>, d: Desc, x: Shape,
    y: Shape)
    requires tape <= tape' && ShapedBy(tape, start, want, [], leave, x)
    requires Shaped(tape', |tape|, |tape'|, d.tl, d.fl, y) && start <= |tape|
    requires (forall j :: j in leave ==> j < |tape|) && (forall j :: j in d.tl || j in d.fl ==> |tape| < j)
    ensures var e, s := Joined(d, want, leave), Followed(x, y);
      FloorIs(tape', start, |tape'| - 2 * |s.tail|, e.tl, e.fl, s.open)
  {
    var s := Followed(x, y);
    var b := |tape'| - 2 * |s.tail|;
    if y.open && !x.open && b >= 2 {
      assert tape'[b - 2] == tape[b - 2];
    }
  }

  /** Whether jumps of `x` wait below the floor of the whole. */
  lemma LeaveBelow(tape: seq<Instr>, start: nat, want: bool, leave: seq<nat>, inTl: bool, x: Shape, b: int)
    requires ListsOk(tape, start, |tape|, [], leave) && ShapedBy(tape, start, want, [], leave, x)
    requires b == |tape| - 2 * |x.tail| || |tape| <= b
    ensures inTl == want ==> !DeepIn(x, inTl) && !HasPair(x.tail, inTl)
    ensures inTl != want ==> (Below(leave, b) <==> DeepIn(x, inTl) || (|tape| <= b && HasPair(x.tail, inTl)))
  {
    ListsWait(tape, start, [], leave);
    AimsIff(tape, start, want, [], leave, x);
    AimsIff(tape, start, !want, leave, [], x);
    if |tape| <= b && leave != [] {
      assert leave[0] in leave && PendingAt(tape, start, |tape|, leave[0]);
    }
  }

  lemma BelowJoined(own: seq<nat>, leave: seq<nat>, b: int)
    ensures Below(own + leave, b) <==> Below(own, b) || Below(leave, b)
  {
    if Below(own, b) {
      var j :| j in own && j < b;
      assert j in own + leave;
    }
    if Below(leave, b) {
      var j :| j in leave && j < b;
      assert j in own + leave;
    }
  }

  lemma JoinedDeep(tape: seq<Instr>, tape': seq<Instr>, start: nat, want: bool, leave: seq<nat>, d: Desc, x: Shape,
    y: Shape)
    requires tape <= tape' && ListsOk(tape, start, |tape|, [], leave) && ShapedBy(tape, start, want, [], leave, x)
    requires Shaped(tape', |tape|, |tape'|, d.tl, d.fl, y)
    requires forall j :: j in d.tl || j in d.fl ==> |tape| < j
    ensures var e, s := Joined(d, want, leave), Followed(x, y);
      var b := |tape'| - 2 * |s.tail|;
      (s.deepTl <==> Below(e.tl, b)) && (s.deepFl <==> Below(e.fl, b))
  {
    var s := Followed(x, y);
    var b := |tape'| - 2 * |s.tail|;
    LeaveBelow(tape, start, want, leave, true, x, b);
    LeaveBelow(tape, start, want, leave, false, x, b);
    BelowJoined(if want then d.fl else d.tl, leave, b);
  }

  lemma JoinedShapes(tape: seq<Instr>, c: Chunk, start: nat, want: bool, leave: seq<nat>, d: Desc, x: Shape, y: Shape)
    requires tape <= c.tape && start <= |tape| && ListsOk(tape, start, |tape|, [], leave)
    requires ShapedBy(tape, start, want, [], leave, x)
    requires ShapedDesc(c, |tape|, d, y) && forall j :: j in d.tl || j in d.fl ==> |tape| < j
    ensures ShapedDesc(c, start, Joined(d, want, leave), Followed(x, y))
  {
    WaitBelow(tape, start, |tape|, [], leave);
    JoinedPairs(tape, c.tape, start, want, leave, d, x, y);
    JoinedFloor(tape, c.tape, start, want, leave, d, x, y);
    JoinedDeep(tape, c.tape, start, want, leave, d, x, y);
  }

  // ----- not -----

  /** The same jumps, and the same controls as far as elision is concerned. */
  ghost predicate Alike(tape: seq<Instr>, tape': seq<Instr>) {
    |tape'| == |tape| && forall i :: 0 <= i < |tape| ==> AlikeAt(tape[i], tape'[i])
  }

  predicate AlikeAt(i: Instr, i': Instr) {
    i'.JMP? == i.JMP? && (i.JMP? ==> i' == i) && Elidable(i') == Elidable(i)
  }

  lemma DowngradedAlike(tape: seq<Instr>, d: Desc)
    ensures Alike(tape, Downgraded(tape, d))
  {
    forall i | 0 <= i < |tape| ensures AlikeAt(tape[i], Downgraded(tape, d)[i]) { DowngradedAt(tape, d, i); }
  }

  lemma AlikeBounded(tape: seq<Instr>, tape': seq<Instr>, cut: int)
    requires Alike(tape, tape')
    ensures Bounded(tape) ==> Bounded(tape')
    ensures cut <= |tape| ==> AimedPast(tape', cut) == AimedPast(tape, cut)
  {
    forall i | 0 <= i < |tape| ensures AlikeAt(tape[i], tape'[i]) {}
    if cut <= |tape| && AimedPast(tape, cut) {
      var i :| 0 <= i < cut && tape[i].JMP? && i + 1 + tape[i].offset > cut;
      assert AlikeAt(tape[i], tape'[i]);
    }
  }

  lemma SwappedHas(tail: seq<Pair>, inTl: bool)
    ensures HasPair(Swapped(tail), inTl) == HasPair(tail, !inTl)
    decreases |tail|
  {
    if tail != [] {
      assert Swapped(tail)[1..] == Swapped(tail[1..]);
      SwappedHas(tail[1..], inTl);
    }
  }

  /** Swapping the lists swaps the pairs. */
  lemma SwapShapes(tape: seq<Instr>, tape': seq<Instr>, start: nat, tl: seq<nat>, fl: seq<nat>, s: Shape, e: Ending)
    requires Alike(tape, tape') && Shaped(tape, start, |tape|, tl, fl, s)
    ensures Shaped(tape', start, |tape'|, fl, tl, Shape(e, Swapped(s.tail), s.open, s.deepFl, s.deepTl))
  {
    var n, b := |tape|, |tape| - 2 * |s.tail|;
    forall i | 0 <= i < |s.tail| ensures PairIs(tape', start, fl, tl, n - 1 - 2 * i, Swapped(s.tail)[i]) {
      var j := n - 1 - 2 * i;
      assert PairIs(tape, start, tl, fl, j, s.tail[i]);
      assert AlikeAt(tape[j - 1], tape'[j - 1]);
      AlikeBounded(tape, tape', j - 1);
    }
    if !s.open && b >= 2 { assert AlikeAt(tape[b - 2], tape'[b - 2]); }
  }

  lemma AlikeTrans(a: seq<Instr>, b: seq<Instr>, c: seq<Instr>)
    requires Alike(a, b) && Alike(b, c)
    ensures Alike(a, c)
  {
    forall i | 0 <= i < |a| ensures AlikeAt(a[i], c[i]) { assert AlikeAt(a[i], b[i]) && AlikeAt(b[i], c[i]); }
  }

  lemma NotRegShapes(tape: seq<Instr>, tape': seq<Instr>, start: nat, d: Desc, i: Instr, s: Shape)
    requires Shaped(tape, start, |tape|, d.tl, d.fl, s) && ListsOk(tape, start, |tape|, d.tl, d.fl)
    requires Bounded(tape) && i.NOT? && tape' == Downgraded(tape + [i], d) && s.ending.OnRegister?
    ensures Bounded(tape') && Shaped(tape', start, |tape'|, d.fl, d.tl, Inverted(s))
  {
    var n := |tape|;
    assert Bounded(tape + [i]) by {
      forall k | 0 <= k < n && tape[k].JMP? ensures (tape + [i])[k] == tape[k] {}
    }
    DowngradedAlike(tape + [i], d);
    AlikeBounded(tape + [i], tape', 0);
    ListsWait(tape, start, d.tl, d.fl);
    WaitBelow(tape, start, n, d.tl, d.fl);
    AimsIff(tape, start, true, d.tl, d.fl, s);
    AimsIff(tape, start, false, d.fl, d.tl, s);
    AllBelow(d.tl, n + 1);
    AllBelow(d.fl, n + 1);
  }

  lemma AllBelow(list: seq<nat>, n: nat)
    requires forall j :: j in list ==> j < n
    ensures Below(list, n) <==> list != []
  {
    if list != [] { assert list[0] in list; }
  }

  lemma NotShapes(ch: Chunk, start: nat, base: nat, d: Desc, s: Shape)
    requires WellFormed(ch, start, base, d) && Bounded(ch.tape) && ShapedDesc(ch, start, d, s) && Regular(s)
    requires CompileNot(ch, d).Ok?
    ensures var (d', c') := CompileNot(ch, d).value;
      c'.orphans == ch.orphans && Bounded(c'.tape) && ShapedDesc(c', start, d', Inverted(s))
  {
    NotCases(ch, start, base, d);
    var c := BeforeCodeNot(ch, d).value.1;
    match d.kind {
      case InReg(src) =>
        assert c.tape == ch.tape + [NOT(base, src)] && c.orphans == ch.orphans by { BeforeShape(ch, start, base, d); }
        NotRegShapes(ch.tape, Downgraded(c.tape, d), start, d, NOT(base, src), s);
      case Jump(_) =>
        assert Alike(ch.tape, c.tape) by {
          forall i | 0 <= i < |ch.tape| ensures AlikeAt(ch.tape[i], c.tape[i]) {}
        }
        NotListShapes(ch.tape, c.tape, start, d, s, OnComparison);
      case Literal(v) =>
        assert Alike(ch.tape, c.tape) by {
          forall i | 0 <= i < |ch.tape| ensures AlikeAt(ch.tape[i], c.tape[i]) {}
        }
        NotListShapes(ch.tape, c.tape, start, d, s, OnLiteral(Bool(!Truthy(v))));
    }
  }

  lemma NotListShapes(tape: seq<Instr>, tape': seq<Instr>, start: nat, d: Desc, s: Shape, e: Ending)
    requires Alike(tape, tape') && Bounded(tape) && Shaped(tape, start, |tape|, d.tl, d.fl, s)
    ensures var t := Downgraded(tape', d);
      Bounded(t) && Shaped(t, start, |t|, d.fl, d.tl, Shape(e, Swapped(s.tail), s.open, s.deepFl, s.deepTl))
  {
    var t := Downgraded(tape', d);
    DowngradedAlike(tape', d);
    AlikeTrans(tape, tape', t);
    AlikeBounded(tape, t, 0);
    SwapShapes(tape, t, start, d.tl, d.fl, s, e);
  }

  // ----- expressions -----

  lemma ShapeIsRegular(e: Expr)
    ensures Regular(EndShape(e))
  {
    match e {
      case And(x, y) => ShapeIsRegular(y);
      case Or(x, y) => ShapeIsRegular(y);
      case Not(x) => ShapeIsRegular(x);
      case Paren(x) => ShapeIsRegular(x);
      case _ =>
    }
  }

  lemma StaysLabelled(a: Chunk, b: Chunk, start: nat)
    requires Labelled(a, start) && b.patches == a.patches && b.labels == a.labels && start <= |b.tape|
    ensures Labelled(b, start) && Labelled(b, |b.tape|)
  {
  }

  /** The outcome of an expression compiled into clean code. */
  ghost predicate Flagged(c: Chunk, start: nat, d: Desc, e: Expr) {
    && (c.orphans <==> Orphaning(e))
    && (!c.orphans ==> Clean(c) && Labelled(c, start) && ShapedDesc(c, start, d, EndShape(e)))
  }

  lemma {:induction false} ExprFlag(ch: Chunk, e: Expr)
    requires Room(ch) && WellScoped(e, ch.nactvar) && CompileExpr(ch, e).Ok? && Clean(ch)
    ensures var (d, c) := CompileExpr(ch, e).value; Flagged(c, |ch.tape|, d, e)
    decreases e, 1
  {
    var start, base := |ch.tape|, ch.freereg;
    match e {
      case Local(_) =>
      case Const(_) =>
      case Paren(x) => ExprFlag(ch, x);
      case Not(x) =>
        ExprFlag(ch, x);
        ExprShape(ch, x);
        ShapeIsRegular(x);
        var (d, c) := CompileExpr(ch, x).value;
        NotShape(c, start, base, d);
        if !c.orphans { NotShapes(c, start, base, d, EndShape(x)); }
      case And(x, y) => LogicFlag(ch, true, x, y);
      case Or(x, y) => LogicFlag(ch, false, x, y);
      case Compare(op, x, y) => CompareFlag(ch, op, x, y);
    }
  }

  lemma {:induction false} LogicFlag(ch: Chunk, want: bool, x: Expr, y: Expr)
    requires Room(ch) && WellScoped(x, ch.nactvar) && WellScoped(y, ch.nactvar) && Clean(ch)
    requires CompileExpr(ch, Logic(want, x, y)).Ok?
    ensures var (d, c) := CompileExpr(ch, Logic(want, x, y)).value; Flagged(c, |ch.tape|, d, Logic(want, x, y))
    decreases Logic(want, x, y), 0
  {
    LogicCases(ch, want, x, y);
    var (d, c) := CompileExpr(ch, x).value;
    var (d1, c2) := Left(c, d, want).value;
    LeftFlag(ch, x, want);
    RightFlag(ch, c2, want, Leave(d1, want), y, LeftOf(EndShape(x), want));
  }

  /** The right operand, compiled behind the left. */
  lemma {:induction false} RightFlag(ch: Chunk, c2: Chunk, want: bool, leave: seq<nat>, y: Expr, x: Shape)
    requires Room(ch) && WellScoped(y, ch.nactvar) && Clean(ch) && CompileExpr(c2, y).Ok?
    requires Follows(ch, c2, |ch.tape|) && c2.freereg == ch.freereg && ListsOk(c2.tape, |ch.tape|, |c2.tape|, [], leave)
    requires !c2.orphans ==> Clean(c2) && ShapedBy(c2.tape, |ch.tape|, want, [], leave, x)
    ensures var (d3, c3) := CompileExpr(c2, y).value;
      && (c3.orphans <==> c2.orphans || Orphaning(y))
      && (!c3.orphans ==>
            Clean(c3) && Labelled(c3, |ch.tape|)
              && ShapedDesc(c3, |ch.tape|, Joined(d3, want, leave), Followed(x, EndShape(y))))
    decreases y, 4
  {
    var (d3, c3) := CompileExpr(c2, y).value;
    ExprShape(c2, y);
    if !c2.orphans {
      ExprFlag(c2, y);
      if !c3.orphans { JoinedFlag(ch, c2, c3, want, leave, d3, x, EndShape(y)); }
    }
  }

  lemma JoinedFlag(ch: Chunk, c2: Chunk, c3: Chunk, want: bool, leave: seq<nat>, d3: Desc, x: Shape, y: Shape)
    requires Clean(ch) && Clean(c3) && Follows(ch, c2, |ch.tape|) && Follows(c2, c3, |c2.tape|)
    requires ListsOk(c2.tape, |ch.tape|, |c2.tape|, [], leave) && ShapedBy(c2.tape, |ch.tape|, want, [], leave, x)
    requires ShapedDesc(c3, |c2.tape|, d3, y) && ListsOk(c3.tape, |c2.tape|, End(c3, d3), d3.tl, d3.fl)
    ensures Labelled(c3, |ch.tape|) && ShapedDesc(c3, |ch.tape|, Joined(d3, want, leave), Followed(x, y))
  {
    FollowsExtends(c2, c3);
    WaitBelow(c3.tape, |c2.tape|, End(c3, d3), d3.tl, d3.fl);
    JoinedShapes(c2.tape, c3, |ch.tape|, want, leave, d3, x, y);
    StaysLabelled(ch, c3, |ch.tape|);
  }

  /** A left operand or condition of an expression. */
  lemma {:induction false} LeftFlag(ch: Chunk, x: Expr, want: bool)
    requires Room(ch) && WellScoped(x, ch.nactvar) && Clean(ch) && CompileExpr(ch, x).Ok?
    requires Left(CompileExpr(ch, x).value.1, CompileExpr(ch, x).value.0, want).Ok?
    ensures var (d, c) := CompileExpr(ch, x).value;
      var (d1, c2) := Left(c, d, want).value;
      && Follows(ch, c2, |ch.tape|) && c2.freereg == ch.freereg
      && ListsOk(c2.tape, |ch.tape|, |c2.tape|, [], Leave(d1, want))
      && (c2.orphans <==> Orphaning(x) || LeftOrphans(EndShape(x), want))
      && (!c2.orphans ==> Clean(c2) && ShapedBy(c2.tape, |ch.tape|, want, [], Leave(d1, want),
        LeftOf(EndShape(x), want)))
    decreases x, 3
  {
    var start, base := |ch.tape|, ch.freereg;
    var (d, c) := CompileExpr(ch, x).value;
    var (d1, c2) := Left(c, d, want).value;
    ExprFlag(ch, x);
    ExprShape(ch, x);
    ShapeIsRegular(x);
    LeftShape(c, start, base, d, want);
    FollowsTrans(ch, c, c2, start, start);
    if !c.orphans {
      LeftShapes(c, start, base, d, want, EndShape(x));
      StaysLabelled(ch, c2, start);
    }
  }

  lemma {:induction false} RegFlag(ch: Chunk, e: Expr)
    requires Room(ch) && WellScoped(e, ch.nactvar) && Clean(ch) && CompileToReg(ch, e).Ok?
    ensures var c := CompileToReg(ch, e).value.1;
      (c.orphans <==> Orphaning(e)) && (!c.orphans ==> Clean(c))
    decreases e, 2
  {
    var (d, c) := CompileExpr(ch, e).value;
    ExprFlag(ch, e);
    ExprShape(ch, e);
    DischargeOk(c, |ch.tape|, ch.freereg, d);
    if !c.orphans {
      DischargeBounded(c, |ch.tape|, ch.freereg, d);
      StaysLabelled(ch, Discharge(c, d).value.1, |ch.tape|);
    }
  }

  lemma {:induction false} CompareFlag(ch: Chunk, op: Comparison, x: Expr, y: Expr)
    requires Room(ch) && WellScoped(x, ch.nactvar) && WellScoped(y, ch.nactvar) && Clean(ch)
    requires CompileExpr(ch, Compare(op, x, y)).Ok?
    ensures var (d, c) := CompileExpr(ch, Compare(op, x, y)).value; Flagged(c, |ch.tape|, d, Compare(op, x, y))
    decreases Compare(op, x, y), 0
  {
    var (l, c1) := CompileToReg(ch, x).value;
    var (r, c2) := CompileToReg(c1, y).value;
    RegShape(ch, x);
    RegShape(c1, y);
    CompareCase(ch, op, x, y, l, c1, r, c2);
    RegsCompared(c1, c2, op, ch.freereg, l, r);
    RegFlag(ch, x);
    if !c1.orphans {
      RegFlag(c1, y);
      if !c2.orphans { ComparedFlag(ch, c1, c2, op, l, r); }
    }
  }

  lemma ComparedFlag(ch: Chunk, c1: Chunk, c2: Chunk, op: Comparison, l: nat, r: nat)
    requires Clean(ch) && Clean(c2) && Follows(ch, c1, |ch.tape|) && Follows(c1, c2, |c1.tape|)
    ensures var c := Compared(c2, op, l, r, ch.freereg);
      Clean(c) && Labelled(c, |ch.tape|) && ShapedDesc(c, |ch.tape|, ComparedDesc(c2), COMPARED)
  {
    var c := Compared(c2, op, l, r, ch.freereg);
    forall i | 0 <= i < |c.tape| && c.tape[i].JMP? ensures i + 1 + c.tape[i].offset <= |c.tape| {
      if i < |c2.tape| { assert c.tape[i] == c2.tape[i]; }
    }
    StaysLabelled(ch, c, |ch.tape|);
  }
}
