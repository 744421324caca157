/**
 * The source text decides whether a jump is left pointing past an elided pair: the flag of the
 * compiler is set exactly when the shape of the expression says so.
 */
module LuaOrphans {
  import opened Prelude
  import opened LuaVm
  import opened LuaCompile
  import opened LuaExec
  import opened LuaDesc
  import opened LuaGo
  import opened LuaShape

  // ----- code whose jumps stay inside it -----

  /** No jump goes past the end. */
  predicate Bounded(tape: seq<Instr>) {
    StaysWithin(tape, 0, |tape|)
  }

  /** Label jumps and labels lie before position `n`. */
  predicate Labelled(ch: Chunk, n: nat) {
    forall p :: p in ch.patches ==> p.0 < n && (p.1 < |ch.labels| ==> ch.labels[p.1] <= n)
  }

  /** Nothing has been left astray, and nothing points past the end of the code so far. */
  predicate Clean(ch: Chunk) {
    !ch.orphans && Bounded(ch.tape) && Labelled(ch, |ch.tape|)
  }

  /** Some jump before position `cut` goes past it. */
  predicate AimedPast(tape: seq<Instr>, cut: int) {
    !StaysWithin(tape, 0, if cut < 0 then 0 else cut)
  }

  // ----- what a shape says about code -----

  predicate PairIs(tape: seq<Instr>, start: nat, tl: seq<nat>, fl: seq<nat>, j: int, p: Pair) {
    start < j < |tape| && j in (if p.inTl then tl else fl) && Elidable(tape[j - 1])
      && (p.aimed <==> AimedPast(tape, j - 1))
  }

  ghost predicate PairsAre(tape: seq<Instr>, start: nat, end: nat, tl: seq<nat>, fl: seq<nat>, tail: seq<Pair>) {
    forall i :: 0 <= i < |tail| ==> PairIs(tape, start, tl, fl, end - 1 - 2 * i, tail[i])
  }

  /** What stands before the pairs: nothing, or something that cannot be taken away. */
  predicate FloorIs(tape: seq<Instr>, start: nat, b: int, tl: seq<nat>, fl: seq<nat>, open: bool) {
    if open then b == start
    else start < b <= |tape| && (b >= 2 && (b - 1 in tl || b - 1 in fl) ==> !Elidable(tape[b - 2]))
  }

  ghost predicate Below(list: seq<nat>, b: int) {
    exists j :: j in list && j < b
  }

  ghost predicate Shaped(tape: seq<Instr>, start: nat, end: nat, tl: seq<nat>, fl: seq<nat>, s: Shape) {
    var b := end - 2 * |s.tail|;
    && end <= |tape| && start <= b
    && PairsAre(tape, start, end, tl, fl, s.tail)
    && FloorIs(tape, start, b, tl, fl, s.open)
    && (s.deepTl <==> Below(tl, b)) && (s.deepFl <==> Below(fl, b))
  }

  predicate EndsAs(kind: Kind, e: Ending) {
    match e
    case OnLiteral(v) => kind == Literal(v)
    case OnRegister => kind.InReg?
    case OnComparison => kind.Jump?
  }

  // ----- lists and pairs -----

  /** A jump of a list above the floor belongs to one of the pairs. */
  lemma InTail(tape: seq<Instr>, start: nat, end: nat, tl: seq<nat>, fl: seq<nat>, tail: seq<Pair>, j: nat)
    returns (i: nat)
    requires PairsAre(tape, start, end, tl, fl, tail) && (j in tl ==> j !in fl)
    requires end - 2 * |tail| <= j < end <= |tape| && (j in tl || j in fl) && tape[j].JMP?
    ensures i < |tail| && j == end - 1 - 2 * i && (tail[i].inTl <==> j in tl)
  {
    i := (end - 1 - j) / 2;
    assert PairIs(tape, start, tl, fl, end - 1 - 2 * i, tail[i]);
  }

  lemma {:induction false} PairInTail(tail: seq<Pair>, inTl: bool)
    ensures HasPair(tail, inTl) <==> exists i :: 0 <= i < |tail| && tail[i].inTl == inTl
    decreases |tail|
  {
    if tail != [] && tail[0].inTl != inTl {
      PairInTail(tail[1..], inTl);
      if HasPair(tail[1..], inTl) {
        var i :| 0 <= i < |tail[1..]| && tail[1..][i].inTl == inTl;
        assert tail[i + 1].inTl == inTl;
      }
      if exists i :: 0 <= i < |tail| && tail[i].inTl == inTl {
        var i :| 0 <= i < |tail| && tail[i].inTl == inTl;
        assert tail[1..][i - 1].inTl == inTl;
      }
    }
  }

  // ----- patch_to_here -----

  /** The two lists, when the jumps of one stay in the expression and those of the other leave it. */
  function Tl(want: bool, stay: seq<nat>, leave: seq<nat>): seq<nat> { if want then stay else leave }
  function Fl(want: bool, stay: seq<nat>, leave: seq<nat>): seq<nat> { if want then leave else stay }

  ghost predicate ShapedBy(tape: seq<Instr>, start: nat, want: bool, stay: seq<nat>, leave: seq<nat>, s: Shape) {
    Shaped(tape, start, |tape|, Tl(want, stay, leave), Fl(want, stay, leave), s)
  }

  /** The jumps of both lists wait in the code, and none is in both. */
  ghost predicate Waits(tape: seq<Instr>, start: nat, stay: seq<nat>, leave: seq<nat>) {
    && (forall j :: j in stay || j in leave ==> PendingAt(tape, start, |tape|, j))
    && (forall j :: j in stay ==> j !in leave)
  }

  lemma ListsWait(tape: seq<Instr>, start: nat, stay: seq<nat>, leave: seq<nat>)
    requires ListsOk(tape, start, |tape|, stay, leave)
    ensures Waits(tape, start, stay, leave) && NoDup(stay)
  {
    NoDupSplit(stay, leave);
    forall j | j in stay || j in leave ensures PendingAt(tape, start, |tape|, j) {}
  }

  lemma ElidesIff(ch: Chunk, start: nat, want: bool, stay: seq<nat>, leave: seq<nat>, s: Shape)
    requires Waits(ch.tape, start, stay, leave) && ShapedBy(ch.tape, start, want, stay, leave, s)
    ensures Elides(ch, stay) <==> s.tail != [] && s.tail[0].inTl == want
  {
    var n := |ch.tape|;
    if n > 0 { PositionFinds(stay, n - 1); }
    if s.tail != [] {
      assert PairIs(ch.tape, start, Tl(want, stay, leave), Fl(want, stay, leave), n - 1 - 2 * 0, s.tail[0]);
    } else if n - 1 in stay {
      assert PendingAt(ch.tape, start, n, n - 1);
    }
  }

  lemma TopPair(tape: seq<Instr>, start: nat, tl: seq<nat>, fl: seq<nat>, s: Shape)
    requires Shaped(tape, start, |tape|, tl, fl, s) && s.tail != []
    ensures start + 2 <= |tape| && (s.tail[0].aimed <==> AimedPast(tape, |tape| - 2))
  {
    assert PairIs(tape, start, tl, fl, |tape| - 1 - 2 * 0, s.tail[0]);
  }

  lemma ElisionOrphans(ch: Chunk, start: nat, aimed: bool)
    requires Labelled(ch, start) && start + 2 <= |ch.tape| && (aimed <==> AimedPast(ch.tape, |ch.tape| - 2))
    ensures var c := ElidedChunk(ch);
      (c.orphans <==> ch.orphans || aimed) && Labelled(c, start) && (!aimed ==> Bounded(c.tape))
  {
    var n := |ch.tape|;
    assert NothingPast(ch, n - 2) <==> StaysWithin(ch.tape, 0, n - 2);
  }

  /** Taking the last pair away. */
  lemma ElidedShapes(ch: Chunk, start: nat, want: bool, stay: seq<nat>, leave: seq<nat>, s: Shape)
    requires Waits(ch.tape, start, stay, leave) && ShapedBy(ch.tape, start, want, stay, leave, s)
    requires Labelled(ch, start) && Bounded(ch.tape) && Elides(ch, stay) && NoDup(stay) && s.tail != []
    requires s.tail[0].inTl == want
    ensures var c := ElidedChunk(ch);
      && (c.orphans <==> ch.orphans || s.tail[0].aimed) && Labelled(c, start)
      && (!s.tail[0].aimed ==> Bounded(c.tape))
      && ShapedBy(c.tape, start, want, ElidedList(ch, stay), leave, s.(tail := s.tail[1..]))
  {
    TopPair(ch.tape, start, Tl(want, stay, leave), Fl(want, stay, leave), s);
    ElisionOrphans(ch, start, s.tail[0].aimed);
    ElidedListElems(ch, stay);
    ShorterShape(ch.tape, ElidedChunk(ch).tape, start, want, stay, ElidedList(ch, stay), leave, s);
  }

  lemma ShorterShape(tape: seq<Instr>, tape': seq<Instr>, start: nat, want: bool, stay: seq<nat>, l: seq<nat>,
    leave: seq<nat>, s: Shape)
    requires ShapedBy(tape, start, want, stay, leave, s) && s.tail != [] && s.tail[0].inTl == want
    requires |tape| >= 2 && tape' == tape[..|tape| - 2] && forall x :: x in l <==> x in stay && x != |tape| - 1
    ensures ShapedBy(tape', start, want, l, leave, s.(tail := s.tail[1..]))
  {
    ShorterPairs(tape, tape', start, want, stay, l, leave, s.tail);
    ShorterFloor(tape, tape', start, want, stay, l, leave, s);
  }

  lemma ShorterPairs(tape: seq<Instr>, tape': seq<Instr>, start: nat, want: bool, stay: seq<nat>, l: seq<nat>,
    leave: seq<nat>, tail: seq<Pair>)
    requires PairsAre(tape, start, |tape|, Tl(want, stay, leave), Fl(want, stay, leave), tail) && tail != []
    requires |tape| >= 2 && tape' == tape[..|tape| - 2] && forall x :: x in l <==> x in stay && x != |tape| - 1
    ensures PairsAre(tape', start, |tape'|, Tl(want, l, leave), Fl(want, l, leave), tail[1..])
  {
    var n, t := |tape|, tail[1..];
    forall i | 0 <= i < |t| ensures PairIs(tape', start, Tl(want, l, leave), Fl(want, l, leave), n - 3 - 2 * i, t[i]) {
      assert PairIs(tape, start, Tl(want, stay, leave), Fl(want, stay, leave), n - 1 - 2 * (i + 1), tail[i + 1]);
      ShorterPair(tape, tape', start, want, stay, l, leave, n - 3 - 2 * i, t[i]);
    }
  }

  lemma ShorterFloor(tape: seq<Instr>, tape': seq<Instr>, start: nat, want: bool, stay: seq<nat>, l: seq<nat>,
    leave: seq<nat>, s: Shape)
    requires ShapedBy(tape, start, want, stay, leave, s) && s.tail != []
    requires |tape| >= 2 && tape' == tape[..|tape| - 2] && forall x :: x in l <==> x in stay && x != |tape| - 1
    ensures var b := |tape| - 2 * |s.tail|;
      && FloorIs(tape', start, b, Tl(want, l, leave), Fl(want, l, leave), s.open)
      && (Below(l, b) <==> Below(stay, b))
  {
    SameBelow(stay, l, |tape| - 2 * |s.tail|, |tape| - 1);
  }

  lemma ShorterPair(tape: seq<Instr>, tape': seq<Instr>, start: nat, want: bool, stay: seq<nat>, l: seq<nat>,
    leave: seq<nat>, j: int, p: Pair)
    requires PairIs(tape, start, Tl(want, stay, leave), Fl(want, stay, leave), j, p)
    requires |tape| >= 2 && tape' == tape[..|tape| - 2] && j < |tape'|
    requires forall x :: x in l <==> x in stay && x != |tape| - 1
    ensures PairIs(tape', start, Tl(want, l, leave), Fl(want, l, leave), j, p)
  {
    SamePast(tape, tape', j - 1);
  }

  lemma ElidedListElems(ch: Chunk, list: seq<nat>)
    requires Elides(ch, list) && NoDup(list)
    ensures forall x :: x in ElidedList(ch, list) <==> x in list && x != |ch.tape| - 1
  {
    PositionFinds(list, |ch.tape| - 1);
    NoDupRemove(list, Position(list, |ch.tape| - 1));
  }

  lemma SamePast(a: seq<Instr>, b: seq<Instr>, cut: int)
    requires cut <= |a| && cut <= |b| && forall i :: 0 <= i < cut ==> a[i] == b[i]
    ensures AimedPast(a, cut) == AimedPast(b, cut)
  {
  }

  lemma SameBelow(a: seq<nat>, b: seq<nat>, floor: int, x: int)
    requires floor <= x && forall y :: y in b <==> y in a && y != x
    ensures Below(a, floor) == Below(b, floor)
  {
    if Below(a, floor) {
      var y :| y in a && y < floor;
      assert y in b;
    }
  }

  // ----- the jumps that are aimed here -----

  lemma {:induction false} KeptIs(tail: seq<Pair>, stay: bool, aim: bool)
    ensures var k := KeptPairs(tail, stay, aim);
      && (forall i :: 0 <= i < |k| ==> tail[i].inTl == !stay && k[i] == Pair(!stay, tail[i].aimed || aim))
      && (|k| < |tail| ==> tail[|k|].inTl == stay)
    decreases |tail|
  {
    if tail != [] && tail[0].inTl != stay {
      KeptIs(tail[1..], stay, aim);
      var k, r := KeptPairs(tail, stay, aim), KeptPairs(tail[1..], stay, aim);
      forall i | 0 <= i < |k| ensures tail[i].inTl == !stay && k[i] == Pair(!stay, tail[i].aimed || aim) {
        if i > 0 { assert k[i] == r[i - 1] && tail[i] == tail[1..][i - 1]; }
      }
    }
  }

  /** The list has jumps exactly when the shape says so. */
  lemma AimsIff(tape: seq<Instr>, start: nat, want: bool, stay: seq<nat>, leave: seq<nat>, s: Shape)
    requires Waits(tape, start, stay, leave) && ShapedBy(tape, start, want, stay, leave, s)
    ensures stay != [] <==> DeepIn(s, want) || HasPair(s.tail, want)
  {
    var tl, fl, n := Tl(want, stay, leave), Fl(want, stay, leave), |tape|;
    PairInTail(s.tail, want);
    if stay != [] {
      var j := stay[0];
      assert PendingAt(tape, start, n, j);
      if j >= n - 2 * |s.tail| {
        var i := InTail(tape, start, n, tl, fl, s.tail, j);
      } else {
        assert Below(stay, n - 2 * |s.tail|);
      }
    }
  }

  /** Jumps of the list stand below the pairs that are kept. */
  lemma StayBelow(tape: seq<Instr>, start: nat, want: bool, stay: seq<nat>, leave: seq<nat>, s: Shape, j: nat)
    requires Waits(tape, start, stay, leave) && ShapedBy(tape, start, want, stay, leave, s) && j in stay
    ensures j < |tape| - 2 * |KeptPairs(s.tail, want, stay != [])|
  {
    var tl, fl, n := Tl(want, stay, leave), Fl(want, stay, leave), |tape|;
    assert PendingAt(tape, start, n, j);
    KeptIs(s.tail, want, stay != []);
    if j >= n - 2 * |s.tail| {
      var i := InTail(tape, start, n, tl, fl, s.tail, j);
    }
  }

  /** The jumps of the list have been aimed at the end of the tape. */
  ghost predicate Brought(tape: seq<Instr>, tape': seq<Instr>, stay: seq<nat>) {
    |tape'| == |tape| && forall i :: 0 <= i < |tape| ==> BroughtAt(tape, tape', stay, i)
  }

  predicate BroughtAt(tape: seq<Instr>, tape': seq<Instr>, stay: seq<nat>, i: nat)
    requires i < |tape| && |tape'| == |tape|
  {
    tape'[i] == if i in stay then JMP(|tape| - (i + 1)) else if i + 1 in stay then Lowered(tape[i]) else tape[i]
  }

  lemma PatchToBrings(ch: Chunk, c: Chunk, stay: seq<nat>)
    requires PatchTo(ch, stay, |ch.tape|) == Ok(c)
    ensures Brought(ch.tape, c.tape, stay)
  {
    forall i | 0 <= i < |ch.tape| ensures BroughtAt(ch.tape, c.tape, stay, i) { AimedAt(ch.tape, stay, |ch.tape|, i); }
  }

  lemma BroughtBounded(tape: seq<Instr>, tape': seq<Instr>, stay: seq<nat>)
    requires Brought(tape, tape', stay) && Bounded(tape)
    ensures Bounded(tape')
  {
    forall i | 0 <= i < |tape'| && tape'[i].JMP? ensures i + 1 + tape'[i].offset <= |tape| {
      assert BroughtAt(tape, tape', stay, i);
    }
  }

  /** Which pairs are jumped past, once the list has been aimed at the end. */
  lemma AimedPastIff(tape: seq<Instr>, tape': seq<Instr>, stay: seq<nat>, cut: nat)
    requires Brought(tape, tape', stay) && cut < |tape| && forall j :: j in stay ==> j < cut
    ensures AimedPast(tape', cut) <==> AimedPast(tape, cut) || stay != []
  {
    forall i | 0 <= i < cut
      ensures BroughtAt(tape, tape', stay, i)
      ensures i !in stay ==> tape'[i].JMP? == tape[i].JMP? && (tape[i].JMP? ==> tape'[i] == tape[i])
    {
      assert BroughtAt(tape, tape', stay, i);
    }
    if stay != [] {
      var j := stay[0];
      assert j in stay && BroughtAt(tape, tape', stay, j);
      assert j + 1 + tape'[j].offset > cut;
    } else if AimedPast(tape, cut) {
      var i :| 0 <= i < cut && i < |tape| && tape[i].JMP? && i + 1 + tape[i].offset > cut;
      assert BroughtAt(tape, tape', stay, i);
    }
  }

  /** Brought here without another elision: the jumps of the list are aimed past what they stand before. */
  lemma PatchToShapes(ch: Chunk, c: Chunk, start: nat, want: bool, stay: seq<nat>, leave: seq<nat>, s: Shape)
    requires Waits(ch.tape, start, stay, leave) && ShapedBy(ch.tape, start, want, stay, leave, s)
    requires Bounded(ch.tape) && (s.tail != [] ==> s.tail[0].inTl != want) && PatchTo(ch, stay, |ch.tape|) == Ok(c)
    ensures Bounded(c.tape) && ShapedBy(c.tape, start, want, [], leave, PatchedHere(s, want))
  {
    PatchToBrings(ch, c, stay);
    BroughtBounded(ch.tape, c.tape, stay);
    AimsIff(ch.tape, start, want, stay, leave, s);
    PatchedIs(s, want, stay != []);
    BroughtShapes(ch.tape, c.tape, start, want, stay, leave, s, PatchedHere(s, want));
  }

  lemma BroughtShapes(tape: seq<Instr>, tape': seq<Instr>, start: nat, want: bool, stay: seq<nat>, leave: seq<nat>,
    s: Shape, s': Shape)
    requires Waits(tape, start, stay, leave) && ShapedBy(tape, start, want, stay, leave, s)
    requires Brought(tape, tape', stay)
    requires var k := KeptPairs(s.tail, want, stay != []);
      var deep := DeepIn(s, !want) || HasPair(s.tail[|k|..], !want);
      s' == Shape(s.ending, k, s.open && |k| == |s.tail|, deep && !want, deep && want)
    ensures ShapedBy(tape', start, want, [], leave, s')
  {
    var k := KeptPairs(s.tail, want, stay != []);
    KeptPairsAre(tape, tape', start, want, stay, leave, s);
    KeptFloor(tape, tape', start, want, stay, leave, s);
    KeptDeep(tape, start, want, stay, leave, s, |k|, |tape| - 2 * |k|, DeepIn(s', !want));
    ShapeOnly(tape', start, want, leave, s');
  }

  /** Nothing is taken away when the last pair leaves. */
  lemma PatchedIs(s: Shape, want: bool, aim: bool)
    requires (s.tail != [] ==> s.tail[0].inTl != want) && (aim <==> DeepIn(s, want) || HasPair(s.tail, want))
    ensures var k := KeptPairs(s.tail, want, aim);
      var deep := DeepIn(s, !want) || HasPair(s.tail[|k|..], !want);
      PatchedHere(s, want) == Shape(s.ending, k, s.open && |k| == |s.tail|, deep && !want, deep && want)
  {
  }

  lemma ShapeOnly(tape: seq<Instr>, start: nat, want: bool, leave: seq<nat>, s: Shape)
    requires PairsAre(tape, start, |tape|, Tl(want, [], leave), Fl(want, [], leave), s.tail)
    requires FloorIs(tape, start, |tape| - 2 * |s.tail|, Tl(want, [], leave), Fl(want, [], leave), s.open)
    requires DeepIn(s, !want) <==> Below(leave, |tape| - 2 * |s.tail|)
    requires !DeepIn(s, want)
    ensures ShapedBy(tape, start, want, [], leave, s)
  {
    assert !Below([], |tape| - 2 * |s.tail|);
  }

  lemma KeptPairsAre(tape: seq<Instr>, tape': seq<Instr>, start: nat, want: bool, stay: seq<nat>, leave: seq<nat>,
    s: Shape)
    requires Waits(tape, start, stay, leave) && ShapedBy(tape, start, want, stay, leave, s)
    requires Brought(tape, tape', stay)
    ensures PairsAre(tape', start, |tape|, Tl(want, [], leave), Fl(want, [], leave),
      KeptPairs(s.tail, want, stay != []))
  {
    var n, k := |tape|, KeptPairs(s.tail, want, stay != []);
    forall j | j in stay ensures 0 < j < n - 2 * |k| {
      assert PendingAt(tape, start, n, j);
      StayBelow(tape, start, want, stay, leave, s, j);
    }
    KeptIs(s.tail, want, stay != []);
    forall i | 0 <= i < |k|
      ensures PairIs(tape', start, Tl(want, [], leave), Fl(want, [], leave), n - 1 - 2 * i, k[i])
    {
      var j := n - 1 - 2 * i;
      assert PairIs(tape, start, Tl(want, stay, leave), Fl(want, stay, leave), j, s.tail[i]);
      KeptPairIs(tape, tape', start, want, stay, leave, j, s.tail[i]);
    }
  }

  lemma KeptPairIs(tape: seq<Instr>, tape': seq<Instr>, start: nat, want: bool, stay: seq<nat>, leave: seq<nat>, j: nat,
    p: Pair)
    requires Brought(tape, tape', stay) && PairIs(tape, start, Tl(want, stay, leave), Fl(want, stay, leave), j, p)
    requires p.inTl == !want
    requires forall x :: x in stay ==> x < j - 1
    ensures PairIs(tape', start, Tl(want, [], leave), Fl(want, [], leave), j, Pair(!want, p.aimed || stay != []))
  {
    assert BroughtAt(tape, tape', stay, j - 1);
    AimedPastIff(tape, tape', stay, j - 1);
  }

  lemma KeptFloor(tape: seq<Instr>, tape': seq<Instr>, start: nat, want: bool, stay: seq<nat>, leave: seq<nat>,
    s: Shape)
    requires Waits(tape, start, stay, leave) && ShapedBy(tape, start, want, stay, leave, s)
    requires Brought(tape, tape', stay)
    ensures var k := |KeptPairs(s.tail, want, stay != [])|;
      FloorIs(tape', start, |tape| - 2 * k, Tl(want, [], leave), Fl(want, [], leave), s.open && k == |s.tail|)
  {
    var n, k := |tape|, |KeptPairs(s.tail, want, stay != [])|;
    var b := n - 2 * k;
    KeptIs(s.tail, want, stay != []);
    if k < |s.tail| {
      assert PairIs(tape, start, Tl(want, stay, leave), Fl(want, stay, leave), b - 1, s.tail[k]);
    } else if !s.open && b >= 2 && b - 1 in leave {
      assert PendingAt(tape, start, n, b - 1);
      assert BroughtAt(tape, tape', stay, b - 2);
    }
  }

  lemma KeptDeep(tape: seq<Instr>, start: nat, want: bool, stay: seq<nat>, leave: seq<nat>, s: Shape, k: nat, b: int,
    deep: bool)
    requires Waits(tape, start, stay, leave) && ShapedBy(tape, start, want, stay, leave, s)
    requires k <= |s.tail| && b == |tape| - 2 * k && deep == (DeepIn(s, !want) || HasPair(s.tail[k..], !want))
    ensures Below(leave, b) <==> deep
  {
    PairInTail(s.tail[k..], !want);
    if Below(leave, b) {
      DeepLeave(tape, start, want, stay, leave, s, k);
    }
  }

  lemma DeepLeave(tape: seq<Instr>, start: nat, want: bool, stay: seq<nat>, leave: seq<nat>, s: Shape, k: nat)
    requires Waits(tape, start, stay, leave) && ShapedBy(tape, start, want, stay, leave, s)
    requires k <= |s.tail| && Below(leave, |tape| - 2 * k)
    ensures DeepIn(s, !want) || exists i :: 0 <= i < |s.tail[k..]| && s.tail[k..][i].inTl == !want
  {
    var n := |tape|;
    var j :| j in leave && j < n - 2 * k;
    assert PendingAt(tape, start, n, j);
    if j >= n - 2 * |s.tail| {
      var i := InTail(tape, start, n, Tl(want, stay, leave), Fl(want, stay, leave), s.tail, j);
      assert s.tail[k..][i - k].inTl == !want;
    } else {
      assert Below(leave, n - 2 * |s.tail|);
    }
  }

  /** A tape and its lists before `patch_to_here`, in the shape `s`. */
  ghost predicate Poised(ch: Chunk, start: nat, want: bool, stay: seq<nat>, leave: seq<nat>, s: Shape) {
    && ListsOk(ch.tape, start, |ch.tape|, stay, leave) && ShapedBy(ch.tape, start, want, stay, leave, s)
    && Labelled(ch, start) && Bounded(ch.tape) && !ch.orphans
  }

  lemma ElidedPoised(ch: Chunk, start: nat, want: bool, stay: seq<nat>, leave: seq<nat>, s: Shape)
    requires Poised(ch, start, want, stay, leave, s) && s.tail != [] && s.tail[0].inTl == want
    ensures Elides(ch, stay)
    ensures var c, l := ElidedChunk(ch), ElidedList(ch, stay);
      && ListsOk(c.tape, start, |c.tape|, l, leave) && |l| < |stay|
      && if s.tail[0].aimed then c.orphans else Poised(c, start, want, l, leave, s.(tail := s.tail[1..]))
  {
    ListsWait(ch.tape, start, stay, leave);
    ElidesIff(ch, start, want, stay, leave, s);
    ElidedShape(ch, start, stay, leave);
    ElidedShapes(ch, start, want, stay, leave, s);
  }

  lemma PatchedPoised(ch: Chunk, start: nat, want: bool, stay: seq<nat>, leave: seq<nat>, s: Shape)
    requires Poised(ch, start, want, stay, leave, s) && (s.tail != [] ==> s.tail[0].inTl != want)
    ensures !Elides(ch, stay) && PatchTo(ch, stay, |ch.tape|).Ok?
    ensures var c := PatchTo(ch, stay, |ch.tape|).value;
      !c.orphans && Bounded(c.tape) && ShapedBy(c.tape, start, want, [], leave, PatchedHere(s, want))
  {
    ListsWait(ch.tape, start, stay, leave);
    ElidesIff(ch, start, want, stay, leave, s);
    PatchToShape(ch, start, stay, leave);
    PatchToShapes(ch, PatchTo(ch, stay, |ch.tape|).value, start, want, stay, leave, s);
  }

  /** What `patch_to_here` takes away, whether it leaves a jump astray, and the shape afterwards. */
  lemma {:induction false} PatchShapes(ch: Chunk, start: nat, want: bool, stay: seq<nat>, leave: seq<nat>, s: Shape)
    requires Poised(ch, start, want, stay, leave, s)
    ensures PatchToHere(ch, stay).Ok?
    ensures var c := PatchToHere(ch, stay).value;
      && (c.orphans <==> TakesAimed(s.tail, want))
      && (!c.orphans ==> Bounded(c.tape) && ShapedBy(c.tape, start, want, [], leave, PatchedHere(s, want)))
    decreases |stay|
  {
    PatchToHereStep(ch, stay);
    if s.tail != [] && s.tail[0].inTl == want {
      ElidedPoised(ch, start, want, stay, leave, s);
      var c, l := ElidedChunk(ch), ElidedList(ch, stay);
      if s.tail[0].aimed {
        PatchToHereShape(c, start, l, leave);
      } else {
        PatchShapes(c, start, want, l, leave, s.(tail := s.tail[1..]));
      }
    } else {
      PatchedPoised(ch, start, want, stay, leave, s);
    }
  }
}
