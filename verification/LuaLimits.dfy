/**
 * When compilation succeeds: the registers and constants an expression or a program takes, read
 * off its source.
 */
module LuaLimits {
  import opened Prelude
  import opened LuaVm
  import opened LuaCompile
  import opened LuaDesc
  import opened LuaGo
  import opened LuaDischarge
  import opened LuaReg
  import opened LuaLogic
  import opened LuaNot
  import opened LuaCorrect
  import opened LuaExact
  import opened LuaStmt
  import opened LuaLayout
  import opened LuaGrowth

  // ----- what an expression leaves, by its source -----

  /** The jumps of a list: none, all of them preserve a value, or some must be given a boolean. */
  datatype Pending = Empty | Preserving | Needing

  function Join(a: Pending, b: Pending): Pending {
    if a.Needing? || b.Needing? then Needing else if a.Empty? then b else a
  }

  /** Jumps that have dropped their values. */
  function Dropped(a: Pending): Pending {
    if a.Empty? then Empty else Needing
  }

  datatype Place = ALiteral(v: Value) | ALocal | ATemporary | AComparison

  datatype Summary = Summary(place: Place, tl: Pending, fl: Pending)

  function LeaveList(s: Summary, want: bool): Pending {
    if want then s.fl else s.tl
  }

  /** A literal that must be loaded and tested, because it does not go the wanted way. */
  predicate Rejected(s: Summary, want: bool) {
    s.place.ALiteral? && Truthy(s.place.v) != want
  }

  /** The jumps that leave a left operand or a condition. */
  function Leaving(s: Summary, want: bool): Pending {
    match s.place
    case ALiteral(v) => if Truthy(v) == want then LeaveList(s, want) else Preserving
    case AComparison => Needing
    case _ => Join(LeaveList(s, want), Preserving)
  }

  function Negation(s: Summary): Summary {
    var place := match s.place
      case ALiteral(v) => ALiteral(Bool(!Truthy(v)))
      case AComparison => AComparison
      case _ => ATemporary;
    Summary(place, Dropped(s.fl), Dropped(s.tl))
  }

  /** The right operand decides where the value is; the jumps that leave the left one are added. */
  function Both(left: Pending, want: bool, s: Summary): Summary {
    if want then s.(fl := Join(s.fl, left)) else s.(tl := Join(s.tl, left))
  }

  function SummaryOf(e: Expr): Summary {
    match e
    case Local(_) => Summary(ALocal, Empty, Empty)
    case Const(v) => Summary(ALiteral(v), Empty, Empty)
    case Paren(x) => SummaryOf(x)
    case Not(x) => Negation(SummaryOf(x))
    case And(x, y) => Both(Leaving(SummaryOf(x), true), true, SummaryOf(y))
    case Or(x, y) => Both(Leaving(SummaryOf(x), false), false, SummaryOf(y))
    case Compare(_, _, _) => Summary(AComparison, Empty, Empty)
  }

  // ----- what it takes -----

  /** A value in a register takes a temporary, unless it is in a local already. */
  function Taken(s: Summary): nat {
    if s == Summary(ALocal, Empty, Empty) then 0 else 1
  }

  /** The constants a discharge loads; `true` where a boolean must be made. */
  function Loaded(s: Summary): set<Value> {
    (if s.place.ALiteral? then {s.place.v} else {})
    + (if s.place.AComparison? || s.tl.Needing? || s.fl.Needing? then {Bool(true)} else {})
  }

  function NotNeed(s: Summary): nat {
    if s.place.ALocal? || s.place.ATemporary? then 1 else 0
  }

  /** What testing a rejected literal takes. */
  function TestNeed(s: Summary, want: bool): nat {
    if Rejected(s, want) then 1 else 0
  }

  function TestLoads(s: Summary, want: bool): set<Value> {
    if Rejected(s, want) then Loaded(s) else {}
  }

  /** Temporaries in use at once while an expression is compiled. */
  function ExprNeed(e: Expr): nat
    decreases e, 0
  {
    match e
    case Local(_) => 0
    case Const(_) => 0
    case Paren(x) => ExprNeed(x)
    case Not(x) => Max(ExprNeed(x), NotNeed(SummaryOf(x)))
    case And(x, y) => Max(LeftNeed(x, true), ExprNeed(y))
    case Or(x, y) => Max(LeftNeed(x, false), ExprNeed(y))
    case Compare(_, x, y) => Max(RegNeed(x), Taken(SummaryOf(x)) + RegNeed(y))
  }

  /** The same as the left operand of `and`, when `want`, or of `or`. */
  function LeftNeed(e: Expr, want: bool): nat
    decreases e, 1
  {
    Max(ExprNeed(e), TestNeed(SummaryOf(e), want))
  }

  /** The same with its value in a register. */
  function RegNeed(e: Expr): nat
    decreases e, 1
  {
    Max(ExprNeed(e), Taken(SummaryOf(e)))
  }

  /** The constants that the code of an expression loads. */
  function ExprLoads(e: Expr): set<Value>
    decreases e, 0
  {
    match e
    case Local(_) => {}
    case Const(_) => {}
    case Paren(x) => ExprLoads(x)
    case Not(x) => ExprLoads(x)
    case And(x, y) => LeftLoads(x, true) + ExprLoads(y)
    case Or(x, y) => LeftLoads(x, false) + ExprLoads(y)
    case Compare(_, x, y) => RegLoads(x) + RegLoads(y)
  }

  function LeftLoads(e: Expr, want: bool): set<Value>
    decreases e, 1
  {
    ExprLoads(e) + TestLoads(SummaryOf(e), want)
  }

  function RegLoads(e: Expr): set<Value>
    decreases e, 1
  {
    ExprLoads(e) + Loaded(SummaryOf(e))
  }

  function StmtNeed(s: Stmt): nat {
    match s
    case Work(_) => 0
    case Break => 0
    case Do(b) => BlockNeed(b)
    case If(arms) => ArmsNeed(arms)
    case While(c, b) => Max(LeftNeed(c, true), BlockNeed(b))
    case Repeat(b, c) => Max(BlockNeed(b), LeftNeed(c, true))
  }

  function BlockNeed(b: Block): nat {
    match b
    case Nothing => 0
    case Then(s, rest) => Max(StmtNeed(s), BlockNeed(rest))
  }

  function ArmsNeed(arms: Arms): nat {
    match arms
    case Fi => 0
    case Else(b) => BlockNeed(b)
    case Arm(c, b, rest) => Max(Max(LeftNeed(c, true), BlockNeed(b)), ArmsNeed(rest))
  }

  function StmtLoads(s: Stmt): set<Value> {
    match s
    case Work(_) => {}
    case Break => {}
    case Do(b) => BlockLoads(b)
    case If(arms) => ArmsLoads(arms)
    case While(c, b) => LeftLoads(c, true) + BlockLoads(b)
    case Repeat(b, c) => BlockLoads(b) + LeftLoads(c, true)
  }

  function BlockLoads(b: Block): set<Value> {
    match b
    case Nothing => {}
    case Then(s, rest) => StmtLoads(s) + BlockLoads(rest)
  }

  function ArmsLoads(arms: Arms): set<Value> {
    match arms
    case Fi => {}
    case Else(b) => BlockLoads(b)
    case Arm(c, b, rest) => LeftLoads(c, true) + BlockLoads(b) + ArmsLoads(rest)
  }

  /** Is there a `break` that no loop of the statement encloses? */
  predicate StmtBreaks(s: Stmt) {
    match s
    case Break => true
    case Do(b) => BlockBreaks(b)
    case If(arms) => ArmsBreak(arms)
    case _ => false
  }

  predicate BlockBreaks(b: Block) {
    match b
    case Nothing => false
    case Then(s, rest) => StmtBreaks(s) || BlockBreaks(rest)
  }

  predicate ArmsBreak(arms: Arms) {
    match arms
    case Fi => false
    case Else(b) => BlockBreaks(b)
    case Arm(_, b, rest) => BlockBreaks(b) || ArmsBreak(rest)
  }

  // ----- accounts -----

  function Values(consts: seq<Value>): set<Value> {
    set v | v in consts
  }

  /** The table of constants overflows: the constants that are not in it yet do not fit. */
  predicate Exceeds(consts: seq<Value>, loads: set<Value>) {
    var fresh' := loads - Values(consts);
    fresh' != {} && |consts| + |fresh'| > 65535
  }

  /**
   * The outcome of compiling something that reserves registers up to `top`, loads the constants
   * `loads`, and has a `break` outside any loop when `out`.
   */
  ghost predicate Charged(ch: Chunk, top: nat, loads: set<Value>, out: bool, r: Result<Chunk>) {
    match r
    case Err(Registers) => top > 255
    case Err(Constants) => Exceeds(ch.consts, loads)
    case Err(Outside) => out
    case Err(Panic) => false
    case Ok(c) =>
      && top <= 255 && !Exceeds(ch.consts, loads) && !out
      && c.maxStack == Max(ch.maxStack, top)
      && Values(c.consts) == Values(ch.consts) + loads
      && |c.consts| == |ch.consts| + |loads - Values(ch.consts)|
  }

  function ChunkOf<T>(r: Result<(T, Chunk)>): Result<Chunk> {
    match r
    case Err(f) => Err(f)
    case Ok((_, c)) => Ok(c)
  }

  /** The first register above `n` temporaries, if there are any. */
  function Top(base: nat, n: nat): nat {
    if n == 0 then 0 else base + n
  }

  lemma FreshAdds(s: set<Value>, a: set<Value>, b: set<Value>)
    ensures a + b - s == (a - s) + (b - (s + a))
    ensures |a + b - s| == |a - s| + |b - (s + a)|
  {
    assert (a - s) !! (b - (s + a));
    assert a + b - s == (a - s) + (b - (s + a));
  }

  /** One thing compiled after another. */
  lemma Sequel(ch: Chunk, t1: nat, l1: set<Value>, o1: bool, r1: Result<Chunk>, t2: nat, l2: set<Value>, o2: bool,
    r2: Result<Chunk>)
    requires Charged(ch, t1, l1, o1, r1)
    requires if r1.Ok? then Charged(r1.value, t2, l2, o2, r2) else r2 == r1
    ensures Charged(ch, Max(t1, t2), l1 + l2, o1 || o2, r2)
  {
    FreshAdds(Values(ch.consts), l1, l2);
  }

  /** The same when the second thing loads nothing. */
  lemma SequelDry(ch: Chunk, t1: nat, l1: set<Value>, o1: bool, r1: Result<Chunk>, t2: nat, r2: Result<Chunk>)
    requires Charged(ch, t1, l1, o1, r1)
    requires if r1.Ok? then Charged(r1.value, t2, {}, false, r2) else r2 == r1
    ensures Charged(ch, Max(t1, t2), l1, o1, r2)
  {
    Sequel(ch, t1, l1, o1, r1, t2, {}, false, r2);
    assert l1 + {} == l1;
  }

  /** What touches neither the constants nor the stack is free. */
  lemma Free(ch: Chunk, c: Chunk)
    requires c.consts == ch.consts && c.maxStack == ch.maxStack
    ensures Charged(ch, 0, {}, false, Ok(c))
  {
    assert {} - Values(ch.consts) == {};
  }

  lemma {:induction false} IndexOfMisses(consts: seq<Value>, v: Value)
    ensures v in consts <==> IndexOf(consts, v) < |consts|
    decreases |consts|
  {
    if consts != [] && consts[0] != v { IndexOfMisses(consts[1..], v); }
  }

  lemma AllocCharged(ch: Chunk, v: Value)
    ensures Charged(ch, 0, {v}, false, ChunkOf(AllocConstant(ch, v)))
  {
    IndexOfMisses(ch.consts, v);
    if v in ch.consts {
      assert {v} - Values(ch.consts) == {};
    } else {
      assert {v} - Values(ch.consts) == {v};
      assert Values(ch.consts + [v]) == Values(ch.consts) + {v};
    }
  }

  lemma ReserveCharged(ch: Chunk)
    requires ch.nactvar <= ch.freereg <= 255
    ensures Charged(ch, ch.freereg + 1, {}, false, ChunkOf(ReserveReg(ch)))
  {
    assert {} - Values(ch.consts) == {};
  }

  // ----- lists -----

  function StateOf(tape: seq<Instr>, list: seq<nat>): Pending {
    if list == [] then Empty else if NeedValue(tape, list) then Needing else Preserving
  }

  lemma StatesJoin(tape: seq<Instr>, a: seq<nat>, b: seq<nat>)
    ensures StateOf(tape, a + b) == Join(StateOf(tape, a), StateOf(tape, b))
  {
    assert forall j :: j in a + b <==> j in a || j in b;
  }

  lemma StateKept(tape: seq<Instr>, tape': seq<Instr>, list: seq<nat>)
    requires forall j :: j in list ==> 0 < j <= |tape| && j <= |tape'| && tape'[j - 1] == tape[j - 1]
    ensures StateOf(tape', list) == StateOf(tape, list)
  {
  }

  lemma StateOfLast(tape: seq<Instr>, j: nat)
    requires 0 < j <= |tape|
    ensures StateOf(tape, [j]) == if tape[j - 1].TESTSET? && tape[j - 1].dst == NO_REG then Preserving else Needing
  {
    assert j in [j];
  }

  ghost predicate PlaceIs(ch: Chunk, kind: Kind, p: Place) {
    match p
    case ALiteral(v) => kind == Literal(v)
    case ALocal => kind.InReg? && kind.r < ch.nactvar
    case ATemporary => kind.InReg? && kind.r >= ch.nactvar
    case AComparison => kind.Jump?
  }

  ghost predicate Matches(ch: Chunk, d: Desc, s: Summary) {
    PlaceIs(ch, d.kind, s.place) && StateOf(ch.tape, d.tl) == s.tl && StateOf(ch.tape, d.fl) == s.fl
  }

  lemma ListsLow(tape: seq<Instr>, start: nat, end: nat, a: seq<nat>, b: seq<nat>)
    requires ListsOk(tape, start, end, a, b)
    ensures forall j :: j in a || j in b ==> 0 < j < end <= |tape|
  {
    forall j | j in a || j in b ensures 0 < j < end { assert PendingAt(tape, start, end, j); }
  }

  /** Code behind a description changes neither of its lists. */
  lemma BothKept(ch: Chunk, c: Chunk, start: nat, base: nat, d: Desc)
    requires WellFormed(ch, start, base, d) && ch.tape <= c.tape
    ensures StateOf(c.tape, d.tl) == StateOf(ch.tape, d.tl) && StateOf(c.tape, d.fl) == StateOf(ch.tape, d.fl)
  {
    ListsLow(ch.tape, start, End(ch, d), d.tl, d.fl);
    StateKept(ch.tape, c.tape, d.tl);
    StateKept(ch.tape, c.tape, d.fl);
  }

  // ----- discharge -----

  /** The registers discharge reserves itself; a temporary is there already. */
  function DischargeTop(base: nat, s: Summary): nat {
    if s.place.ATemporary? || Taken(s) == 0 then 0 else base + 1
  }

  function LiteralLoads(s: Summary): set<Value> {
    if s.place.ALiteral? then {s.place.v} else {}
  }

  function TailLoads(s: Summary): set<Value> {
    if s.place.AComparison? || s.tl.Needing? || s.fl.Needing? then {Bool(true)} else {}
  }

  function PreparedChunk(r: Result<(Desc, nat, Chunk)>): Result<Chunk> {
    match r
    case Err(f) => Err(f)
    case Ok((_, _, c)) => Ok(c)
  }

  lemma LoadCharged(ch: Chunk, start: nat, base: nat, d: Desc)
    requires WellFormed(ch, start, base, d) && d.kind.Literal?
    ensures Charged(ch, base + 1, {d.kind.v}, false, ChunkOf(LoadLiteral(ch, d)))
    ensures LoadLiteral(ch, d).Ok? ==> ch.tape <= LoadLiteral(ch, d).value.1.tape
  {
    AllocCharged(ch, d.kind.v);
    AllocConstantOk(ch, d.kind.v);
    var a := AllocConstant(ch, d.kind.v);
    if a.Ok? {
      ReserveCharged(a.value.1);
      SequelDry(ch, 0, {d.kind.v}, false, ChunkOf(a), base + 1, ChunkOf(ReserveReg(a.value.1)));
    } else {
      SequelDry(ch, 0, {d.kind.v}, false, ChunkOf(a), base + 1, ChunkOf(a));
    }
  }

  lemma PreparedCharged(ch: Chunk, start: nat, base: nat, d: Desc, s: Summary)
    requires WellFormed(ch, start, base, d) && Matches(ch, d, s) && !(d.kind.InReg? && !HasJumps(d))
    ensures Charged(ch, DischargeTop(base, s), LiteralLoads(s), false, PreparedChunk(Prepared(ch, d)))
    ensures Prepared(ch, d).Ok? ==> ch.tape <= Prepared(ch, d).value.2.tape
  {
    match d.kind {
      case Literal(_) =>
        LoadCharged(ch, start, base, d);
        LoadLiteralShape(ch, start, base, d);
      case InReg(r) =>
        if r < ch.nactvar { ReserveCharged(ch); } else { Free(ch, ch); }
      case Jump(_) => ReserveCharged(ch);
    }
  }

  lemma ResolveCharged(ch: Chunk, start: nat, d: Desc, dst: nat, isJump: bool)
    requires ListsOk(ch.tape, start, |ch.tape|, d.tl, d.fl)
    ensures var needs := NeedValue(ch.tape, d.tl) || NeedValue(ch.tape, d.fl);
      Charged(ch, 0, if needs then {Bool(true)} else {}, false, ResolveLists(ch, d, dst, isJump))
  {
    ListsPatchable(ch.tape, start, d.tl, d.fl);
    if NeedValue(ch.tape, d.tl) || NeedValue(ch.tape, d.fl) {
      AllocCharged(ch, Bool(true));
    } else {
      Free(ch, ResolvePlain(ch, d, dst));
    }
  }

  /** Whether the prepared description needs the boolean tail. */
  lemma PreparedNeeds(ch: Chunk, start: nat, base: nat, d: Desc, s: Summary)
    requires WellFormed(ch, start, base, d) && Matches(ch, d, s) && Prepared(ch, d).Ok?
    requires ch.tape <= Prepared(ch, d).value.2.tape
    ensures var (d2, dst, c2) := Prepared(ch, d).value;
      && (NeedValue(c2.tape, d2.tl) || NeedValue(c2.tape, d2.fl) <==> TailLoads(s) != {})
      && (HasJumps(d2) <==> s.place.AComparison? || !s.tl.Empty? || !s.fl.Empty?)
  {
    var (d2, dst, c2) := Prepared(ch, d).value;
    PreparedOk(ch, start, base, d);
    BothKept(ch, c2, start, base, d);
  }

  lemma DischargeCharged(ch: Chunk, start: nat, base: nat, d: Desc, s: Summary)
    requires WellFormed(ch, start, base, d) && Matches(ch, d, s)
    ensures Charged(ch, DischargeTop(base, s), Loaded(s), false, ChunkOf(Discharge(ch, d)))
    ensures Discharge(ch, d).Ok? ==> Discharge(ch, d).value.1.freereg == base + Taken(s)
  {
    DischargeCases(ch, start, base, d);
    if d.kind.InReg? && !HasJumps(d) {
      Free(ch, ch);
    } else {
      PreparedCharged(ch, start, base, d, s);
      PreparedOk(ch, start, base, d);
      var p := Prepared(ch, d);
      assert Loaded(s) == LiteralLoads(s) + TailLoads(s);
      if p.Ok? {
        PreparedNeeds(ch, start, base, d, s);
        DischargeResolves(ch, start, base, d, s);
      } else {
        Sequel(ch, DischargeTop(base, s), LiteralLoads(s), false, PreparedChunk(p), 0, TailLoads(s), false,
          ChunkOf(Discharge(ch, d)));
      }
    }
  }

  lemma DischargeResolves(ch: Chunk, start: nat, base: nat, d: Desc, s: Summary)
    requires WellFormed(ch, start, base, d) && Matches(ch, d, s) && !(d.kind.InReg? && !HasJumps(d))
    requires Prepared(ch, d).Ok? && ch.tape <= Prepared(ch, d).value.2.tape
    requires Charged(ch, DischargeTop(base, s), LiteralLoads(s), false, PreparedChunk(Prepared(ch, d)))
    ensures Charged(ch, DischargeTop(base, s), LiteralLoads(s) + TailLoads(s), false, ChunkOf(Discharge(ch, d)))
    ensures Discharge(ch, d).Ok? ==> Discharge(ch, d).value.1.freereg == base + Taken(s)
  {
    DischargeCases(ch, start, base, d);
    PreparedOk(ch, start, base, d);
    PreparedNeeds(ch, start, base, d, s);
    var (d2, dst, c2) := Prepared(ch, d).value;
    if HasJumps(d2) {
      ResolveCharged(c2, start, d2, dst, d.kind.Jump?);
      ResolveShape(c2, d2, dst, d.kind.Jump?, start);
    } else {
      Free(c2, c2);
    }
    Sequel(ch, DischargeTop(base, s), LiteralLoads(s), false, Ok(c2), 0, TailLoads(s), false,
      ChunkOf(Discharge(ch, d)));
  }

  // ----- going by truth -----

  ghost predicate GoneAs(c: Chunk, d: Desc, want: bool, p: Pending) {
    StateOf(c.tape, Leave(d, want)) == p
  }

  lemma GoRegCharged(ch: Chunk, start: nat, base: nat, d: Desc, want: bool, s: Summary)
    requires WellFormed(ch, start, base, d) && Matches(ch, d, s) && d.kind.InReg?
    ensures Charged(ch, 0, {}, false, ChunkOf(GoIf(ch, d, want)))
    ensures GoIf(ch, d, want).Ok? ==>
      GoneAs(GoIf(ch, d, want).value.1, GoIf(ch, d, want).value.0, want, Join(LeaveList(s, want), Preserving))
  {
    GoRegIs(ch, start, base, d, d.kind.r, want);
    var (d1, c1) := GoIf(ch, d, want).value;
    Free(ch, c1);
    BothKept(ch, c1, start, base, d);
    StatesJoin(c1.tape, Leave(d, want), [|ch.tape| + 1]);
    StateOfLast(c1.tape, |ch.tape| + 1);
  }

  lemma GoHeadCharged(ch: Chunk, start: nat, base: nat, d: Desc, want: bool)
    requires WellFormed(ch, start, base, d) && d.kind.Jump?
    ensures Charged(ch, 0, {}, false, ChunkOf(GoIf(ch, d, want)))
    ensures GoIf(ch, d, want).Ok? ==> GoneAs(GoIf(ch, d, want).value.1, GoIf(ch, d, want).value.0, want, Needing)
  {
    GoHeadIs(ch, start, d, want);
    var (d1, c1) := GoIf(ch, d, want).value;
    Free(ch, c1);
    StatesJoin(c1.tape, Leave(d, want), [|ch.tape| - 1]);
    StateOfLast(c1.tape, |ch.tape| - 1);
  }

  lemma LoadedThenTested(ch: Chunk, d: Desc, want: bool)
    requires d.kind.Literal? && Truthy(d.kind.v) != want
    ensures GoIf(ch, d, want) ==
      match Discharge(ch, d) {
        case Err(f) => Err(f)
        case Ok((r, c)) => GoIf(c, Desc(InReg(r), [], []), want)
      }
  {
  }

  lemma LoadedShape(ch: Chunk, start: nat, base: nat, d: Desc)
    requires WellFormed(ch, start, base, d) && Discharge(ch, d).Ok?
    ensures var (r, c) := Discharge(ch, d).value;
      WellFormed(c, start, base, Desc(InReg(r), [], []))
  {
    DischargeOk(ch, start, base, d);
    assert Elems([]) + Elems([]) == {};
  }

  function InPlace(c: Chunk, r: nat): Summary {
    Summary(if r < c.nactvar then ALocal else ATemporary, Empty, Empty)
  }

  lemma GoLoadedCharged(ch: Chunk, start: nat, base: nat, d: Desc, want: bool)
    requires WellFormed(ch, start, base, d) && Discharge(ch, d).Ok?
    ensures var (r, c) := Discharge(ch, d).value;
      var g := GoIf(c, Desc(InReg(r), [], []), want);
      Charged(c, 0, {}, false, ChunkOf(g)) && (g.Ok? ==> GoneAs(g.value.1, g.value.0, want, Preserving))
  {
    var (r, c) := Discharge(ch, d).value;
    LoadedShape(ch, start, base, d);
    GoRegCharged(c, start, base, Desc(InReg(r), [], []), want, InPlace(c, r));
  }

  /** A literal that goes the wrong way is loaded and tested. */
  lemma GoLiteralCharged(ch: Chunk, start: nat, base: nat, d: Desc, want: bool, s: Summary)
    requires WellFormed(ch, start, base, d) && Matches(ch, d, s) && Rejected(s, want)
    ensures Charged(ch, base + 1, Loaded(s), false, ChunkOf(GoIf(ch, d, want)))
    ensures GoIf(ch, d, want).Ok? ==> GoneAs(GoIf(ch, d, want).value.1, GoIf(ch, d, want).value.0, want, Preserving)
  {
    var x, g := Discharge(ch, d), GoIf(ch, d, want);
    DischargeCharged(ch, start, base, d, s);
    LoadedThenTested(ch, d, want);
    if x.Ok? {
      GoLoadedCharged(ch, start, base, d, want);
    }
    SequelDry(ch, base + 1, Loaded(s), false, ChunkOf(x), 0, ChunkOf(g));
  }

  lemma GoCharged(ch: Chunk, start: nat, base: nat, d: Desc, want: bool, s: Summary)
    requires WellFormed(ch, start, base, d) && Matches(ch, d, s)
    ensures Charged(ch, Top(base, TestNeed(s, want)), TestLoads(s, want), false, ChunkOf(GoIf(ch, d, want)))
    ensures GoIf(ch, d, want).Ok? ==>
      GoneAs(GoIf(ch, d, want).value.1, GoIf(ch, d, want).value.0, want, Leaving(s, want))
  {
    match d.kind {
      case InReg(_) => GoRegCharged(ch, start, base, d, want, s);
      case Jump(_) => GoHeadCharged(ch, start, base, d, want);
      case Literal(v) =>
        if Truthy(v) != want { GoLiteralCharged(ch, start, base, d, want, s); } else { Free(ch, ch); }
    }
  }

  /** Bringing one list here leaves the controls of the other alone. */
  lemma {:induction false} PatchToHereKeeps(ch: Chunk, start: nat, stay: seq<nat>, leave: seq<nat>)
    requires ListsOk(ch.tape, start, |ch.tape|, stay, leave) && PatchToHere(ch, stay).Ok?
    ensures var c := PatchToHere(ch, stay).value;
      forall j :: j in leave ==> 0 < j <= |ch.tape| && j <= |c.tape| && c.tape[j - 1] == ch.tape[j - 1]
    decreases |stay|
  {
    PatchToHereStep(ch, stay);
    ListsLow(ch.tape, start, |ch.tape|, stay, leave);
    if Elides(ch, stay) {
      ElidedShape(ch, start, stay, leave);
      var e, l := ElidedChunk(ch), ElidedList(ch, stay);
      ListsLow(e.tape, start, |e.tape|, l, leave);
      PatchToHereKeeps(e, start, l, leave);
    } else {
      PatchToShape(ch, start, stay, leave);
    }
  }

  lemma LeftCharged(ch: Chunk, start: nat, base: nat, d: Desc, want: bool, s: Summary)
    requires WellFormed(ch, start, base, d) && Matches(ch, d, s)
    ensures Charged(ch, Top(base, TestNeed(s, want)), TestLoads(s, want), false, ChunkOf(Left(ch, d, want)))
    ensures Left(ch, d, want).Ok? ==>
      GoneAs(Left(ch, d, want).value.1, Left(ch, d, want).value.0, want, Leaving(s, want))
  {
    var g := GoIf(ch, d, want);
    GoCharged(ch, start, base, d, want, s);
    GoIfShape(ch, start, base, d, want);
    if g.Ok? {
      var (d1, c1) := g.value;
      PatchToHereShape(c1, start, Stay(d1, want), Leave(d1, want));
      PatchToHereKeeps(c1, start, Stay(d1, want), Leave(d1, want));
      var c2 := PatchToHere(c1, Stay(d1, want)).value;
      StateKept(c1.tape, c2.tape, Leave(d1, want));
    }
  }

  // ----- not -----

  lemma DroppedStates(tape: seq<Instr>, list: seq<nat>, s: Pending)
    requires s.Empty? <==> list == []
    requires forall j :: j in list ==> 0 < j <= |tape| && !tape[j - 1].TESTSET?
    ensures StateOf(tape, list) == Dropped(s)
  {
    if list != [] { assert list[0] in list; }
  }

  lemma BeforeCharged(ch: Chunk, start: nat, base: nat, d: Desc, s: Summary)
    requires WellFormed(ch, start, base, d) && Matches(ch, d, s)
    ensures Charged(ch, Top(base, NotNeed(s)), {}, false, ChunkOf(BeforeCodeNot(ch, d)))
    ensures BeforeCodeNot(ch, d).Ok? ==>
      PlaceIs(BeforeCodeNot(ch, d).value.1, BeforeCodeNot(ch, d).value.0, Negation(s).place)
  {
    match d.kind {
      case InReg(src) =>
        GoRegShape(ch, start, base, d, src, true);
        ReserveCharged(ch.(freereg := base));
      case Jump(_) => Free(ch, BeforeCodeNot(ch, d).value.1);
      case Literal(_) => Free(ch, ch);
    }
  }

  lemma NotCharged(ch: Chunk, start: nat, base: nat, d: Desc, s: Summary)
    requires WellFormed(ch, start, base, d) && Matches(ch, d, s)
    ensures Charged(ch, Top(base, NotNeed(s)), {}, false, ChunkOf(CompileNot(ch, d)))
    ensures CompileNot(ch, d).Ok? ==> Matches(CompileNot(ch, d).value.1, CompileNot(ch, d).value.0, Negation(s))
  {
    NotCases(ch, start, base, d);
    BeforeCharged(ch, start, base, d, s);
    BeforeShape(ch, start, base, d);
    if BeforeCodeNot(ch, d).Ok? {
      var (kind, c) := BeforeCodeNot(ch, d).value;
      DowngradedShape(c.tape, start, End(c, d.(kind := kind)), d);
      var t := Downgraded(c.tape, d);
      forall j | j in d.tl || j in d.fl ensures j in Pend(d) {}
      DroppedStates(t, d.fl, s.fl);
      DroppedStates(t, d.tl, s.tl);
    }
  }

  // ----- expressions -----

  lemma TempsNeed(e: Expr)
    ensures SummaryOf(e).place.ATemporary? ==> ExprNeed(e) > 0
  {
    match e {
      case And(x, y) => TempsNeed(y);
      case Or(x, y) => TempsNeed(y);
      case Paren(x) => TempsNeed(x);
      case _ =>
    }
  }

  /** The account of an expression compiled from register `base` on. */
  ghost predicate ExprPaid(ch: Chunk, e: Expr, r: Result<(Desc, Chunk)>) {
    && Charged(ch, Top(ch.freereg, ExprNeed(e)), ExprLoads(e), false, ChunkOf(r))
    && (r.Ok? ==> Matches(r.value.1, r.value.0, SummaryOf(e)))
  }

  lemma {:induction false} ExprCharged(ch: Chunk, e: Expr)
    requires Room(ch) && WellScoped(e, ch.nactvar)
    ensures ExprPaid(ch, e, CompileExpr(ch, e))
    decreases e, 2
  {
    match e {
      case Local(_) => Free(ch, ch);
      case Const(_) => Free(ch, ch);
      case Paren(x) => ExprCharged(ch, x);
      case Not(x) =>
        var r := CompileExpr(ch, x);
        ExprCharged(ch, x);
        ExprShape(ch, x);
        if r.Ok? { NotCharged(r.value.1, |ch.tape|, ch.freereg, r.value.0, SummaryOf(x)); }
        TopMax(ch.freereg, ExprNeed(x), NotNeed(SummaryOf(x)));
        SequelDry(ch, Top(ch.freereg, ExprNeed(x)), ExprLoads(x), false, ChunkOf(r),
          Top(ch.freereg, NotNeed(SummaryOf(x))), ChunkOf(CompileExpr(ch, e)));
      case And(x, y) => LogicCharged(ch, true, x, y);
      case Or(x, y) => LogicCharged(ch, false, x, y);
      case Compare(op, x, y) => CompareCharged(ch, op, x, y);
    }
  }

  /** A left operand or a condition. */
  function LeftOperand(ch: Chunk, x: Expr, want: bool): Result<(Desc, Chunk)> {
    var (d, c) :- CompileExpr(ch, x);
    Left(c, d, want)
  }

  lemma OperandShape(ch: Chunk, x: Expr, want: bool)
    requires Room(ch) && WellScoped(x, ch.nactvar) && LeftOperand(ch, x, want).Ok?
    ensures var (d1, c2) := LeftOperand(ch, x, want).value;
      && Follows(ch, c2, |ch.tape|) && c2.freereg == ch.freereg
      && ListsOk(c2.tape, |ch.tape|, |c2.tape|, [], Leave(d1, want))
  {
    var (d, c) := CompileExpr(ch, x).value;
    ExprShape(ch, x);
    LeftShape(c, |ch.tape|, ch.freereg, d, want);
    FollowsTrans(ch, c, Left(c, d, want).value.1, |ch.tape|, |ch.tape|);
  }

  lemma OperandSplits(ch: Chunk, x: Expr, want: bool)
    ensures var e := CompileExpr(ch, x);
      LeftOperand(ch, x, want) == if e.Err? then Err(e.fail) else Left(e.value.1, e.value.0, want)
  {
  }

  lemma TopMax(base: nat, m: nat, n: nat)
    ensures Top(base, Max(m, n)) == Max(Top(base, m), Top(base, n))
  {
  }

  lemma {:induction false} OperandCharged(ch: Chunk, x: Expr, want: bool)
    requires Room(ch) && WellScoped(x, ch.nactvar)
    ensures var r := LeftOperand(ch, x, want);
      && Charged(ch, Top(ch.freereg, LeftNeed(x, want)), LeftLoads(x, want), false, ChunkOf(r))
      && (r.Ok? ==> GoneAs(r.value.1, r.value.0, want, Leaving(SummaryOf(x), want)))
    decreases x, 3
  {
    var base, s, e := ch.freereg, SummaryOf(x), CompileExpr(ch, x);
    ExprCharged(ch, x);
    ExprShape(ch, x);
    OperandSplits(ch, x, want);
    if e.Ok? {
      LeftCharged(e.value.1, |ch.tape|, base, e.value.0, want, s);
    }
    TopMax(base, ExprNeed(x), TestNeed(s, want));
    Sequel(ch, Top(base, ExprNeed(x)), ExprLoads(x), false, ChunkOf(e), Top(base, TestNeed(s, want)),
      TestLoads(s, want), false, ChunkOf(LeftOperand(ch, x, want)));
  }

  function RightOperand(c: Chunk, y: Expr, want: bool, leave: seq<nat>): Result<(Desc, Chunk)> {
    var (d3, c3) :- CompileExpr(c, y);
    Ok((Joined(d3, want, leave), c3))
  }

  lemma LogicSplits(ch: Chunk, want: bool, x: Expr, y: Expr)
    ensures var l, r := LeftOperand(ch, x, want), CompileExpr(ch, Logic(want, x, y));
      r == if l.Err? then Err(l.fail) else RightOperand(l.value.1, y, want, Leave(l.value.0, want))
  {
    LogicCases(ch, want, x, y);
  }

  lemma LogicSums(want: bool, x: Expr, y: Expr)
    ensures ExprNeed(Logic(want, x, y)) == Max(LeftNeed(x, want), ExprNeed(y))
    ensures SummaryOf(Logic(want, x, y)) == Both(Leaving(SummaryOf(x), want), want, SummaryOf(y))
  {
  }

  lemma LogicLoads(want: bool, x: Expr, y: Expr)
    ensures ExprLoads(Logic(want, x, y)) == LeftLoads(x, want) + ExprLoads(y)
  {
    if want {
      assert Logic(want, x, y) == And(x, y);
    } else {
      assert Logic(want, x, y) == Or(x, y);
    }
  }

  /** The right operand of a connective, behind the left. */
  lemma {:induction false} RightCharged(c2: Chunk, start: nat, want: bool, leave: seq<nat>, left: Pending, y: Expr)
    requires Room(c2) && WellScoped(y, c2.nactvar) && ListsOk(c2.tape, start, |c2.tape|, [], leave)
    requires StateOf(c2.tape, leave) == left
    ensures var r := RightOperand(c2, y, want, leave);
      && Charged(c2, Top(c2.freereg, ExprNeed(y)), ExprLoads(y), false, ChunkOf(r))
      && (r.Ok? ==> Matches(r.value.1, r.value.0, Both(left, want, SummaryOf(y))))
    decreases y, 4
  {
    ExprCharged(c2, y);
    if CompileExpr(c2, y).Ok? {
      var (d3, c3) := CompileExpr(c2, y).value;
      assert c2.tape <= c3.tape by {
        ExprShape(c2, y);
        FollowsExtends(c2, c3);
      }
      JoinedMatches(c2, c3, start, d3, want, leave, left, SummaryOf(y));
    }
  }

  lemma {:induction false} LogicCharged(ch: Chunk, want: bool, x: Expr, y: Expr)
    requires Room(ch) && WellScoped(x, ch.nactvar) && WellScoped(y, ch.nactvar)
    ensures ExprPaid(ch, Logic(want, x, y), CompileExpr(ch, Logic(want, x, y)))
    decreases Logic(want, x, y), 0
  {
    var base, l, r := ch.freereg, LeftOperand(ch, x, want), CompileExpr(ch, Logic(want, x, y));
    LogicSplits(ch, want, x, y);
    LogicSums(want, x, y);
    LogicLoads(want, x, y);
    OperandCharged(ch, x, want);
    if l.Ok? {
      var (d1, c2) := l.value;
      OperandShape(ch, x, want);
      RightCharged(c2, |ch.tape|, want, Leave(d1, want), Leaving(SummaryOf(x), want), y);
    }
    TopMax(base, LeftNeed(x, want), ExprNeed(y));
    Sequel(ch, Top(base, LeftNeed(x, want)), LeftLoads(x, want), false, ChunkOf(l),
      Top(base, ExprNeed(y)), ExprLoads(y), false, ChunkOf(r));
  }

  lemma JoinedMatches(c2: Chunk, c3: Chunk, start: nat, d: Desc, want: bool, leave: seq<nat>, left: Pending, s: Summary)
    requires ListsOk(c2.tape, start, |c2.tape|, [], leave) && c2.tape <= c3.tape
    requires StateOf(c2.tape, leave) == left && Matches(c3, d, s)
    ensures Matches(c3, Joined(d, want, leave), Both(left, want, s))
  {
    ListsLow(c2.tape, start, |c2.tape|, [], leave);
    StateKept(c2.tape, c3.tape, leave);
    StatesJoin(c3.tape, if want then d.fl else d.tl, leave);
  }

  lemma RegSplits(ch: Chunk, e: Expr)
    ensures var x := CompileExpr(ch, e);
      CompileToReg(ch, e) == if x.Err? then Err(x.fail) else Discharge(x.value.1, x.value.0)
  {
  }

  lemma RegTop(base: nat, e: Expr)
    ensures Top(base, RegNeed(e)) == Max(Top(base, ExprNeed(e)), DischargeTop(base, SummaryOf(e)))
  {
    TempsNeed(e);
  }

  lemma {:induction false} RegCharged(ch: Chunk, e: Expr)
    requires Room(ch) && WellScoped(e, ch.nactvar)
    ensures Charged(ch, Top(ch.freereg, RegNeed(e)), RegLoads(e), false, ChunkOf(CompileToReg(ch, e)))
    ensures CompileToReg(ch, e).Ok? ==> CompileToReg(ch, e).value.1.freereg == ch.freereg + Taken(SummaryOf(e))
    decreases e, 3
  {
    var base, s, x := ch.freereg, SummaryOf(e), CompileExpr(ch, e);
    ExprCharged(ch, e);
    RegSplits(ch, e);
    if x.Ok? {
      ExprShape(ch, e);
      DischargeCharged(x.value.1, |ch.tape|, base, x.value.0, s);
    }
    RegTop(base, e);
    Sequel(ch, Top(base, ExprNeed(e)), ExprLoads(e), false, ChunkOf(x), DischargeTop(base, s), Loaded(s), false,
      ChunkOf(CompileToReg(ch, e)));
  }

  lemma CompareFails(ch: Chunk, op: Comparison, x: Expr, y: Expr)
    requires CompileToReg(ch, x).Err?
    ensures CompileExpr(ch, Compare(op, x, y)) == Err(CompileToReg(ch, x).fail)
  {
  }

  lemma CompareFailsRight(ch: Chunk, op: Comparison, x: Expr, y: Expr, l: nat, c1: Chunk)
    requires CompileToReg(ch, x) == Ok((l, c1)) && CompileToReg(c1, y).Err?
    ensures CompileExpr(ch, Compare(op, x, y)) == Err(CompileToReg(c1, y).fail)
  {
  }

  /** The second operand of a comparison, and the comparison itself. */
  function SecondOperand(c1: Chunk, op: Comparison, y: Expr, l: nat, base: nat): Result<(Desc, Chunk)> {
    var (r, c2) :- CompileToReg(c1, y);
    Ok((ComparedDesc(c2), Compared(c2, op, l, r, base)))
  }

  lemma FirstOperand(ch: Chunk, x: Expr, l: nat, c1: Chunk)
    requires Room(ch) && WellScoped(x, ch.nactvar) && CompileToReg(ch, x) == Ok((l, c1))
    ensures Room(c1) && c1.nactvar == ch.nactvar && RegOk(c1, ch.freereg, Desc(InReg(l), [], []))
  {
    RegShape(ch, x);
  }

  lemma SecondCompared(ch: Chunk, op: Comparison, x: Expr, y: Expr, l: nat, c1: Chunk, r: nat, c2: Chunk)
    requires CompileToReg(ch, x) == Ok((l, c1)) && CompileToReg(c1, y) == Ok((r, c2)) && c2.nactvar == c1.nactvar
    requires RegOk(c1, ch.freereg, Desc(InReg(l), [], [])) && RegOk(c2, c1.freereg, Desc(InReg(r), [], []))
    ensures CompileExpr(ch, Compare(op, x, y)) == Ok((ComparedDesc(c2), Compared(c2, op, l, r, ch.freereg)))
  {
    CompareCase(ch, op, x, y, l, c1, r, c2);
    RegsCompared(c1, c2, op, ch.freereg, l, r);
  }

  lemma CompareSplits(ch: Chunk, op: Comparison, x: Expr, y: Expr, l: nat, c1: Chunk)
    requires Room(ch) && WellScoped(x, ch.nactvar) && WellScoped(y, ch.nactvar) && CompileToReg(ch, x) == Ok((l, c1))
    ensures Room(c1) && c1.nactvar == ch.nactvar
    ensures CompileExpr(ch, Compare(op, x, y)) == SecondOperand(c1, op, y, l, ch.freereg)
  {
    FirstOperand(ch, x, l, c1);
    if CompileToReg(c1, y).Ok? {
      var (r, c2) := CompileToReg(c1, y).value;
      FirstOperand(c1, y, r, c2);
      SecondCompared(ch, op, x, y, l, c1, r, c2);
    } else {
      CompareFailsRight(ch, op, x, y, l, c1);
    }
  }

  lemma {:induction false} SecondCharged(c1: Chunk, op: Comparison, y: Expr, l: nat, base: nat)
    requires Room(c1) && WellScoped(y, c1.nactvar)
    ensures var r := SecondOperand(c1, op, y, l, base);
      && Charged(c1, Top(c1.freereg, RegNeed(y)), RegLoads(y), false, ChunkOf(r))
      && (r.Ok? ==> Matches(r.value.1, r.value.0, Summary(AComparison, Empty, Empty)))
    decreases y, 4
  {
    RegCharged(c1, y);
  }

  lemma {:induction false} CompareAccount(ch: Chunk, op: Comparison, x: Expr, y: Expr, r: Result<(Desc, Chunk)>)
    requires Room(ch) && WellScoped(x, ch.nactvar) && WellScoped(y, ch.nactvar)
    requires r == CompileExpr(ch, Compare(op, x, y))
    ensures Charged(ch, Max(Top(ch.freereg, RegNeed(x)), Top(ch.freereg + Taken(SummaryOf(x)), RegNeed(y))),
      RegLoads(x) + RegLoads(y), false, ChunkOf(r))
    ensures r.Ok? ==> Matches(r.value.1, r.value.0, Summary(AComparison, Empty, Empty))
    decreases Compare(op, x, y), 0
  {
    var a := CompileToReg(ch, x);
    RegCharged(ch, x);
    if a.Ok? {
      CompareSplits(ch, op, x, y, a.value.0, a.value.1);
      SecondCharged(a.value.1, op, y, a.value.0, ch.freereg);
    } else {
      CompareFails(ch, op, x, y);
    }
    Sequel(ch, Top(ch.freereg, RegNeed(x)), RegLoads(x), false, ChunkOf(a),
      Top(ch.freereg + Taken(SummaryOf(x)), RegNeed(y)), RegLoads(y), false, ChunkOf(r));
  }

  lemma {:induction false} CompareCharged(ch: Chunk, op: Comparison, x: Expr, y: Expr)
    requires Room(ch) && WellScoped(x, ch.nactvar) && WellScoped(y, ch.nactvar)
    ensures ExprPaid(ch, Compare(op, x, y), CompileExpr(ch, Compare(op, x, y)))
    decreases Compare(op, x, y), 1
  {
    var r := CompileExpr(ch, Compare(op, x, y));
    CompareAccount(ch, op, x, y, r);
    CompareTop(ch.freereg, op, x, y);
  }

  lemma CompareTop(base: nat, op: Comparison, x: Expr, y: Expr)
    ensures Top(base, ExprNeed(Compare(op, x, y))) ==
            Max(Top(base, RegNeed(x)), Top(base + Taken(SummaryOf(x)), RegNeed(y)))
    ensures ExprLoads(Compare(op, x, y)) == RegLoads(x) + RegLoads(y)
  {
  }

  // ----- in round numbers -----

  /** How deep comparisons nest in right operands of comparisons. */
  function Nesting(e: Expr): nat {
    match e
    case Local(_) => 0
    case Const(_) => 0
    case Paren(x) => Nesting(x)
    case Not(x) => Nesting(x)
    case And(x, y) => Max(Nesting(x), Nesting(y))
    case Or(x, y) => Max(Nesting(x), Nesting(y))
    case Compare(_, x, y) => Max(Nesting(x), 1 + Nesting(y))
  }

  function Literals(e: Expr): set<Value> {
    match e
    case Local(_) => {}
    case Const(v) => {v}
    case Paren(x) => Literals(x)
    case Not(x) => Literals(x)
    case And(x, y) => Literals(x) + Literals(y)
    case Or(x, y) => Literals(x) + Literals(y)
    case Compare(_, x, y) => Literals(x) + Literals(y)
  }

  /** Only comparisons on the right of comparisons take more than one temporary. */
  lemma {:induction false} NeedIsShallow(e: Expr)
    ensures ExprNeed(e) <= RegNeed(e) <= Nesting(e) + 1
  {
    match e {
      case And(x, y) => NeedIsShallow(x); NeedIsShallow(y);
      case Or(x, y) => NeedIsShallow(x); NeedIsShallow(y);
      case Not(x) => NeedIsShallow(x);
      case Paren(x) => NeedIsShallow(x);
      case Compare(_, x, y) => NeedIsShallow(x); NeedIsShallow(y);
      case _ =>
    }
  }

  lemma {:induction false} LiteralIsWritten(e: Expr)
    ensures SummaryOf(e).place.ALiteral? ==> SummaryOf(e).place.v in Literals(e) + {Bool(true), Bool(false)}
  {
    match e {
      case And(x, y) => LiteralIsWritten(y);
      case Or(x, y) => LiteralIsWritten(y);
      case Not(x) =>
      case Paren(x) => LiteralIsWritten(x);
      case _ =>
    }
  }

  /** No constant is loaded that is neither written in the source nor a boolean. */
  lemma {:induction false} LoadsAreWritten(e: Expr)
    ensures ExprLoads(e) <= RegLoads(e) <= Literals(e) + {Bool(true), Bool(false)}
  {
    LiteralIsWritten(e);
    match e {
      case And(x, y) => LoadsAreWritten(x); LoadsAreWritten(y);
      case Or(x, y) => LoadsAreWritten(x); LoadsAreWritten(y);
      case Not(x) => LoadsAreWritten(x);
      case Paren(x) => LoadsAreWritten(x);
      case Compare(_, x, y) => LoadsAreWritten(x); LoadsAreWritten(y);
      case _ =>
    }
  }
}
