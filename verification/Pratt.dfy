/** Pratt parsing of operator expressions, as functions on token sequences. */
module Pratt {
  import opened Prelude

  /** Operator tokens; some are infix, some prefix, some both. */
  datatype Op =
    | OR | AND | LT | GT | LE | GE | NE | EQ | BAR | TILDE | AMP | SHL | SHR | CONCAT
    | PLUS | MINUS | STAR | SLASH | DSLASH | PERCENT | CARET | NOT | HASH

  /** `Suffix` stands for the tokens that go on with a call or an index other than `(`. */
  datatype Token = Ident(id: nat) | Literal(id: nat) | LParen | RParen | Operator(op: Op) | Suffix | Other

  datatype Tree =
    | Name(id: nat)
    | Value(id: nat)
    | Paren(e: Tree)
    | Unary(op: Op, e: Tree)
    | Binary(op: Op, l: Tree, r: Tree)

  const PREFIX := 21

  predicate IsPrefix(op: Op) {
    op.NOT? || op.PLUS? || op.MINUS? || op.HASH? || op.TILDE?
  }

  /** How strongly an infix operator binds to its left and to its right. */
  function Infix(op: Op): Option<(nat, nat)> {
    match op
    case OR => Some((1, 2))
    case AND => Some((3, 4))
    case LT => Some((5, 6))
    case GT => Some((5, 6))
    case LE => Some((5, 6))
    case GE => Some((5, 6))
    case NE => Some((5, 6))
    case EQ => Some((5, 6))
    case BAR => Some((7, 8))
    case TILDE => Some((9, 10))
    case AMP => Some((11, 12))
    case SHL => Some((13, 14))
    case SHR => Some((13, 14))
    case CONCAT => Some((16, 15))
    case PLUS => Some((17, 18))
    case MINUS => Some((17, 18))
    case STAR => Some((19, 20))
    case SLASH => Some((19, 20))
    case DSLASH => Some((19, 20))
    case PERCENT => Some((19, 20))
    case CARET => Some((22, 21))
    case NOT => None
    case HASH => None
  }

  // ----- parsing -----

  type Tokens = seq<Token>

  /** `r_expr_lhs`, for the tokens that start an operator expression. */
  function ParseLhs(toks: Tokens): (r: Option<(Tree, Tokens)>)
    ensures r.Some? ==> |r.value.1| < |toks|
    decreases |toks|, 0
  {
    if toks == [] then None
    else
      match toks[0]
      case Ident(id) => Some((Name(id), toks[1..]))
      case Literal(id) => Some((Value(id), toks[1..]))
      case LParen =>
        (match ParseExpr(toks[1..], 0)
         case Some((e, rest)) => if rest != [] && rest[0] == RParen then Some((Paren(e), rest[1..])) else None
         case None => None)
      case Operator(op) =>
        if !IsPrefix(op) then None
        else
          (match ParseExpr(toks[1..], PREFIX)
           case Some((e, rest)) => Some((Unary(op, e), rest))
           case None => None)
      case _ => None
  }

  /** `r_expr_inner`. */
  function ParseExpr(toks: Tokens, minBp: nat): (r: Option<(Tree, Tokens)>)
    ensures r.Some? ==> |r.value.1| < |toks|
    decreases |toks|, 2
  {
    match ParseLhs(toks)
    case None => None
    case Some((lhs, rest)) => ParseLoop(lhs, rest, minBp)
  }

  /** Its loop: infix operators that bind strongly enough are taken up, one after the other. */
  function ParseLoop(lhs: Tree, toks: Tokens, minBp: nat): (r: Option<(Tree, Tokens)>)
    ensures r.Some? ==> |r.value.1| <= |toks|
    decreases |toks|, 1
  {
    if toks == [] then Some((lhs, toks))
    else
      match toks[0]
      case LParen => None
      case Suffix => None
      case Operator(op) =>
        if Infix(op).None? || Infix(op).value.0 < minBp then Some((lhs, toks))
        else
          (match ParseExpr(toks[1..], Infix(op).value.1)
           case None => None
           case Some((rhs, rest)) => ParseLoop(Binary(op, lhs, rhs), rest, minBp))
      case _ => Some((lhs, toks))
  }

  // ----- trees that respect the binding powers -----

  function Yield(t: Tree): Tokens {
    match t
    case Name(id) => [Ident(id)]
    case Value(id) => [Literal(id)]
    case Paren(e) => [LParen] + Yield(e) + [RParen]
    case Unary(op, e) => [Operator(op)] + Yield(e)
    case Binary(op, l, r) => Yield(l) + ([Operator(op)] + Yield(r))
  }

  const TIGHT := 99

  function Min(a: nat, b: nat): nat {
    if a < b then a else b
  }

  /** The weakest operator that is open on the left edge of a tree. */
  function LeftBp(t: Tree): nat {
    match t
    case Binary(op, l, _) => if Infix(op).None? then 0 else Min(Infix(op).value.0, LeftBp(l))
    case _ => TIGHT
  }

  /** The weakest operator that is open on the right edge of a tree. */
  function RightBp(t: Tree): nat {
    match t
    case Binary(op, _, r) => if Infix(op).None? then 0 else Min(Infix(op).value.1, RightBp(r))
    case Unary(_, e) => Min(PREFIX, RightBp(e))
    case _ => TIGHT
  }

  /** Every operand binds at least as strongly as the operator next to it demands. */
  predicate Respects(t: Tree) {
    match t
    case Name(_) => true
    case Value(_) => true
    case Paren(e) => Respects(e)
    case Unary(op, e) => IsPrefix(op) && Respects(e) && LeftBp(e) >= PREFIX
    case Binary(op, l, r) =>
      && Infix(op).Some? && Respects(l) && Respects(r)
      && RightBp(l) > Infix(op).value.0 && LeftBp(r) >= Infix(op).value.1
  }

  /** How strongly the next token pulls on what stands before it; zero if it does not. */
  function Pull(toks: Tokens): nat {
    if toks == [] then 0
    else
      match toks[0]
      case LParen => TIGHT
      case Suffix => TIGHT
      case Operator(op) => if Infix(op).Some? then Infix(op).value.0 else 0
      case _ => 0
  }

  lemma PullBounded(toks: Tokens)
    ensures Pull(toks) <= TIGHT
  {
  }

  /** The loop stops in front of a token that pulls less than it demands. */
  lemma LoopStops(t: Tree, toks: Tokens, minBp: nat)
    requires Pull(toks) < minBp || Pull(toks) == 0
    ensures ParseLoop(t, toks, minBp) == Some((t, toks)) || minBp > TIGHT
  {
  }

  /**
   * A respecting tree is read back from its yield: parsing gets to the point where the tree is
   * the left operand and the rest is still to come.
   */
  lemma {:induction false} ParsesYield(t: Tree, rest: Tokens, minBp: nat)
    requires Respects(t) && LeftBp(t) >= minBp && minBp <= 22 && Pull(rest) < RightBp(t)
    ensures ParseExpr(Yield(t) + rest, minBp) == ParseLoop(t, rest, minBp)
    decreases t
  {
    match t {
      case Name(id) => assert (Yield(t) + rest)[1..] == rest;
      case Value(id) => assert (Yield(t) + rest)[1..] == rest;
      case Paren(e) =>
        RightPositive(e);
        ParsesYield(e, [RParen] + rest, 0);
        ParenRead(e, rest);
      case Unary(op, e) =>
        ParsesYield(e, rest, PREFIX);
        LoopStops(e, rest, PREFIX);
        UnaryRead(op, e, rest);
      case Binary(op, l, r) =>
        var more := [Operator(op)] + Yield(r) + rest;
        assert Yield(t) + rest == Yield(l) + more;
        ParsesYield(l, more, minBp);
        ParsesYield(r, rest, Infix(op).value.1);
        LoopStops(r, rest, Infix(op).value.1);
        BinaryRead(op, l, r, rest, minBp);
    }
  }

  lemma ParenRead(e: Tree, rest: Tokens)
    requires ParseExpr(Yield(e) + ([RParen] + rest), 0) == ParseLoop(e, [RParen] + rest, 0)
    ensures ParseLhs(Yield(Paren(e)) + rest) == Some((Paren(e), rest))
  {
    var more := [RParen] + rest;
    assert more[1..] == rest;
    var toks := Yield(Paren(e)) + rest;
    assert toks[1..] == Yield(e) + more;
    assert ParseLoop(e, more, 0) == Some((e, more));
  }

  lemma UnaryRead(op: Op, e: Tree, rest: Tokens)
    requires IsPrefix(op) && ParseExpr(Yield(e) + rest, PREFIX) == Some((e, rest))
    ensures ParseLhs(Yield(Unary(op, e)) + rest) == Some((Unary(op, e), rest))
  {
    var toks := Yield(Unary(op, e)) + rest;
    assert toks[1..] == Yield(e) + rest;
  }

  lemma BinaryRead(op: Op, l: Tree, r: Tree, rest: Tokens, minBp: nat)
    requires Infix(op).Some? && Infix(op).value.0 >= minBp
    requires ParseExpr(Yield(r) + rest, Infix(op).value.1) == Some((r, rest))
    ensures ParseLoop(l, [Operator(op)] + Yield(r) + rest, minBp) == ParseLoop(Binary(op, l, r), rest, minBp)
  {
    var more := [Operator(op)] + Yield(r) + rest;
    assert more[1..] == Yield(r) + rest;
  }

  lemma RightPositive(t: Tree)
    requires Respects(t)
    ensures RightBp(t) > 0
  {
  }

  /**
   * Pratt parsing inverts the yield: a respecting tree, followed by a token that is no operator, is read
   * back whole.
   */
  lemma YieldParses(t: Tree, rest: Tokens)
    requires Respects(t) && Pull(rest) == 0
    ensures ParseExpr(Yield(t) + rest, 0) == Some((t, rest))
  {
    RightPositive(t);
    ParsesYield(t, rest, 0);
    LoopStops(t, rest, 0);
  }

  /** What a parse at some level returns. */
  ghost predicate Parsed(toks: Tokens, t: Tree, rest: Tokens, minBp: nat) {
    toks == Yield(t) + rest && Respects(t) && LeftBp(t) >= minBp && Pull(rest) < RightBp(t)
  }

  ghost predicate LhsParsed(toks: Tokens, t: Tree, rest: Tokens) {
    toks == Yield(t) + rest && Respects(t) && LeftBp(t) == TIGHT && (Pull(rest) < RightBp(t) || Pull(rest) == TIGHT)
  }

  lemma ParenRespects(toks: Tokens, e: Tree, rest: Tokens)
    requires toks != [] && toks[0] == LParen && toks[1..] == Yield(e) + ([RParen] + rest) && Respects(e)
    ensures LhsParsed(toks, Paren(e), rest)
  {
    assert toks == [LParen] + toks[1..];
    PullBounded(rest);
  }

  lemma UnaryRespects(toks: Tokens, op: Op, e: Tree, rest: Tokens)
    requires toks != [] && toks[0] == Operator(op) && IsPrefix(op) && Parsed(toks[1..], e, rest, PREFIX)
    requires Pull(rest) < PREFIX || Pull(rest) == 0
    ensures LhsParsed(toks, Unary(op, e), rest)
  {
    assert toks == [Operator(op)] + toks[1..];
  }

  lemma {:induction false} LhsRespects(toks: Tokens)
    requires ParseLhs(toks).Some?
    ensures LhsParsed(toks, ParseLhs(toks).value.0, ParseLhs(toks).value.1)
    decreases |toks|, 0
  {
    var (t, rest) := ParseLhs(toks).value;
    PullBounded(rest);
    match toks[0] {
      case Ident(id) => assert toks == [Ident(id)] + rest;
      case Literal(id) => assert toks == [Literal(id)] + rest;
      case LParen =>
        ExprRespects(toks[1..], 0);
        var (e, more) := ParseExpr(toks[1..], 0).value;
        assert more == [RParen] + rest;
        ParenRespects(toks, e, rest);
      case Operator(op) =>
        ExprRespects(toks[1..], PREFIX);
        UnaryRespects(toks, op, ParseExpr(toks[1..], PREFIX).value.0, rest);
    }
  }

  lemma {:induction false} ExprRespects(toks: Tokens, minBp: nat)
    requires ParseExpr(toks, minBp).Some? && minBp <= 22
    ensures var (t, rest) := ParseExpr(toks, minBp).value;
      Parsed(toks, t, rest, minBp) && (Pull(rest) < minBp || Pull(rest) == 0)
    decreases |toks|, 2
  {
    LhsRespects(toks);
    var (lhs, more) := ParseLhs(toks).value;
    LoopRespects(toks, lhs, more, minBp);
  }

  lemma BinaryRespects(all: Tokens, op: Op, lhs: Tree, toks: Tokens, rhs: Tree, rest: Tokens, minBp: nat)
    requires all == Yield(lhs) + toks && Respects(lhs) && LeftBp(lhs) >= minBp
    requires toks != [] && toks[0] == Operator(op) && Infix(op).Some? && minBp <= Infix(op).value.0 < RightBp(lhs)
    requires Parsed(toks[1..], rhs, rest, Infix(op).value.1) && Pull(rest) < Infix(op).value.1
    ensures Parsed(all, Binary(op, lhs, rhs), rest, minBp)
  {
    assert toks == [Operator(op)] + toks[1..];
    assert all == Yield(Binary(op, lhs, rhs)) + rest;
  }

  lemma {:induction false} LoopRespects(all: Tokens, lhs: Tree, toks: Tokens, minBp: nat)
    requires ParseLoop(lhs, toks, minBp).Some? && minBp <= 22
    requires all == Yield(lhs) + toks && Respects(lhs) && LeftBp(lhs) >= minBp
    requires Pull(toks) < RightBp(lhs) || Pull(toks) == TIGHT
    ensures var (t, rest) := ParseLoop(lhs, toks, minBp).value;
      Parsed(all, t, rest, minBp) && (Pull(rest) < minBp || Pull(rest) == 0)
    decreases |toks|, 1
  {
    if toks != [] && toks[0].Operator? && Infix(toks[0].op).Some? && Infix(toks[0].op).value.0 >= minBp {
      var op := toks[0].op;
      ExprRespects(toks[1..], Infix(op).value.1);
      var (rhs, rest) := ParseExpr(toks[1..], Infix(op).value.1).value;
      BinaryRespects(all, op, lhs, toks, rhs, rest, minBp);
      LoopRespects(all, Binary(op, lhs, rhs), rest, minBp);
    }
  }

  /** Every tree returned respects the binding powers and yields exactly the consumed tokens. */
  lemma ParsesRespect(toks: Tokens)
    requires ParseExpr(toks, 0).Some?
    ensures var (t, rest) := ParseExpr(toks, 0).value; toks == Yield(t) + rest && Respects(t) && Pull(rest) == 0
  {
    ExprRespects(toks, 0);
  }

  /** A token sequence is the yield of at most one respecting tree. */
  lemma YieldUnambiguous(t: Tree, u: Tree)
    requires Respects(t) && Respects(u) && Yield(t) == Yield(u)
    ensures t == u
  {
    YieldParses(t, []);
    YieldParses(u, []);
  }

  // ----- section 3.4.8 of the Lua 5.5 manual -----

  /** Precedence levels, from lower to higher; the prefix operators stand between `*` and `^`. */
  function Level(op: Op): nat {
    match op
    case OR => 1
    case AND => 2
    case LT => 3
    case GT => 3
    case LE => 3
    case GE => 3
    case NE => 3
    case EQ => 3
    case BAR => 4
    case TILDE => 5
    case AMP => 6
    case SHL => 7
    case SHR => 7
    case CONCAT => 8
    case PLUS => 9
    case MINUS => 9
    case STAR => 10
    case SLASH => 10
    case DSLASH => 10
    case PERCENT => 10
    case CARET => 12
    case NOT => 11
    case HASH => 11
  }

  const UNARY_LEVEL := 11

  /** The binary operators of the manual. */
  const BINARY: set<Op> := {
    OR, AND, LT, GT, LE, GE, NE, EQ, BAR, TILDE, AMP, SHL, SHR, CONCAT, PLUS, MINUS, STAR, SLASH, DSLASH, PERCENT, CARET
  }

  /** The unary operators of the manual, and `+`, which the parser takes as one too. */
  const UNARY: set<Op> := {NOT, HASH, MINUS, TILDE, PLUS}

  /** The parser knows the operators of the manual and no others. */
  lemma OperatorsOfTheManual(op: Op)
    ensures Infix(op).Some? <==> op in BINARY
    ensures IsPrefix(op) <==> op in UNARY
    ensures op in BINARY <==> op != NOT && op != HASH
  {
  }

  predicate RightAssoc(op: Op) {
    op.CONCAT? || op.CARET?
  }

  /** The operators open on the left edge, and on the right edge, of a tree. */
  function LeftEdge(t: Tree): set<Op> {
    match t
    case Binary(op, l, _) => {op} + LeftEdge(l)
    case _ => {}
  }

  function RightEdge(t: Tree): set<Op> {
    match t
    case Binary(op, _, r) => {op} + RightEdge(r)
    case Unary(_, e) => RightEdge(e)
    case _ => {}
  }

  predicate OpenUnary(t: Tree) {
    match t
    case Binary(_, _, r) => OpenUnary(r)
    case Unary(_, _) => true
    case _ => false
  }

  predicate AllInfix(ops: set<Op>) {
    forall o :: o in ops ==> Infix(o).Some?
  }

  /** The manual's rules: higher levels bind first, equal levels associate to the left unless `..` or `^`. */
  ghost predicate ByTheManual(t: Tree) {
    match t
    case Name(_) => true
    case Value(_) => true
    case Paren(e) => ByTheManual(e)
    case Unary(op, e) => op in UNARY && ByTheManual(e) && forall o :: o in LeftEdge(e) ==> Level(o) > UNARY_LEVEL
    case Binary(op, l, r) =>
      && op in BINARY && ByTheManual(l) && ByTheManual(r)
      && (forall o :: o in RightEdge(l) ==> Level(o) > Level(op) || (Level(o) == Level(op) && !RightAssoc(o)))
      && (OpenUnary(l) ==> UNARY_LEVEL > Level(op))
      && (forall o :: o in LeftEdge(r) ==> Level(o) > Level(op) || (Level(o) == Level(op) && RightAssoc(o)))
  }

  lemma LeftBpOfEdge(t: Tree, bp: nat)
    requires Respects(t) && bp <= 22
    ensures LeftBp(t) >= bp <==> forall o :: o in LeftEdge(t) ==> Infix(o).Some? && Infix(o).value.0 >= bp
  {
  }

  lemma RightBpOfEdge(t: Tree, bp: nat)
    requires Respects(t) && bp <= 22
    ensures RightBp(t) > bp <==>
      (forall o :: o in RightEdge(t) ==> Infix(o).Some? && Infix(o).value.1 > bp) && (OpenUnary(t) ==> PREFIX > bp)
  {
  }

  lemma EdgesInfix(t: Tree)
    requires Respects(t)
    ensures AllInfix(LeftEdge(t)) && AllInfix(RightEdge(t))
  {
  }

  /** The binding powers of two operators compare as their levels and associativity say. */
  lemma PowersAreLevels(o: Op, p: Op)
    requires o in BINARY && p in BINARY
    ensures Infix(o).Some? && Infix(p).Some?
    ensures Infix(o).value.1 > Infix(p).value.0 <==> Level(o) > Level(p) || (Level(o) == Level(p) && !RightAssoc(o))
    ensures Infix(o).value.0 >= Infix(p).value.1 <==> Level(o) > Level(p) || (Level(o) == Level(p) && RightAssoc(o))
    ensures PREFIX > Infix(p).value.0 <==> UNARY_LEVEL > Level(p)
    ensures Infix(o).value.0 >= PREFIX <==> Level(o) > UNARY_LEVEL
  {
  }

  lemma UnaryByTheManual(op: Op, e: Tree)
    requires Respects(e) && ByTheManual(e)
    ensures Respects(Unary(op, e)) <==> ByTheManual(Unary(op, e))
  {
    LeftBpOfEdge(e, PREFIX);
    EdgesInfix(e);
    OperatorsOfTheManual(op);
    forall o | o in LeftEdge(e) ensures Infix(o).Some? && (Infix(o).value.0 >= PREFIX <==> Level(o) > UNARY_LEVEL) {
      OperatorsOfTheManual(o);
      PowersAreLevels(o, OR);
    }
  }

  lemma BinaryByTheManual(op: Op, l: Tree, r: Tree)
    requires Infix(op).Some? && Respects(l) && ByTheManual(l) && Respects(r) && ByTheManual(r)
    ensures Respects(Binary(op, l, r)) <==> ByTheManual(Binary(op, l, r))
  {
    EdgesInfix(l);
    EdgesInfix(r);
    RightBpOfEdge(l, Infix(op).value.0);
    LeftBpOfEdge(r, Infix(op).value.1);
    OperatorsOfTheManual(op);
    PowersAreLevels(op, op);
    forall o | o in RightEdge(l)
      ensures Infix(o).Some?
      ensures Infix(o).value.1 > Infix(op).value.0 <==>
                Level(o) > Level(op) || (Level(o) == Level(op) && !RightAssoc(o))
    {
      OperatorsOfTheManual(o);
      PowersAreLevels(o, op);
    }
    forall o | o in LeftEdge(r)
      ensures Infix(o).Some?
      ensures Infix(o).value.0 >= Infix(op).value.1 <==>
                Level(o) > Level(op) || (Level(o) == Level(op) && RightAssoc(o))
    {
      OperatorsOfTheManual(o);
      PowersAreLevels(o, op);
    }
  }

  /** The binding powers are the manual's precedence: trees respect the one iff they follow the other. */
  lemma {:induction false} RespectsIsByTheManual(t: Tree)
    ensures Respects(t) <==> ByTheManual(t)
    decreases t
  {
    match t {
      case Name(_) =>
      case Value(_) =>
      case Paren(e) => RespectsIsByTheManual(e);
      case Unary(op, e) =>
        RespectsIsByTheManual(e);
        if Respects(e) { UnaryByTheManual(op, e); }
      case Binary(op, l, r) =>
        RespectsIsByTheManual(l);
        RespectsIsByTheManual(r);
        OperatorsOfTheManual(op);
        if Respects(l) && Respects(r) && Infix(op).Some? { BinaryByTheManual(op, l, r); }
    }
  }

  /** No token that goes on with an operand: no call, no index and no binary operator. */
  predicate EndsExpr(rest: Tokens) {
    rest != [] ==>
      match rest[0]
      case LParen => false
      case Suffix => false
      case Operator(op) => op !in BINARY
      case _ => true
  }

  /** What the parser accepts, and as which tree, is what the manual says. */
  lemma ParsesTheManual(toks: Tokens, t: Tree, rest: Tokens)
    ensures ParseExpr(toks, 0) == Some((t, rest)) <==> toks == Yield(t) + rest && ByTheManual(t) && EndsExpr(rest)
  {
    RespectsIsByTheManual(t);
    assert EndsExpr(rest) <==> Pull(rest) == 0 by {
      if rest != [] && rest[0].Operator? { OperatorsOfTheManual(rest[0].op); }
    }
    if ParseExpr(toks, 0).Some? { ParsesRespect(toks); }
    if toks == Yield(t) + rest && Respects(t) && Pull(rest) == 0 { YieldParses(t, rest); }
  }
}
