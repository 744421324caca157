/** The parser's state: markers, events and the recursive expression methods; and the sink's loop. */
module ParserState {
  import opened Prelude
  import opened Pratt
  import S = Sink
  import opened E = ParserEvents

  const IDENT := 1
  const LITERAL_EXPR := 2
  const EXPR := 3
  const PREFIX_OP := 4
  const BIN_OP := 5

  /** The node built for an expression whose tokens are numbered from `at`. */
  function TreeNode(t: Tree, at: nat): S.Node {
    match t
    case Name(_) => S.Plain(IDENT, One(S.Tok(at)))
    case Value(_) => S.Plain(LITERAL_EXPR, One(S.Tok(at)))
    case Paren(e) =>
      S.Plain(EXPR, S.Cons(S.Tok(at), S.Cons(S.Done(TreeNode(e, at + 1)), One(S.Tok(at + 1 + |Yield(e)|)))))
    case Unary(_, e) => S.Plain(PREFIX_OP, S.Cons(S.Tok(at), One(S.Done(TreeNode(e, at + 1)))))
    case Binary(_, l, r) =>
      var mid := at + |Yield(l)|;
      S.Before(TreeNode(l, at), BIN_OP, S.Cons(S.Tok(mid), One(S.Done(TreeNode(r, mid + 1)))))
  }

  function One(p: S.Plan): S.Forest {
    S.Cons(p, S.Nil)
  }

  lemma {:induction false} TreeNodeOk(t: Tree, at: nat)
    ensures S.NodeOk(TreeNode(t, at))
    decreases t
  {
    match t {
      case Name(_) =>
      case Value(_) =>
      case Paren(e) =>
        TreeNodeOk(e, at + 1);
        OneOk(S.Tok(at + 1 + |Yield(e)|));
        assert S.ForestOk(S.Cons(S.Done(TreeNode(e, at + 1)), One(S.Tok(at + 1 + |Yield(e)|))));
      case Unary(_, e) =>
        TreeNodeOk(e, at + 1);
        OneOk(S.Done(TreeNode(e, at + 1)));
      case Binary(_, l, r) =>
        TreeNodeOk(l, at);
        TreeNodeOk(r, at + |Yield(l)| + 1);
        OneOk(S.Done(TreeNode(r, at + |Yield(l)| + 1)));
    }
  }

  lemma OneOk(p: S.Plan)
    requires S.PlanOk(p)
    ensures S.ForestOk(One(p))
  {
  }

  lemma OneTokens(p: S.Plan)
    ensures S.ForestTokens(One(p)) == S.PlanTokens(p)
  {
    assert S.PlanTokens(p) + [] == S.PlanTokens(p);
  }

  /** The tokens numbered from `a` up to `b`. */
  function Span(a: nat, b: nat): seq<nat>
    requires a <= b
    decreases b - a
  {
    if a == b then [] else [a] + Span(a + 1, b)
  }

  lemma {:induction false} SpanSplits(a: nat, m: nat, b: nat)
    requires a <= m <= b
    ensures Span(a, b) == Span(a, m) + Span(m, b)
    decreases m - a
  {
    if a < m { SpanSplits(a + 1, m, b); }
  }

  /** The node of an expression holds its tokens, in order. */
  lemma {:induction false} TreeTokens(t: Tree, at: nat)
    ensures S.NodeTokens(TreeNode(t, at)) == Span(at, at + |Yield(t)|)
    decreases t
  {
    var end := at + |Yield(t)|;
    match t {
      case Name(_) =>
        OneTokens(S.Tok(at));
        assert Span(at, end) == [at] + Span(end, end);
      case Value(_) =>
        OneTokens(S.Tok(at));
        assert Span(at, end) == [at] + Span(end, end);
      case Paren(e) =>
        TreeTokens(e, at + 1);
        SpanSplits(at + 1, end - 1, end);
        OneTokens(S.Tok(end - 1));
        assert Span(end - 1, end) == [end - 1] + Span(end, end);
        var rest := S.Cons(S.Done(TreeNode(e, at + 1)), One(S.Tok(end - 1)));
        assert S.ForestTokens(rest) == Span(at + 1, end);
        assert S.ForestTokens(S.Cons(S.Tok(at), rest)) == [at] + S.ForestTokens(rest);
        assert Span(at, end) == [at] + Span(at + 1, end);
      case Unary(_, e) =>
        TreeTokens(e, at + 1);
        OneTokens(S.Done(TreeNode(e, at + 1)));
        assert Span(at, end) == [at] + Span(at + 1, end);
        assert S.ForestTokens(S.Cons(S.Tok(at), One(S.Done(TreeNode(e, at + 1))))) == Span(at, end);
      case Binary(_, l, r) =>
        var mid := at + |Yield(l)|;
        TreeTokens(l, at);
        TreeTokens(r, mid + 1);
        OneTokens(S.Done(TreeNode(r, mid + 1)));
        SpanSplits(at, mid, end);
        assert Span(mid, end) == [mid] + Span(mid + 1, end);
        assert S.ForestTokens(S.Cons(S.Tok(mid), One(S.Done(TreeNode(r, mid + 1))))) == Span(mid, end);
    }
  }

  lemma OneEvents(p: S.Plan)
    ensures S.ForestEvents(One(p)) == S.PlanEvents(p)
  {
    assert S.PlanEvents(p) + [] == S.PlanEvents(p);
  }

  /** The expression `t` has been parsed from `start` on, after the events `ev`. */
  ghost predicate Placed(t: Tree, start: nat, ev: Events, node: nat, cursor: nat, events: Events) {
    && cursor == start + |Yield(t)|
    && events == ev + S.NodeEvents(TreeNode(t, start), 0)
    && node == |ev| + S.TopOf(TreeNode(t, start))
  }

  class State {
    const tokens: Tokens
    var cursor: nat
    var events: Events

    /** The token list ends with a token that no expression consumes, and the cursor stands on a token. */
    ghost predicate Valid()
      reads this
    {
      cursor < |tokens| && tokens[|tokens| - 1] == Other
    }

    constructor (toks: Tokens)
      ensures Valid() && tokens == toks + [Other] && cursor == 0 && events == []
    {
      tokens, cursor, events := toks + [Other], 0, [];
    }

    // ----- markers -----

    method Start(kind: S.Kind) returns (m: nat)
      modifies this`events
      ensures m == |old(events)| && events == Started(old(events), kind)
    {
      m := |events|;
      events := events + [S.Enter(kind, 0)];
    }

    method Complete(m: nat) returns (node: nat)
      modifies this`events
      ensures node == m && events == old(events) + [S.Exit]
    {
      events := events + [S.Exit];
      node := m;
    }

    method Precede(node: nat, kind: S.Kind) returns (m: nat)
      requires node < |events| && events[node].Enter?
      modifies this`events
      ensures m == |old(events)| && events == Preceded(old(events), node, kind)
    {
      m := Start(kind);
      match events[node] {
        case Enter(k, _) => events := events[node := S.Enter(k, m - node)];
      }
    }

    method Retype(m: nat, kind: S.Kind)
      requires m < |events| && events[m] == S.TOMB
      modifies this`events
      ensures events == Retyped(old(events), m, kind)
    {
      events := events[m := S.Enter(kind, 0)];
    }

    method Abandon(m: nat)
      requires m < |events| && events[m].Enter? && events[m].precededBy == 0
      modifies this`events
      ensures events == Abandoned(old(events), m)
    {
      events := events[m := S.TOMB];
      if m == |events| - 1 {
        events := events[..m];
      }
    }

    // ----- tokens -----

    method At() returns (t: Token)
      requires Valid()
      ensures t == tokens[cursor]
    {
      t := tokens[cursor];
    }

    /** Consumes a token other than the last one. */
    method Bump()
      requires Valid() && tokens[cursor] != Other
      modifies this
      ensures Valid() && cursor == old(cursor) + 1 && events == old(events) + [S.Leaf(old(cursor))]
    {
      events := events + [S.Leaf(cursor)];
      cursor := cursor + 1;
    }

    // ----- expressions -----

    /** What a method that parses an expression from `start` on has done. */
    ghost predicate Built(r: Option<nat>, p: Option<(Tree, Tokens)>, start: nat, ev: Events)
      reads this
    {
      match p
      case None => r == None
      case Some((t, rest)) =>
        r.Some? && Valid() && tokens[cursor..] == rest && Placed(t, start, ev, r.value, cursor, events)
    }

    /** `r_ident` and `r_literal`. */
    method RAtom(kind: S.Kind, ghost t: Tree) returns (node: nat)
      requires Valid() && tokens[cursor] != Other
      requires TreeNode(t, cursor) == S.Plain(kind, One(S.Tok(cursor))) && |Yield(t)| == 1
      modifies this
      ensures Built(Some(node), Some((t, old(tokens[cursor + 1..]))), old(cursor), old(events))
    {
      PlainBuilt(false, kind, One(S.Tok(cursor)), events);
      OneEvents(S.Tok(cursor));
      var m := Start(kind);
      Bump();
      node := Complete(m);
    }

    method RExprLhs() returns (r: Option<nat>)
      requires Valid()
      modifies this
      ensures Built(r, ParseLhs(old(tokens[cursor..])), old(cursor), old(events))
      decreases |tokens| - cursor, 0
    {
      TokensAhead(tokens, cursor);
      var at := At();
      match at {
        case Ident(id) =>
          var node := RAtom(IDENT, Name(id));
          return Some(node);
        case Literal(id) =>
          var node := RAtom(LITERAL_EXPR, Value(id));
          return Some(node);
        case LParen => r := RParenExpr();
        case Operator(op) =>
          if !IsPrefix(op) {
            return None;
          }
          r := RExprUnary(op);
        case _ => return None;
      }
    }

    method RParenExpr() returns (r: Option<nat>)
      requires Valid() && tokens[cursor] == LParen
      modifies this
      ensures Built(r, ParseLhs(old(tokens[cursor..])), old(cursor), old(events))
      decreases |tokens| - cursor, -1
    {
      TokensAhead(tokens, cursor);
      ghost var start, ev := cursor, events;
      var m := Start(EXPR);
      Bump();
      ghost var inner := events;
      var e := RExprInner(0);
      if e == None {
        return None;
      }
      ghost var t := ParseExpr(tokens[start + 1..], 0).value.0;
      TokensAhead(tokens, cursor);
      var close := At();
      if close != RParen {
        return None;
      }
      Bump();
      var node := Complete(m);
      ParenPlaced(t, start, ev, node, e.value, cursor, inner, events);
      return Some(node);
    }

    method RExprUnary(op: Op) returns (r: Option<nat>)
      requires Valid() && tokens[cursor] == Operator(op) && IsPrefix(op)
      modifies this
      ensures Built(r, ParseLhs(old(tokens[cursor..])), old(cursor), old(events))
      decreases |tokens| - cursor, -1
    {
      TokensAhead(tokens, cursor);
      ghost var start, ev := cursor, events;
      var m := Start(PREFIX_OP);
      Bump();
      ghost var inner := events;
      var e := RExprInner(PREFIX);
      if e == None {
        return None;
      }
      ghost var t := ParseExpr(tokens[start + 1..], PREFIX).value.0;
      var node := Complete(m);
      UnaryPlaced(op, t, start, ev, node, e.value, cursor, inner, events);
      return Some(node);
    }

    method RExprInner(minBp: nat) returns (r: Option<nat>)
      requires Valid()
      modifies this
      ensures Built(r, ParseExpr(old(tokens[cursor..]), minBp), old(cursor), old(events))
      decreases |tokens| - cursor, 1
    {
      ghost var start, ev, toks := cursor, events, tokens[cursor..];
      var lhs := RExprLhs();
      if lhs == None {
        return None;
      }
      r := RExprRest(lhs.value, minBp, ParseLhs(toks).value.0, start, ev);
    }

    /** The loop of `r_expr_inner`. */
    method RExprRest(first: nat, minBp: nat, ghost left: Tree, ghost start: nat, ghost ev: Events)
      returns (r: Option<nat>)
      requires Valid() && Placed(left, start, ev, first, cursor, events)
      modifies this
      ensures Built(r, ParseLoop(left, old(tokens[cursor..]), minBp), start, ev)
      decreases |tokens| - cursor, 0
    {
      ghost var toks, t := tokens[cursor..], left;
      var node := first;
      while true
        invariant Valid() && cursor >= old(cursor) && Placed(t, start, ev, node, cursor, events)
        invariant ParseLoop(left, toks, minBp) == ParseLoop(t, tokens[cursor..], minBp)
        decreases |tokens| - cursor
      {
        TokensAhead(tokens, cursor);
        var at := At();
        match at {
          case LParen => return None;
          case Suffix => return None;
          case Operator(op) =>
            var bp := Infix(op);
            if bp == None || bp.value.0 < minBp {
              return Some(node);
            }
            ghost var mid := cursor;
            var more := RBinary(op, bp.value.1, node, t, start, ev);
            if more == None {
              return None;
            }
            node := more.value;
            t := Binary(op, t, ParseExpr(tokens[mid + 1..], bp.value.1).value.0);
          case _ => return Some(node);
        }
      }
    }

    /** The operator and right operand of a binary expression whose left operand is complete. */
    method RBinary(op: Op, rightBp: nat, node: nat, ghost l: Tree, ghost start: nat, ghost ev: Events)
      returns (r: Option<nat>)
      requires Valid() && tokens[cursor] == Operator(op) && Placed(l, start, ev, node, cursor, events)
      modifies this
      ensures match ParseExpr(old(tokens[cursor + 1..]), rightBp)
              case None => r == None
              case Some((rhs, rest)) => Built(r, Some((Binary(op, l, rhs), rest)), start, ev) && cursor > old(cursor)
      decreases |tokens| - cursor, -1
    {
      ghost var mid, before := cursor, events;
      LinkedLater(TreeNode(l, start), ev);
      var n := Precede(node, BIN_OP);
      Bump();
      ghost var inner := events;
      var rhs := RExprInner(rightBp);
      if rhs == None {
        return None;
      }
      ghost var t := ParseExpr(tokens[mid + 1..], rightBp).value.0;
      var done := Complete(n);
      BinaryPlaced(op, l, t, start, ev, node, mid, before, rhs.value, cursor, inner, events);
      return Some(done);
    }
  }

  lemma TokensAhead(toks: Tokens, at: nat)
    requires at < |toks|
    ensures toks[at..] != [] && toks[at..][0] == toks[at] && toks[at..][1..] == toks[at + 1..]
  {
  }

  lemma ParenPlaced(e: Tree, at: nat, ev: Events, node: nat, inside: nat, cursor: nat, inner: Events, events: Events)
    requires inner == Started(ev, EXPR) + [S.Leaf(at)] && node == |ev| && cursor >= 1
    requires Placed(e, at + 1, inner, inside, cursor - 1, inner + S.NodeEvents(TreeNode(e, at + 1), 0))
    requires events == inner + S.NodeEvents(TreeNode(e, at + 1), 0) + [S.Leaf(cursor - 1)] + [S.Exit]
    ensures Placed(Paren(e), at, ev, node, cursor, events)
  {
    var n := TreeNode(e, at + 1);
    var body := S.Cons(S.Tok(at), S.Cons(S.Done(n), One(S.Tok(cursor - 1))));
    BetweenEvents(at, n, cursor - 1);
    PlainPlaced(EXPR, ev, body, at, S.NodeEvents(n, 0), [S.Leaf(cursor - 1)], events);
  }

  /** The events of a body: a node between two tokens. */
  lemma BetweenEvents(tok: nat, n: S.Node, close: nat)
    ensures S.ForestEvents(S.Cons(S.Tok(tok), S.Cons(S.Done(n), One(S.Tok(close))))) ==
            [S.Leaf(tok)] + (S.NodeEvents(n, 0) + [S.Leaf(close)])
  {
    OneEvents(S.Tok(close));
    var rest := S.Cons(S.Done(n), One(S.Tok(close)));
    assert S.ForestEvents(rest) == S.NodeEvents(n, 0) + [S.Leaf(close)];
    assert S.ForestEvents(S.Cons(S.Tok(tok), rest)) == [S.Leaf(tok)] + S.ForestEvents(rest);
  }

  /** A node that starts with a token, whatever follows. */
  lemma PlainPlaced(kind: S.Kind, ev: Events, body: S.Forest, tok: nat, b: Events, close: Events, events: Events)
    requires S.ForestEvents(body) == [S.Leaf(tok)] + (b + close)
    requires events == Started(ev, kind) + [S.Leaf(tok)] + b + close + [S.Exit]
    ensures events == ev + S.NodeEvents(S.Plain(kind, body), 0)
  {
    var start := [S.Enter(kind, 0)];
    assert start + ([S.Leaf(tok)] + (b + close)) + [S.Exit] == S.NodeEvents(S.Plain(kind, body), 0);
    assert events == ev + (start + ([S.Leaf(tok)] + (b + close)) + [S.Exit]);
  }

  lemma UnaryPlaced(op: Op, e: Tree, at: nat, ev: Events, node: nat, inside: nat, cursor: nat, inner: Events,
    events: Events)
    requires inner == Started(ev, PREFIX_OP) + [S.Leaf(at)] && node == |ev|
    requires Placed(e, at + 1, inner, inside, cursor, inner + S.NodeEvents(TreeNode(e, at + 1), 0))
    requires events == inner + S.NodeEvents(TreeNode(e, at + 1), 0) + [S.Exit]
    ensures Placed(Unary(op, e), at, ev, node, cursor, events)
  {
    var n := TreeNode(e, at + 1);
    var body, b := S.Cons(S.Tok(at), One(S.Done(n))), S.NodeEvents(n, 0);
    assert S.ForestEvents(body) == [S.Leaf(at)] + (b + []) by {
      OneEvents(S.Done(n));
      assert b + [] == b;
    }
    assert events == Started(ev, PREFIX_OP) + [S.Leaf(at)] + b + [] + [S.Exit];
    PlainPlaced(PREFIX_OP, ev, body, at, b, [], events);
  }

  lemma BinaryPlaced(op: Op, l: Tree, r: Tree, at: nat, ev: Events, node: nat, mid: nat, before: Events, inside: nat,
    cursor: nat, inner: Events, events: Events)
    requires Placed(l, at, ev, node, mid, before) && node < |before| && before[node].Enter?
    requires inner == Preceded(before, node, BIN_OP) + [S.Leaf(mid)]
    requires Placed(r, mid + 1, inner, inside, cursor, inner + S.NodeEvents(TreeNode(r, mid + 1), 0))
    requires events == inner + S.NodeEvents(TreeNode(r, mid + 1), 0) + [S.Exit]
    ensures Placed(Binary(op, l, r), at, ev, |before|, cursor, events)
  {
    var b, body := S.NodeEvents(TreeNode(r, mid + 1), 0), S.Cons(S.Tok(mid), One(S.Done(TreeNode(r, mid + 1))));
    assert S.ForestEvents(body) == [S.Leaf(mid)] + b by { OneEvents(S.Done(TreeNode(r, mid + 1))); }
    BeforeEvents(TreeNode(l, at), body, ev, node, before, mid, b, events);
  }

  lemma BeforeEvents(left: S.Node, body: S.Forest, ev: Events, node: nat, before: Events, mid: nat, b: Events,
    events: Events)
    requires before == ev + S.NodeEvents(left, 0) && node == |ev| + S.TopOf(left) && before[node].Enter?
    requires S.ForestEvents(body) == [S.Leaf(mid)] + b
    requires events == Preceded(before, node, BIN_OP) + [S.Leaf(mid)] + b + [S.Exit]
    ensures events == ev + S.NodeEvents(S.Before(left, BIN_OP, body), 0)
    ensures |before| == |ev| + S.TopOf(S.Before(left, BIN_OP, body))
  {
    BeforeBuilt(false, left, BIN_OP, body, ev);
    Regroup3(Preceded(before, node, BIN_OP), [S.Leaf(mid)], b, [S.Exit]);
  }

  lemma Regroup3(a: Events, b: Events, c: Events, d: Events)
    ensures a + b + c + d == a + (b + c) + d
  {
  }

  // ----- from tokens to builder calls -----

  /** The calls on the tree builder for an expression: its nodes nested as the tree is. */
  function TreeCalls(t: Tree, at: nat): seq<S.Call> {
    match t
    case Name(_) => [S.StartNode(IDENT), S.Token(at), S.FinishNode]
    case Value(_) => [S.StartNode(LITERAL_EXPR), S.Token(at), S.FinishNode]
    case Paren(e) =>
      [S.StartNode(EXPR), S.Token(at)] + TreeCalls(e, at + 1) + [S.Token(at + 1 + |Yield(e)|), S.FinishNode]
    case Unary(_, e) => [S.StartNode(PREFIX_OP), S.Token(at)] + TreeCalls(e, at + 1) + [S.FinishNode]
    case Binary(_, l, r) =>
      BinaryNode(TreeCalls(l, at), at + |Yield(l)|, TreeCalls(r, at + |Yield(l)| + 1))
  }

  /** The calls for a binary node, from those of its operands. */
  function BinaryNode(left: seq<S.Call>, op: nat, right: seq<S.Call>): seq<S.Call> {
    [S.StartNode(BIN_OP)] + left + [S.Token(op)] + right + [S.FinishNode]
  }

  lemma OneCalls(p: S.Plan)
    ensures S.ForestCalls(One(p)) == S.PlanCalls(p)
  {
    assert S.PlanCalls(p) + [] == S.PlanCalls(p);
  }

  /** The calls of a body: a token, and a node. */
  lemma TokenThenNode(tok: nat, n: S.Node)
    ensures S.ForestCalls(S.Cons(S.Tok(tok), One(S.Done(n)))) == [S.Token(tok)] + S.NodeCalls(n)
  {
    OneCalls(S.Done(n));
  }

  /** The calls of a body: a node between two tokens. */
  lemma NodeBetween(tok: nat, n: S.Node, close: nat)
    ensures S.ForestCalls(S.Cons(S.Tok(tok), S.Cons(S.Done(n), One(S.Tok(close))))) ==
            [S.Token(tok)] + S.NodeCalls(n) + [S.Token(close)]
  {
    OneCalls(S.Tok(close));
    var rest := S.Cons(S.Done(n), One(S.Tok(close)));
    assert S.ForestCalls(rest) == S.NodeCalls(n) + [S.Token(close)];
    assert S.ForestCalls(S.Cons(S.Tok(tok), rest)) == [S.Token(tok)] + S.ForestCalls(rest);
  }

  ghost predicate SameCalls(t: Tree, at: nat) {
    S.NodeCalls(TreeNode(t, at)) == TreeCalls(t, at)
  }

  lemma AtomCalls(t: Tree, at: nat)
    requires t.Name? || t.Value?
    ensures SameCalls(t, at)
  {
    OneCalls(S.Tok(at));
  }

  lemma ParenCalls(e: Tree, at: nat)
    requires SameCalls(e, at + 1)
    ensures SameCalls(Paren(e), at)
  {
    NodeBetween(at, TreeNode(e, at + 1), at + 1 + |Yield(e)|);
  }

  lemma UnaryCalls(op: Op, e: Tree, at: nat)
    requires SameCalls(e, at + 1)
    ensures SameCalls(Unary(op, e), at)
  {
    TokenThenNode(at, TreeNode(e, at + 1));
  }

  lemma BinaryNodeCalls(n: S.Node, l: S.Node, r: S.Node, mid: nat, a: seq<S.Call>, c: seq<S.Call>, calls: seq<S.Call>)
    requires n == S.Before(l, BIN_OP, S.Cons(S.Tok(mid), One(S.Done(r)))) && calls == BinaryNode(a, mid, c)
    requires S.NodeCalls(l) == a && S.NodeCalls(r) == c
    ensures S.NodeCalls(n) == calls
  {
    TokenThenNode(mid, r);
  }

  lemma BinaryUnfolds(op: Op, l: Tree, r: Tree, at: nat, mid: nat)
    requires mid == at + |Yield(l)|
    ensures TreeNode(Binary(op, l, r), at) ==
            S.Before(TreeNode(l, at), BIN_OP, S.Cons(S.Tok(mid), One(S.Done(TreeNode(r, mid + 1)))))
    ensures TreeCalls(Binary(op, l, r), at) == BinaryNode(TreeCalls(l, at), mid, TreeCalls(r, mid + 1))
  {
  }

  lemma BinaryCalls(t: Tree, l: Tree, r: Tree, at: nat, mid: nat)
    requires t.Binary? && t.l == l && t.r == r && mid == at + |Yield(l)|
    requires SameCalls(l, at) && SameCalls(r, mid + 1)
    ensures SameCalls(t, at)
  {
    BinaryUnfolds(t.op, l, r, at, mid);
    BinaryNodeCalls(TreeNode(t, at), TreeNode(l, at), TreeNode(r, mid + 1), mid,
      TreeCalls(l, at), TreeCalls(r, mid + 1), TreeCalls(t, at));
  }

  lemma {:induction false} TreeNodeCalls(t: Tree, at: nat)
    ensures SameCalls(t, at)
    decreases t
  {
    match t {
      case Name(_) => AtomCalls(t, at);
      case Value(_) => AtomCalls(t, at);
      case Paren(e) =>
        TreeNodeCalls(e, at + 1);
        ParenCalls(e, at);
      case Unary(op, e) =>
        TreeNodeCalls(e, at + 1);
        UnaryCalls(op, e, at);
      case Binary(_, l, r) =>
        TreeNodeCalls(l, at);
        TreeNodeCalls(r, at + |Yield(l)| + 1);
        BinaryCalls(t, l, r, at, at + |Yield(l)|);
    }
  }

  /** The events of a parsed expression are turned into its tree, each token once and in order. */
  lemma ParsedIsRebuilt(t: Tree, at: nat)
    ensures S.SinkRun(S.NodeEvents(TreeNode(t, at), 0)) == Some(TreeCalls(t, at))
    ensures S.Tokens(TreeCalls(t, at)) == Span(at, at + |Yield(t)|) && S.Depth(TreeCalls(t, at), 0) == Some(0)
  {
    var f := One(S.Done(TreeNode(t, at)));
    TreeNodeOk(t, at);
    OneOk(S.Done(TreeNode(t, at)));
    OneEvents(S.Done(TreeNode(t, at)));
    OneCalls(S.Done(TreeNode(t, at)));
    S.SinkRebuilds(f);
    TreeNodeCalls(t, at);
    S.NodeSteady(TreeNode(t, at));
    TreeTokens(t, at);
  }
}
