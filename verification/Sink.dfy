/**
 * The parser's event list with forward parents, and the sink that turns it into calls on the
 * tree builder.
 */
module Sink {
  import opened Prelude

  type Kind = nat

  const TOMBSTONE: Kind := 0

  /** `precededBy` is the distance to the start of a node that encloses this one, or zero. */
  datatype Event = Enter(kind: Kind, precededBy: nat) | Exit | Leaf(token: nat)

  const TOMB: Event := Enter(TOMBSTONE, 0)

  /** The calls on the builder. */
  datatype Call = StartNode(kind: Kind) | FinishNode | Token(token: nat)

  // ----- the sink -----

  /** The chain of enclosing starts from `o` on exists. */
  predicate ChainOk(events: seq<Event>, o: nat)
    decreases |events| - o
  {
    o < |events| && events[o].Enter? && (events[o].precededBy > 0 ==> ChainOk(events, o + events[o].precededBy))
  }

  /** The starts of a chain, the outermost first; the start of an abandoned marker is passed over. */
  function ChainStarts(events: seq<Event>, o: nat): seq<Call>
    requires ChainOk(events, o)
    decreases |events| - o
  {
    (if events[o].precededBy > 0 then ChainStarts(events, o + events[o].precededBy) else [])
    + (if events[o].kind != TOMBSTONE then [StartNode(events[o].kind)] else [])
  }

  /** The events of a chain taken, so that they are not met again. */
  function Taken(events: seq<Event>, o: nat): (r: seq<Event>)
    requires ChainOk(events, o)
    ensures |r| == |events|
    decreases |events| - o
  {
    if events[o].precededBy > 0 then Taken(events, o + events[o].precededBy)[o := TOMB] else events[o := TOMB]
  }

  /** The first event's chain can be followed; otherwise the source panics. */
  predicate StartOk(events: seq<Event>)
    requires events != [] && events[0].Enter?
  {
    events[0].precededBy > 0 ==> ChainOk(events, events[0].precededBy)
  }

  /** The starts of the first event and of its chain. */
  function StartCalls(events: seq<Event>): seq<Call>
    requires events != [] && events[0].Enter? && StartOk(events)
  {
    (if events[0].precededBy > 0 then ChainStarts(events, events[0].precededBy) else []) + [StartNode(events[0].kind)]
  }

  function AfterStart(events: seq<Event>): (r: seq<Event>)
    requires events != [] && events[0].Enter? && StartOk(events)
    ensures |r| == |events| - 1
  {
    if events[0].precededBy > 0 then Taken(events, events[0].precededBy)[1..] else events[1..]
  }

  function Prepend(calls: seq<Call>, r: Option<seq<Call>>): Option<seq<Call>> {
    if r.None? then None else Some(calls + r.value)
  }

  /** The calls for a list of events, or `None` where the source panics. */
  function SinkRun(events: seq<Event>): Option<seq<Call>>
    decreases |events|
  {
    if events == [] then Some([])
    else
      match events[0]
      case Enter(_, _) =>
        if events[0] == TOMB then SinkRun(events[1..])
        else if !StartOk(events) then None
        else Prepend(StartCalls(events), SinkRun(AfterStart(events)))
      case Exit => Prepend([FinishNode], SinkRun(events[1..]))
      case Leaf(t) => Prepend([Token(t)], SinkRun(events[1..]))
  }

  // ----- what a parser does -----

  /** A completed node: a fresh one, or one that encloses a node completed before it was started. */
  datatype Node = Plain(kind: Kind, body: Forest) | Before(inner: Node, kind: Kind, body: Forest)

  /** Tokens, nodes, abandoned markers, and abandoned markers that had been put before a node. */
  datatype Plan = Tok(token: nat) | Done(node: Node) | Dropped(body: Forest) | DroppedBefore(inner: Node, body: Forest)

  datatype Forest = Nil | Cons(head: Plan, tail: Forest)

  /** The tree a plan stands for. */
  function NodeCalls(n: Node): seq<Call> {
    match n
    case Plain(kind, body) => [StartNode(kind)] + ForestCalls(body) + [FinishNode]
    case Before(inner, kind, body) => [StartNode(kind)] + NodeCalls(inner) + ForestCalls(body) + [FinishNode]
  }

  function PlanCalls(p: Plan): seq<Call> {
    match p
    case Tok(t) => [Token(t)]
    case Done(n) => NodeCalls(n)
    case Dropped(body) => ForestCalls(body)
    case DroppedBefore(inner, body) => NodeCalls(inner) + ForestCalls(body)
  }

  function ForestCalls(f: Forest): seq<Call> {
    match f
    case Nil => []
    case Cons(p, rest) => PlanCalls(p) + ForestCalls(rest)
  }

  // ----- the events it leaves -----

  /** The events of a node whose own enclosing node starts `dist` events after its top. */
  function NodeEvents(n: Node, dist: nat): (r: seq<Event>)
    ensures |r| == NodeLength(n)
  {
    match n
    case Plain(kind, body) => [Enter(kind, dist)] + ForestEvents(body) + [Exit]
    case Before(inner, kind, body) =>
      NodeEvents(inner, NodeLength(inner) - TopOf(inner)) + [Enter(kind, dist)] + ForestEvents(body) + [Exit]
  }

  function TopOf(n: Node): (t: nat)
    ensures t < NodeLength(n)
  {
    match n
    case Plain(_, _) => 0
    case Before(inner, _, _) => NodeLength(inner)
  }

  function NodeLength(n: Node): nat {
    match n
    case Plain(_, body) => 2 + ForestLength(body)
    case Before(inner, _, body) => NodeLength(inner) + 2 + ForestLength(body)
  }

  function PlanEvents(p: Plan): (r: seq<Event>)
    ensures |r| == PlanLength(p)
  {
    match p
    case Tok(t) => [Leaf(t)]
    case Done(n) => NodeEvents(n, 0)
    case Dropped(body) => if ForestLength(body) == 0 then [] else [TOMB] + ForestEvents(body)
    case DroppedBefore(inner, body) => NodeEvents(inner, NodeLength(inner) - TopOf(inner)) + [TOMB] + ForestEvents(body)
  }

  function PlanLength(p: Plan): nat {
    match p
    case Tok(_) => 1
    case Done(n) => NodeLength(n)
    case Dropped(body) => if ForestLength(body) == 0 then 0 else 1 + ForestLength(body)
    case DroppedBefore(inner, body) => NodeLength(inner) + 1 + ForestLength(body)
  }

  function ForestEvents(f: Forest): (r: seq<Event>)
    ensures |r| == ForestLength(f)
  {
    match f
    case Nil => []
    case Cons(p, rest) => PlanEvents(p) + ForestEvents(rest)
  }

  function ForestLength(f: Forest): nat {
    match f
    case Nil => 0
    case Cons(p, rest) => PlanLength(p) + ForestLength(rest)
  }

  /** Kinds are real ones, and a marker put before a node is not abandoned while it is the last event. */
  predicate NodeOk(n: Node) {
    match n
    case Plain(kind, body) => kind != TOMBSTONE && ForestOk(body)
    case Before(inner, kind, body) => NodeOk(inner) && kind != TOMBSTONE && ForestOk(body)
  }

  predicate PlanOk(p: Plan) {
    match p
    case Tok(_) => true
    case Done(n) => NodeOk(n)
    case Dropped(body) => ForestOk(body)
    case DroppedBefore(inner, body) => NodeOk(inner) && ForestOk(body) && ForestLength(body) > 0
  }

  predicate ForestOk(f: Forest) {
    match f
    case Nil => true
    case Cons(p, rest) => PlanOk(p) && ForestOk(rest)
  }

  // ----- the sink rebuilds the tree -----

  /** Chains look only ahead. */
  lemma {:induction false} ChainShifts(a: seq<Event>, b: seq<Event>, o: nat)
    requires ChainOk(b, o)
    ensures ChainOk(a + b, |a| + o) && ChainStarts(a + b, |a| + o) == ChainStarts(b, o)
    ensures Taken(a + b, |a| + o) == a + Taken(b, o)
    decreases |b| - o
  {
    if b[o].precededBy > 0 { ChainShifts(a, b, o + b[o].precededBy); }
  }

  /** The starts that a link `dist` events long asks for. */
  function Starts(rest: seq<Event>, link: Option<nat>): seq<Call>
    requires link.Some? ==> ChainOk(rest, link.value)
  {
    if link.None? then [] else ChainStarts(rest, link.value)
  }

  function Linked(rest: seq<Event>, link: Option<nat>): (r: seq<Event>)
    requires link.Some? ==> ChainOk(rest, link.value)
    ensures |r| == |rest|
  {
    if link.None? then rest else Taken(rest, link.value)
  }

  /** The distance from the top of a node to a place in what follows it. */
  function Distance(n: Node, link: Option<nat>): nat {
    if link.None? then 0 else NodeLength(n) - TopOf(n) + link.value
  }

  /** One step over a start, in terms of its calls and of what is left. */
  lemma StartRuns(events: seq<Event>, calls: seq<Call>, left: seq<Event>)
    requires events != [] && events[0].Enter? && events[0].kind != TOMBSTONE && StartOk(events)
    requires StartCalls(events) == calls && AfterStart(events) == left
    ensures SinkRun(events) == Prepend(calls, SinkRun(left))
  {
  }

  function StartEvents(kind: Kind, skip: seq<Event>, rest: seq<Event>, link: Option<nat>): seq<Event> {
    [Enter(kind, if link.None? then 0 else 1 + |skip| + link.value)] + skip + rest
  }

  /** The chain of a start lies `skip` events ahead. */
  lemma StartAhead(kind: Kind, skip: seq<Event>, rest: seq<Event>, link: Option<nat>)
    requires link.Some? ==> ChainOk(rest, link.value)
    ensures var events := StartEvents(kind, skip, rest, link);
      && events[0].Enter? && StartOk(events)
      && StartCalls(events) == Starts(rest, link) + [StartNode(kind)] && AfterStart(events) == skip + Linked(rest, link)
  {
    if link.Some? {
      ChainedAhead(Enter(kind, 1 + |skip| + link.value), skip, rest, link.value);
    } else {
      AfterFirst(Enter(kind, 0), skip, rest);
      assert [] + [StartNode(kind)] == [StartNode(kind)];
    }
  }

  lemma AfterFirst(e: Event, skip: seq<Event>, rest: seq<Event>)
    ensures ([e] + skip + rest)[1..] == skip + rest
  {
  }

  lemma ChainedAhead(e: Event, skip: seq<Event>, rest: seq<Event>, o: nat)
    requires ChainOk(rest, o) && e.Enter? && e.precededBy == 1 + |skip| + o
    ensures var events := [e] + skip + rest;
      && events[0] == e && StartOk(events) && StartCalls(events) == ChainStarts(rest, o) + [StartNode(e.kind)]
      && AfterStart(events) == skip + Taken(rest, o)
  {
    ChainShifts([e] + skip, rest, o);
    AfterFirst(e, skip, Taken(rest, o));
  }

  lemma StartStep(kind: Kind, skip: seq<Event>, rest: seq<Event>, link: Option<nat>)
    requires kind != TOMBSTONE && (link.Some? ==> ChainOk(rest, link.value))
    ensures SinkRun(StartEvents(kind, skip, rest, link)) ==
            Prepend(Starts(rest, link) + [StartNode(kind)], SinkRun(skip + Linked(rest, link)))
  {
    StartAhead(kind, skip, rest, link);
    StartRuns(StartEvents(kind, skip, rest, link), Starts(rest, link) + [StartNode(kind)], skip + Linked(rest, link));
  }

  lemma TombStep(events: seq<Event>)
    ensures SinkRun([TOMB] + events) == SinkRun(events)
  {
    assert ([TOMB] + events)[1..] == events;
  }

  lemma ExitStep(events: seq<Event>)
    ensures SinkRun([Exit] + events) == Prepend([FinishNode], SinkRun(events))
  {
    assert ([Exit] + events)[1..] == events;
  }

  lemma LeafStep(t: nat, events: seq<Event>)
    ensures SinkRun([Leaf(t)] + events) == Prepend([Token(t)], SinkRun(events))
  {
    assert ([Leaf(t)] + events)[1..] == events;
  }

  lemma PrependTwice(a: seq<Call>, b: seq<Call>, r: Option<seq<Call>>)
    ensures Prepend(a, Prepend(b, r)) == Prepend(a + b, r)
  {
    if r.Some? { assert a + (b + r.value) == a + b + r.value; }
  }

  lemma PrependNothing(r: Option<seq<Call>>)
    ensures Prepend([], r) == r
  {
    if r.Some? { assert [] + r.value == r.value; }
  }

  lemma PlainEvents(kind: Kind, body: Forest, rest: seq<Event>, link: Option<nat>)
    ensures NodeEvents(Plain(kind, body), Distance(Plain(kind, body), link)) + rest ==
      StartEvents(kind, ForestEvents(body) + [Exit], rest, link)
  {
  }

  lemma PlainJoins(kind: Kind, body: Forest, starts: seq<Call>, r: Option<seq<Call>>)
    ensures Prepend(starts + [StartNode(kind)], Prepend(ForestCalls(body), Prepend([FinishNode], r))) ==
            Prepend(starts + NodeCalls(Plain(kind, body)), r)
  {
    PrependTwice(ForestCalls(body), [FinishNode], r);
    PrependTwice(starts + [StartNode(kind)], ForestCalls(body) + [FinishNode], r);
    assert starts + [StartNode(kind)] + (ForestCalls(body) + [FinishNode]) == starts + NodeCalls(Plain(kind, body));
  }

  /** The body of a node and its end. */
  lemma {:induction false} BodyRebuilt(body: Forest, after: seq<Event>)
    requires ForestOk(body)
    ensures SinkRun(ForestEvents(body) + [Exit] + after) ==
      Prepend(ForestCalls(body), Prepend([FinishNode], SinkRun(after)))
    decreases body, 1
  {
    ForestRebuilt(body, [Exit] + after);
    ExitStep(after);
    assert ForestEvents(body) + ([Exit] + after) == ForestEvents(body) + [Exit] + after;
  }

  /** A node is rebuilt inside the nodes that its chain leads to. */
  lemma {:induction false} NodeRebuilt(n: Node, rest: seq<Event>, link: Option<nat>)
    requires NodeOk(n) && (link.Some? ==> ChainOk(rest, link.value))
    ensures SinkRun(NodeEvents(n, Distance(n, link)) + rest) ==
            Prepend(Starts(rest, link) + NodeCalls(n), SinkRun(Linked(rest, link)))
    decreases n, 1
  {
    match n {
      case Plain(kind, body) =>
        var after := Linked(rest, link);
        PlainEvents(kind, body, rest, link);
        StartStep(kind, ForestEvents(body) + [Exit], rest, link);
        BodyRebuilt(body, after);
        PlainJoins(kind, body, Starts(rest, link), SinkRun(after));
      case Before(inner, kind, body) => BeforeRebuilt(inner, kind, body, rest, link);
    }
  }

  /** What follows the events of the inner node of `Before`. */
  function Outer(kind: Kind, body: Forest, rest: seq<Event>, link: Option<nat>): seq<Event> {
    [Enter(kind, if link.None? then 0 else 2 + ForestLength(body) + link.value)] + (ForestEvents(body) + [Exit]) + rest
  }

  lemma OuterChain(kind: Kind, body: Forest, rest: seq<Event>, link: Option<nat>)
    requires kind != TOMBSTONE && (link.Some? ==> ChainOk(rest, link.value))
    ensures ChainOk(Outer(kind, body, rest, link), 0)
    ensures ChainStarts(Outer(kind, body, rest, link), 0) == Starts(rest, link) + [StartNode(kind)]
    ensures Taken(Outer(kind, body, rest, link), 0) == [TOMB] + (ForestEvents(body) + [Exit] + Linked(rest, link))
  {
    var o := Outer(kind, body, rest, link);
    var a := [o[0]] + (ForestEvents(body) + [Exit]);
    assert o == a + rest;
    if link.Some? { ChainShifts(a, rest, link.value); }
  }

  lemma BeforeEvents(inner: Node, kind: Kind, body: Forest, rest: seq<Event>, link: Option<nat>)
    ensures var n := Before(inner, kind, body);
      NodeEvents(n, Distance(n, link)) + rest ==
        NodeEvents(inner, Distance(inner, Some(0))) + Outer(kind, body, rest, link)
  {
  }

  lemma BeforeJoins(inner: Node, kind: Kind, body: Forest, starts: seq<Call>, r: Option<seq<Call>>)
    ensures Prepend(starts + [StartNode(kind)] + NodeCalls(inner),
      Prepend(ForestCalls(body), Prepend([FinishNode], r))) ==
            Prepend(starts + NodeCalls(Before(inner, kind, body)), r)
  {
    PrependTwice(ForestCalls(body), [FinishNode], r);
    PrependTwice(starts + [StartNode(kind)] + NodeCalls(inner), ForestCalls(body) + [FinishNode], r);
    assert starts + [StartNode(kind)] + NodeCalls(inner) + (ForestCalls(body) + [FinishNode])
        == starts + NodeCalls(Before(inner, kind, body));
  }

  lemma {:induction false} BeforeRebuilt(inner: Node, kind: Kind, body: Forest, rest: seq<Event>, link: Option<nat>)
    requires NodeOk(Before(inner, kind, body)) && (link.Some? ==> ChainOk(rest, link.value))
    ensures var n := Before(inner, kind, body);
      SinkRun(NodeEvents(n, Distance(n, link)) + rest) ==
        Prepend(Starts(rest, link) + NodeCalls(n), SinkRun(Linked(rest, link)))
    decreases Before(inner, kind, body), 0
  {
    var after, o := Linked(rest, link), Outer(kind, body, rest, link);
    OuterChain(kind, body, rest, link);
    BeforeEvents(inner, kind, body, rest, link);
    NodeRebuilt(inner, o, Some(0));
    TombStep(ForestEvents(body) + [Exit] + after);
    BodyRebuilt(body, after);
    BeforeJoins(inner, kind, body, Starts(rest, link), SinkRun(after));
  }

  lemma {:induction false} PlanRebuilt(p: Plan, rest: seq<Event>)
    requires PlanOk(p)
    ensures SinkRun(PlanEvents(p) + rest) == Prepend(PlanCalls(p), SinkRun(rest))
    decreases p
  {
    match p {
      case Tok(t) => LeafStep(t, rest);
      case Done(n) =>
        NodeRebuilt(n, rest, None);
        assert [] + NodeCalls(n) == NodeCalls(n);
      case Dropped(body) => DroppedRebuilt(body, rest);
      case DroppedBefore(inner, body) => DroppedBeforeRebuilt(inner, body, rest);
    }
  }

  lemma {:induction false} DroppedRebuilt(body: Forest, rest: seq<Event>)
    requires ForestOk(body)
    ensures SinkRun(PlanEvents(Dropped(body)) + rest) == Prepend(ForestCalls(body), SinkRun(rest))
    decreases body, 2
  {
    ForestRebuilt(body, rest);
    if ForestLength(body) == 0 {
      assert ForestEvents(body) == [];
    } else {
      TombStep(ForestEvents(body) + rest);
      assert [TOMB] + (ForestEvents(body) + rest) == PlanEvents(Dropped(body)) + rest;
    }
  }

  lemma TombChain(b: seq<Event>)
    ensures ChainOk([TOMB] + b, 0) && Starts([TOMB] + b, Some(0)) == [] && Linked([TOMB] + b, Some(0)) == [TOMB] + b
  {
  }

  lemma DroppedBeforeEvents(inner: Node, body: Forest, rest: seq<Event>)
    ensures PlanEvents(DroppedBefore(inner, body)) + rest ==
            NodeEvents(inner, Distance(inner, Some(0))) + ([TOMB] + (ForestEvents(body) + rest))
  {
  }

  lemma {:induction false} DroppedBeforeRebuilt(inner: Node, body: Forest, rest: seq<Event>)
    requires NodeOk(inner) && ForestOk(body)
    ensures SinkRun(PlanEvents(DroppedBefore(inner, body)) + rest) ==
      Prepend(NodeCalls(inner) + ForestCalls(body), SinkRun(rest))
    decreases DroppedBefore(inner, body), 0
  {
    var b := ForestEvents(body) + rest;
    DroppedBeforeEvents(inner, body, rest);
    assert SinkRun(NodeEvents(inner, Distance(inner, Some(0))) + ([TOMB] + b)) ==
      Prepend(NodeCalls(inner), SinkRun([TOMB] + b)) by {
      TombChain(b);
      NodeRebuilt(inner, [TOMB] + b, Some(0));
      assert [] + NodeCalls(inner) == NodeCalls(inner);
    }
    TombStep(b);
    ForestRebuilt(body, rest);
    PrependTwice(NodeCalls(inner), ForestCalls(body), SinkRun(rest));
  }

  lemma {:induction false} ForestRebuilt(f: Forest, rest: seq<Event>)
    requires ForestOk(f)
    ensures SinkRun(ForestEvents(f) + rest) == Prepend(ForestCalls(f), SinkRun(rest))
    decreases f, 0
  {
    match f {
      case Nil =>
        assert ForestEvents(f) + rest == rest;
        PrependNothing(SinkRun(rest));
      case Cons(p, tail) =>
        ForestRebuilt(tail, rest);
        PlanRebuilt(p, ForestEvents(tail) + rest);
        assert PlanEvents(p) + (ForestEvents(tail) + rest) == ForestEvents(f) + rest;
        PrependTwice(PlanCalls(p), ForestCalls(tail), SinkRun(rest));
    }
  }

  /** The sink issues exactly the calls of the tree that was meant, and never panics. */
  lemma SinkRebuilds(f: Forest)
    requires ForestOk(f)
    ensures SinkRun(ForestEvents(f)) == Some(ForestCalls(f))
  {
    ForestRebuilt(f, []);
    assert ForestEvents(f) + [] == ForestEvents(f);
    assert ForestCalls(f) + [] == ForestCalls(f);
  }

  // ----- balanced calls, tokens in order -----

  /** How deep the builder is after some calls, or `None` if a finish had no start. */
  function Depth(calls: seq<Call>, d: nat): Option<nat> {
    if calls == [] then Some(d)
    else
      match calls[0]
      case StartNode(_) => Depth(calls[1..], d + 1)
      case FinishNode => if d == 0 then None else Depth(calls[1..], d - 1)
      case Token(_) => Depth(calls[1..], d)
  }

  function Tokens(calls: seq<Call>): seq<nat> {
    if calls == [] then [] else (if calls[0].Token? then [calls[0].token] else []) + Tokens(calls[1..])
  }

  /** The tokens of a plan, in the order in which they were bumped. */
  function NodeTokens(n: Node): seq<nat> {
    match n
    case Plain(_, body) => ForestTokens(body)
    case Before(inner, _, body) => NodeTokens(inner) + ForestTokens(body)
  }

  function PlanTokens(p: Plan): seq<nat> {
    match p
    case Tok(t) => [t]
    case Done(n) => NodeTokens(n)
    case Dropped(body) => ForestTokens(body)
    case DroppedBefore(inner, body) => NodeTokens(inner) + ForestTokens(body)
  }

  function ForestTokens(f: Forest): seq<nat> {
    match f
    case Nil => []
    case Cons(p, rest) => PlanTokens(p) + ForestTokens(rest)
  }

  /** A stretch of calls that leaves the depth as it was, whatever it was, and emits these tokens. */
  ghost predicate Steady(calls: seq<Call>, tokens: seq<nat>) {
    Tokens(calls) == tokens && forall d: nat :: Depth(calls, d) == Some(d)
  }

  lemma {:induction false} DepthSplits(a: seq<Call>, b: seq<Call>, d: nat)
    requires Depth(a, d).Some?
    ensures Depth(a + b, d) == Depth(b, Depth(a, d).value)
    decreases |a|
  {
    if a == [] {
      assert a + b == b;
    } else {
      assert (a + b)[1..] == a[1..] + b;
      match a[0] {
        case StartNode(_) => DepthSplits(a[1..], b, d + 1);
        case FinishNode => DepthSplits(a[1..], b, d - 1);
        case Token(_) => DepthSplits(a[1..], b, d);
      }
    }
  }

  lemma {:induction false} TokensSplit(a: seq<Call>, b: seq<Call>)
    ensures Tokens(a + b) == Tokens(a) + Tokens(b)
    decreases |a|
  {
    if a == [] {
      assert a + b == b;
    } else {
      assert (a + b)[1..] == a[1..] + b;
      TokensSplit(a[1..], b);
    }
  }

  lemma SteadyJoin(a: seq<Call>, x: seq<nat>, b: seq<Call>, y: seq<nat>)
    requires Steady(a, x) && Steady(b, y)
    ensures Steady(a + b, x + y)
  {
    TokensSplit(a, b);
    forall d: nat ensures Depth(a + b, d) == Some(d) {
      assert Depth(a, d) == Some(d) && Depth(b, d) == Some(d);
      DepthSplits(a, b, d);
    }
  }

  lemma SteadyNode(kind: Kind, body: seq<Call>, x: seq<nat>)
    requires Steady(body, x)
    ensures Steady([StartNode(kind)] + body + [FinishNode], x)
  {
    var calls := [StartNode(kind)] + body + [FinishNode];
    assert calls[1..] == body + [FinishNode] && [FinishNode][1..] == [];
    TokensSplit(body, [FinishNode]);
    assert Tokens([FinishNode]) == [] + Tokens([]);
    forall d: nat ensures Depth(calls, d) == Some(d) {
      assert Depth(body, d + 1) == Some(d + 1);
      DepthSplits(body, [FinishNode], d + 1);
      assert Depth([FinishNode], d + 1) == Depth([], d);
    }
  }

  lemma {:induction false} NodeSteady(n: Node)
    ensures Steady(NodeCalls(n), NodeTokens(n))
    decreases n
  {
    match n {
      case Plain(kind, body) =>
        ForestSteady(body);
        SteadyNode(kind, ForestCalls(body), ForestTokens(body));
      case Before(inner, kind, body) =>
        NodeSteady(inner);
        ForestSteady(body);
        SteadyJoin(NodeCalls(inner), NodeTokens(inner), ForestCalls(body), ForestTokens(body));
        SteadyNode(kind, NodeCalls(inner) + ForestCalls(body), NodeTokens(n));
        assert [StartNode(kind)] + (NodeCalls(inner) + ForestCalls(body)) + [FinishNode] == NodeCalls(n);
    }
  }

  lemma {:induction false} PlanSteady(p: Plan)
    ensures Steady(PlanCalls(p), PlanTokens(p))
    decreases p
  {
    match p {
      case Tok(t) => assert [Token(t)][1..] == [];
      case Done(n) => NodeSteady(n);
      case Dropped(body) => ForestSteady(body);
      case DroppedBefore(inner, body) =>
        NodeSteady(inner);
        ForestSteady(body);
        SteadyJoin(NodeCalls(inner), NodeTokens(inner), ForestCalls(body), ForestTokens(body));
    }
  }

  lemma {:induction false} ForestSteady(f: Forest)
    ensures Steady(ForestCalls(f), ForestTokens(f))
    decreases f
  {
    match f {
      case Nil =>
      case Cons(p, rest) =>
        PlanSteady(p);
        ForestSteady(rest);
        SteadyJoin(PlanCalls(p), PlanTokens(p), ForestCalls(rest), ForestTokens(rest));
    }
  }

  /** The sink's calls are balanced and emit each token once, in the order in which it was bumped. */
  lemma SinkBalanced(f: Forest)
    requires ForestOk(f)
    ensures SinkRun(ForestEvents(f)).Some?
    ensures var calls := SinkRun(ForestEvents(f)).value;
      Depth(calls, 0) == Some(0) && Tokens(calls) == ForestTokens(f)
  {
    SinkRebuilds(f);
    ForestSteady(f);
  }
}
