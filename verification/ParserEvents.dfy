/** The marker operations of the parser on its event list, and the events that balanced uses leave. */
module ParserEvents {
  import opened Prelude
  import opened Sink

  type Events = seq<Event>

  // ----- the operations -----

  function Started(ev: Events, kind: Kind): Events {
    ev + [Enter(kind, 0)]
  }

  /** Links a completed node to the start of the one that encloses it. */
  function Preceded(ev: Events, node: nat, kind: Kind): Events
    requires node < |ev| && ev[node].Enter?
  {
    ev[node := Enter(ev[node].kind, |ev| - node)] + [Enter(kind, 0)]
  }

  function Retyped(ev: Events, marker: nat, kind: Kind): Events
    requires marker < |ev|
  {
    ev[marker := Enter(kind, 0)]
  }

  /** The start becomes a tombstone, and goes if it is the last event. */
  function Abandoned(ev: Events, marker: nat): Events
    requires marker < |ev|
  {
    if marker == |ev| - 1 then ev[..marker] else ev[marker := TOMB]
  }

  // ----- balanced uses -----

  /** A marker is closed: `late` ones were started as tombstones and get their kind only now. */
  function Closed(ev: Events, marker: nat, late: bool, kind: Kind): Events
    requires marker < |ev|
  {
    (if late then Retyped(ev, marker, kind) else ev) + [Exit]
  }

  function StartKind(late: bool, kind: Kind): Kind {
    if late then TOMBSTONE else kind
  }

  lemma PlainBuilt(late: bool, kind: Kind, body: Forest, ev: Events)
    ensures Closed(Started(ev, StartKind(late, kind)) + ForestEvents(body), |ev|, late, kind) ==
      ev + NodeEvents(Plain(kind, body), 0)
  {
  }

  lemma BeforeBuilt(late: bool, inner: Node, kind: Kind, body: Forest, ev: Events)
    ensures var e, node := ev + NodeEvents(inner, 0), |ev| + TopOf(inner);
      && e[node].Enter?
      && Closed(Preceded(e, node, StartKind(late, kind)) + ForestEvents(body), |e|, late, kind)
         == ev + NodeEvents(Before(inner, kind, body), 0)
  {
    LinkedLater(inner, ev);
  }

  lemma DroppedBuilt(body: Forest, ev: Events)
    ensures Abandoned(Started(ev, TOMBSTONE) + ForestEvents(body), |ev|) == ev + PlanEvents(Dropped(body))
  {
  }

  lemma Regroup(a: Events, b: Events, c: Events, d: Events)
    ensures a + (b + c + d) == a + b + c + d
  {
  }

  lemma TombAbandoned(m: Events, b: Events)
    requires b != []
    ensures Abandoned(m + [TOMB] + b, |m|) == m + [TOMB] + b
  {
  }

  /** A marker put before a node and abandoned later leaves its tombstone. */
  lemma DroppedBeforeBuilt(e: Events, node: nat, m: Events, b: Events)
    requires node < |e| && e[node].Enter? && e[node := Enter(e[node].kind, |e| - node)] == m && b != []
    ensures Abandoned(Preceded(e, node, TOMBSTONE) + b, |e|) == m + [TOMB] + b
  {
    assert Preceded(e, node, TOMBSTONE) == m + [TOMB];
    TombAbandoned(m, b);
  }

  /** What a parser does for a plan, in terms of the operations; any node may be one of the `late` ones. */
  function BuildNode(late: Node -> bool, n: Node, ev: Events): (r: (Events, nat))
    requires NodeOk(n)
    ensures r == (ev + NodeEvents(n, 0), |ev| + TopOf(n))
    decreases n, 1
  {
    match n
    case Plain(kind, body) =>
      PlainBuilt(late(n), kind, body, ev);
      (Closed(BuildForest(late, body, Started(ev, StartKind(late(n), kind))), |ev|, late(n), kind), |ev|)
    case Before(inner, kind, body) =>
      BeforeBuilt(late(n), inner, kind, body, ev);
      var (e, node) := BuildNode(late, inner, ev);
      (Closed(BuildForest(late, body, Preceded(e, node, StartKind(late(n), kind))), |e|, late(n), kind), |e|)
  }

  function BuildPlan(late: Node -> bool, p: Plan, ev: Events): (r: Events)
    requires PlanOk(p)
    ensures r == ev + PlanEvents(p)
    decreases p, 0
  {
    match p
    case Tok(t) => ev + [Leaf(t)]
    case Done(n) => BuildNode(late, n, ev).0
    case Dropped(body) =>
      DroppedBuilt(body, ev);
      Abandoned(BuildForest(late, body, Started(ev, TOMBSTONE)), |ev|)
    case DroppedBefore(inner, body) =>
      var (e, node) := BuildNode(late, inner, ev);
      LinkedLater(inner, ev);
      DroppedBeforeBuilt(e, node, ev + NodeEvents(inner, NodeLength(inner) - TopOf(inner)), ForestEvents(body));
      Regroup(ev, NodeEvents(inner, NodeLength(inner) - TopOf(inner)), [TOMB], ForestEvents(body));
      Abandoned(BuildForest(late, body, Preceded(e, node, TOMBSTONE)), |e|)
  }

  function BuildForest(late: Node -> bool, f: Forest, ev: Events): (r: Events)
    requires ForestOk(f)
    ensures r == ev + ForestEvents(f)
    decreases f, 0
  {
    match f
    case Nil => ev
    case Cons(p, rest) =>
      assert ev + PlanEvents(p) + ForestEvents(rest) == ev + ForestEvents(f);
      BuildForest(late, rest, BuildPlan(late, p, ev))
  }

  /** Every balanced use of the markers is turned into the tree it means. */
  lemma BuiltIsRebuilt(late: Node -> bool, f: Forest)
    requires ForestOk(f)
    ensures SinkRun(BuildForest(late, f, [])) == Some(ForestCalls(f))
  {
    SinkRebuilds(f);
    assert [] + ForestEvents(f) == ForestEvents(f);
  }

  // ----- a marker abandoned too soon -----

  /** A chain in the later events is one in all of them, and back. */
  lemma {:induction false} ChainBack(a: seq<Event>, b: seq<Event>, o: nat)
    requires ChainOk(a + b, |a| + o)
    ensures ChainOk(b, o)
    decreases |b| - o
  {
    assert (a + b)[|a| + o] == b[o];
    if b[o].precededBy > 0 { ChainBack(a, b, o + b[o].precededBy); }
  }

  /** The sink stops at a node whose link leads to no chain of starts. */
  lemma {:induction false} NodeStops(n: Node, rest: seq<Event>)
    requires NodeOk(n) && !ChainOk(rest, 0)
    ensures SinkRun(NodeEvents(n, Distance(n, Some(0))) + rest) == None
    decreases n
  {
    match n {
      case Plain(kind, body) =>
        PlainEvents(kind, body, rest, Some(0));
        StartStops(kind, ForestEvents(body) + [Exit], rest);
      case Before(inner, kind, body) =>
        BeforeEvents(inner, kind, body, rest, Some(0));
        OuterStops(kind, body, rest);
        NodeStops(inner, Outer(kind, body, rest, Some(0)));
    }
  }

  lemma StartStops(kind: Kind, skip: seq<Event>, rest: seq<Event>)
    requires !ChainOk(rest, 0)
    ensures SinkRun(StartEvents(kind, skip, rest, Some(0))) == None
  {
    var e := Enter(kind, 1 + |skip|);
    var events := [e] + skip + rest;
    assert StartEvents(kind, skip, rest, Some(0)) == events && events[0] == e;
    if ChainOk(events, 1 + |skip|) {
      assert |[e] + skip| == 1 + |skip|;
      ChainBack([e] + skip, rest, 0);
    }
  }

  lemma OuterStops(kind: Kind, body: Forest, rest: seq<Event>)
    requires !ChainOk(rest, 0)
    ensures !ChainOk(Outer(kind, body, rest, Some(0)), 0)
  {
    var o := Outer(kind, body, rest, Some(0));
    var a := [o[0]] + (ForestEvents(body) + [Exit]);
    assert o == a + rest;
    if ChainOk(o, 0) {
      assert ChainOk(o, |a|);
      ChainBack(a, rest, 0);
    }
  }

  /** What the sink does with a node that an abandoned marker was put before, and with what comes next. */
  function Astray(n: Node, rest: seq<Event>): Option<seq<Call>> {
    if ChainOk(rest, 0) then Prepend(ChainStarts(rest, 0) + NodeCalls(n), SinkRun(Taken(rest, 0))) else None
  }

  /**
   * A marker put before a node and abandoned while it is the last event leaves that node linked
   * to whatever comes next: the sink stops if that is no start, and if it is one, starts it and
   * all that enclose it before the node, which they then wrongly enclose.
   */
  lemma AbandonedTooSoon(n: Node, ev: Events, rest: Events)
    requires NodeOk(n) && ev == NodeEvents(n, 0)
    ensures ev[TopOf(n)].Enter?
    ensures SinkRun(Abandoned(Preceded(ev, TopOf(n), TOMBSTONE), |ev|) + rest) == Astray(n, rest)
  {
    TooSoonEvents(n, ev);
    if ChainOk(rest, 0) {
      NodeRebuilt(n, rest, Some(0));
    } else {
      NodeStops(n, rest);
    }
  }

  /** The node keeps its link to the place where the marker was. */
  lemma TooSoonEvents(n: Node, ev: Events)
    requires ev == NodeEvents(n, 0)
    ensures ev[TopOf(n)].Enter?
    ensures Abandoned(Preceded(ev, TopOf(n), TOMBSTONE), |ev|) == NodeEvents(n, Distance(n, Some(0)))
  {
    var linked := NodeEvents(n, Distance(n, Some(0)));
    assert ev[TopOf(n)].Enter? && ev[TopOf(n) := Enter(ev[TopOf(n)].kind, |ev| - TopOf(n))] == linked by {
      LinkedLater(n, []);
      assert [] + ev == ev && [] + linked == linked;
    }
    assert Preceded(ev, TopOf(n), TOMBSTONE) == linked + [TOMB];
    LastDropped(linked);
  }

  lemma LastDropped(ev: Events)
    ensures Abandoned(ev + [TOMB], |ev|) == ev
  {
  }

  lemma {:induction false} TopIsEnter(n: Node, dist: nat)
    ensures NodeEvents(n, dist)[TopOf(n)].Enter? && NodeEvents(n, dist)[TopOf(n)].precededBy == dist
    ensures forall d ::
              NodeEvents(n, d) == NodeEvents(n, dist)[TopOf(n) := Enter(NodeEvents(n, dist)[TopOf(n)].kind, d)]
  {
  }

  /** Linking a node that has been completed gives the events it would have with that link. */
  lemma LinkedLater(n: Node, ev: Events)
    ensures var e, node := ev + NodeEvents(n, 0), |ev| + TopOf(n);
      && e[node].Enter?
      && e[node := Enter(e[node].kind, |e| - node)] == ev + NodeEvents(n, NodeLength(n) - TopOf(n))
  {
    TopIsEnter(n, 0);
  }
}
