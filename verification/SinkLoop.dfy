/** The loop of the sink, which takes events out of the list as it follows their chains. */
module SinkLoop {
  import opened Prelude
  import opened Sink

  function Reversed(kinds: seq<Kind>): seq<Call> {
    if kinds == [] then [] else Reversed(kinds[1..]) + [StartNode(kinds[0])]
  }

  lemma {:induction false} ReversedGrows(kinds: seq<Kind>, k: Kind)
    ensures Reversed(kinds + [k]) == [StartNode(k)] + Reversed(kinds)
    decreases |kinds|
  {
    if kinds != [] {
      ReversedGrows(kinds[1..], k);
      assert (kinds + [k])[1..] == kinds[1..] + [k];
    }
  }

  /** Taking an earlier event does not disturb a chain. */
  lemma {:induction false} ChainAhead(events: seq<Event>, x: nat, o: nat)
    requires x < o && ChainOk(events, o)
    ensures ChainOk(events[x := TOMB], o) && ChainStarts(events[x := TOMB], o) == ChainStarts(events, o)
    ensures Taken(events[x := TOMB], o) == Taken(events, o)[x := TOMB]
    decreases |events| - o
  {
    var e := events[x := TOMB];
    assert e[o] == events[o];
    if events[o].precededBy > 0 {
      ChainAhead(events, x, o + events[o].precededBy);
      assert Taken(events, o + events[o].precededBy)[x := TOMB][o := TOMB] ==
        Taken(events, o + events[o].precededBy)[o := TOMB][x := TOMB];
    } else {
      assert events[x := TOMB][o := TOMB] == events[o := TOMB][x := TOMB];
    }
  }

  /** One event of a chain taken and its kind noted: the rest of the chain asks for what is left. */
  lemma TakeStep(was: seq<Event>, idx: nat, kinds: seq<Kind>, taken: seq<Event>, all: seq<Kind>)
    requires ChainOk(was, idx) && taken == was[idx := TOMB]
    requires all == if was[idx].kind != TOMBSTONE then kinds + [was[idx].kind] else kinds
    ensures var dist := was[idx].precededBy;
      if dist > 0 then
        && ChainOk(taken, idx + dist) && Taken(taken, idx + dist) == Taken(was, idx)
        && ChainStarts(taken, idx + dist) + Reversed(all) == ChainStarts(was, idx) + Reversed(kinds)
      else taken == Taken(was, idx) && Reversed(all) == ChainStarts(was, idx) + Reversed(kinds)
  {
    var dist, kind := was[idx].precededBy, was[idx].kind;
    var own := if kind != TOMBSTONE then [StartNode(kind)] else [];
    ReversedGrows(kinds, kind);
    assert Reversed(all) == own + Reversed(kinds);
    if dist > 0 {
      ChainAhead(was, idx, idx + dist);
      var far := ChainStarts(was, idx + dist);
      assert far + own + Reversed(kinds) == far + (own + Reversed(kinds));
    } else {
      assert [] + own == own;
    }
  }

  /** Follows the chain from `o` on, taking its events and noting their kinds. */
  method TakeChain(events: seq<Event>, o: nat, kinds: seq<Kind>) returns (taken: seq<Event>, all: seq<Kind>)
    requires ChainOk(events, o)
    ensures taken == Taken(events, o) && Reversed(all) == ChainStarts(events, o) + Reversed(kinds)
  {
    var idx, more := o, true;
    taken, all := events, kinds;
    ghost var goal, starts := Taken(events, o), ChainStarts(events, o) + Reversed(kinds);
    while more
      invariant |taken| == |events|
      invariant if more then
          ChainOk(taken, idx) && Taken(taken, idx) == goal && ChainStarts(taken, idx) + Reversed(all) == starts
        else taken == goal && Reversed(all) == starts
      decreases |events| - idx, more
    {
      match taken[idx] {
        case Enter(kind, dist) =>
          ghost var was, noted := taken, all;
          taken := taken[idx := TOMB];
          if kind != TOMBSTONE {
            all := all + [kind];
          }
          TakeStep(was, idx, noted, taken, all);
          if dist > 0 {
            idx := idx + dist;
          } else {
            more := false;
          }
        case _ => assert false;
      }
    }
  }

  /** The noted kinds are started from the last to the first. */
  method StartAll(calls: seq<Call>, kinds: seq<Kind>) returns (r: seq<Call>)
    ensures r == calls + Reversed(kinds)
  {
    r := calls;
    var i := |kinds|;
    assert kinds[..i] == kinds;
    while i > 0
      invariant i <= |kinds| && r + Reversed(kinds[..i]) == calls + Reversed(kinds)
    {
      ReversedGrows(kinds[..i - 1], kinds[i - 1]);
      assert kinds[..i] == kinds[..i - 1] + [kinds[i - 1]];
      i := i - 1;
      r := r + [StartNode(kinds[i])];
    }
  }

  /** A start with its chain: the chain's events are taken and its nodes started. */
  method TakeStart(ev: seq<Event>, idx: nat, kind: Kind, dist: nat, calls: seq<Call>)
    returns (left: seq<Event>, more: seq<Call>)
    requires idx < |ev| && ev[idx] == Enter(kind, dist) && ev[idx] != TOMB && SinkRun(ev[idx..]).Some?
    ensures |left| == |ev| && Prepend(more, SinkRun(left[idx + 1..])) == Prepend(calls, SinkRun(ev[idx..]))
  {
    ghost var rest := ev[idx..];
    assert rest[0] == ev[idx] && rest[1..] == ev[idx + 1..] && StartOk(rest);
    left := ev;
    var kinds := [kind];
    assert Reversed(kinds) == [StartNode(kind)] by { assert kinds[1..] == []; }
    if dist > 0 {
      ChainFrom(ev, idx, dist);
      left, kinds := TakeChain(ev, idx + dist, kinds);
      AfterTaken(left, idx, Taken(rest, dist));
    }
    StartJoins(rest, calls, Reversed(kinds), left[idx + 1..]);
    more := StartAll(calls, kinds);
  }

  lemma AfterTaken(left: seq<Event>, idx: nat, taken: seq<Event>)
    requires idx < |left| && left[idx..] == taken
    ensures left[idx + 1..] == taken[1..]
  {
  }

  lemma StartJoins(rest: seq<Event>, calls: seq<Call>, starts: seq<Call>, after: seq<Event>)
    requires rest != [] && rest[0].Enter? && rest[0] != TOMB && StartOk(rest)
    requires starts == StartCalls(rest) && after == AfterStart(rest)
    ensures Prepend(calls + starts, SinkRun(after)) == Prepend(calls, SinkRun(rest))
  {
    PrependTwice(calls, starts, SinkRun(after));
  }

  /** One event that is no start. */
  lemma PlainStep(ev: seq<Event>, idx: nat, calls: seq<Call>)
    requires idx < |ev|
    ensures ev[idx] == TOMB ==> SinkRun(ev[idx..]) == SinkRun(ev[idx + 1..])
    ensures ev[idx].Exit? ==>
              Prepend(calls + [FinishNode], SinkRun(ev[idx + 1..])) == Prepend(calls, SinkRun(ev[idx..]))
    ensures ev[idx].Leaf? ==>
              Prepend(calls + [Token(ev[idx].token)], SinkRun(ev[idx + 1..])) == Prepend(calls, SinkRun(ev[idx..]))
  {
    var rest := ev[idx + 1..];
    assert ev[idx..] == [ev[idx]] + rest;
    match ev[idx] {
      case Enter(_, _) => TombStep(rest);
      case Exit =>
        ExitStep(rest);
        PrependTwice(calls, [FinishNode], SinkRun(rest));
      case Leaf(t) =>
        LeafStep(t, rest);
        PrependTwice(calls, [Token(t)], SinkRun(rest));
    }
  }

  /** `Sink::finish`: where no chain leads astray, the calls of `SinkRun`. */
  method Finish(events: seq<Event>) returns (calls: seq<Call>)
    requires SinkRun(events).Some?
    ensures SinkRun(events) == Some(calls)
  {
    var ev := events;
    calls := [];
    var idx := 0;
    PrependNothing(SinkRun(events));
    assert ev[0..] == events;
    while idx < |ev|
      invariant idx <= |ev| == |events| && Prepend(calls, SinkRun(ev[idx..])) == SinkRun(events)
    {
      match ev[idx] {
        case Enter(kind, dist) =>
          if kind != TOMBSTONE || dist != 0 {
            ev, calls := TakeStart(ev, idx, kind, dist, calls);
          } else {
            PlainStep(ev, idx, calls);
          }
        case Exit =>
          PlainStep(ev, idx, calls);
          calls := calls + [FinishNode];
        case Leaf(t) =>
          PlainStep(ev, idx, calls);
          calls := calls + [Token(t)];
      }
      idx := idx + 1;
    }
    assert ev[idx..] == [];
    assert calls + [] == calls;
  }

  /** A chain in the events from `idx` on is a chain in all of them. */
  lemma ChainFrom(ev: seq<Event>, idx: nat, o: nat)
    requires idx < |ev| && ChainOk(ev[idx..], o)
    ensures ChainOk(ev, idx + o) && ChainStarts(ev, idx + o) == ChainStarts(ev[idx..], o)
    ensures Taken(ev, idx + o)[idx..] == Taken(ev[idx..], o)
  {
    ChainShifts(ev[..idx], ev[idx..], o);
    assert ev[..idx] + ev[idx..] == ev;
  }
}
