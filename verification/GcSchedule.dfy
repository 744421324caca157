/** Which steps one call of `do_collection` takes, and when it ends: neither too soon nor too late. */
module GcSchedule {
  import opened Prelude
  import opened GcTypes
  import opened GcSpec
  import opened GcSweep
  import opened GcRuns
  import opened GcProgress
  import M = GcMetrics

  /** The call has come to the end of a cycle that its stop condition ends at. */
  predicate EndsCycle(steps: seq<Step>, stop: StopAt) {
    steps != [] &&
    match stop
    case FinishCycle => steps[|steps| - 1].Finish?
    case Full => steps[|steps| - 1] == Finish(true)
    case _ => false
  }

  /** What the stop condition names has been reached, by `steps`, in the state `s`. */
  predicate StopReached(s: State, steps: seq<Step>, stop: StopAt) {
    match stop
    case FullyMarked => s.phase.Sweep? || Marked(s)
    case AtSweep => s.phase.Sweep?
    case _ => EndsCycle(steps, stop)
  }

  predicate Paid(s: State, runUntil: RunUntil) {
    runUntil.PayDebt? && M.AllocationDebt(s.m) <= 0.0
  }

  predicate Over(s: State, steps: seq<Step>, runUntil: RunUntil, stop: StopAt) {
    Paid(s, runUntil) || StopReached(s, steps, stop)
  }

  /** Step `i` was still to be taken; the debt is forgiven at the end of a cycle that the call began itself. */
  ghost predicate Due(w: World, steps: seq<Step>, i: nat, runUntil: RunUntil, stop: StopAt)
    requires i < |steps|
  {
    && Runs(w, steps[..i]) && !Over(After(w, steps[..i]).s, steps[..i], runUntil, stop)
    && (steps[i].Finish? ==> steps[i].hasSlept == (WakeUp in steps[..i]))
  }

  ghost predicate AllDue(w: World, steps: seq<Step>, runUntil: RunUntil, stop: StopAt) {
    forall i :: 0 <= i < |steps| ==> Due(w, steps, i, runUntil, stop)
  }

  /** The call takes steps until it is over, and none after that. */
  ghost predicate Collects(s0: State, root: seq<Edge>, steps: seq<Step>, s: State, runUntil: RunUntil, stop: StopAt) {
    Steps(s0, root, steps, s) && AllDue(Between(s0, root), steps, runUntil, stop) && Over(s, steps, runUntil, stop)
  }

  lemma OneMoreDue(s0: State, root: seq<Edge>, steps: seq<Step>, s: State, st: Step, runUntil: RunUntil, stop: StopAt)
    requires Steps(s0, root, steps, s) && AllDue(Between(s0, root), steps, runUntil, stop)
    requires !Over(s, steps, runUntil, stop) && (st.Finish? ==> st.hasSlept == (WakeUp in steps))
    ensures AllDue(Between(s0, root), steps + [st], runUntil, stop)
  {
    var w, more := Between(s0, root), steps + [st];
    forall i | 0 <= i < |more| ensures Due(w, more, i, runUntil, stop) {
      if i < |steps| {
        assert Due(w, steps, i, runUntil, stop) && more[..i] == steps[..i] && more[i] == steps[i];
      } else {
        assert more[..i] == steps;
      }
    }
  }

  /** The steps so far were all due, and the call is not over by the end of a cycle. */
  ghost predicate OnTime(s0: State, root: seq<Edge>, steps: seq<Step>, runUntil: RunUntil, stop: StopAt, hasSlept: bool)
  {
    && AllDue(Between(s0, root), steps, runUntil, stop) && !EndsCycle(steps, stop)
    && (hasSlept <==> WakeUp in steps)
  }

  /** After a round of the loop: the call is over by its stop condition, or goes on. */
  ghost predicate RoundDue(s0: State, root: seq<Edge>, steps: seq<Step>, s: State, runUntil: RunUntil, stop: StopAt,
    hasSlept: bool, stopped: bool)
  {
    if stopped then AllDue(Between(s0, root), steps, runUntil, stop) && StopReached(s, steps, stop)
    else OnTime(s0, root, steps, runUntil, stop, hasSlept)
  }

  lemma WakeDue(s0: State, root: seq<Edge>, past: seq<Step>, s: State, runUntil: RunUntil, stop: StopAt, hasSlept: bool)
    requires Steps(s0, root, past, s) && OnTime(s0, root, past, runUntil, stop, hasSlept) && !Paid(s, runUntil)
    requires s.phase.Sleep?
    ensures OnTime(s0, root, past + [WakeUp], runUntil, stop, true)
  {
    OneMoreDue(s0, root, past, s, WakeUp, runUntil, stop);
  }

  lemma MarkDue(s0: State, root: seq<Edge>, past: seq<Step>, s: State, runUntil: RunUntil, stop: StopAt, hasSlept: bool)
    requires Steps(s0, root, past, s) && OnTime(s0, root, past, runUntil, stop, hasSlept) && !Paid(s, runUntil)
    requires s.phase.Mark?
    ensures GrayRemaining(s) ==> OnTime(s0, root, past + [MarkStep], runUntil, stop, hasSlept)
    ensures !GrayRemaining(s) && !stop.FullyMarked? ==> OnTime(s0, root, past + [BeginSweep], runUntil, stop, hasSlept)
  {
    if GrayRemaining(s) {
      OneMoreDue(s0, root, past, s, MarkStep, runUntil, stop);
    } else if !stop.FullyMarked? {
      OneMoreDue(s0, root, past, s, BeginSweep, runUntil, stop);
    }
  }

  lemma SweepDue(s0: State, root: seq<Edge>, past: seq<Step>, s: State, runUntil: RunUntil, stop: StopAt,
    hasSlept: bool)
    requires Steps(s0, root, past, s) && OnTime(s0, root, past, runUntil, stop, hasSlept) && !Paid(s, runUntil)
    requires s.phase.Sweep?
    ensures !stop.FullyMarked? && !stop.AtSweep? ==>
              && OnTime(s0, root, past + [SweepStep], runUntil, stop, hasSlept)
              && AllDue(Between(s0, root), past + [Finish(hasSlept)], runUntil, stop)
              && (hasSlept <==> WakeUp in past + [Finish(hasSlept)])
  {
    if !stop.FullyMarked? && !stop.AtSweep? {
      OneMoreDue(s0, root, past, s, SweepStep, runUntil, stop);
      OneMoreDue(s0, root, past, s, Finish(hasSlept), runUntil, stop);
    }
  }

  /** In each state there is one step for the collector to take, but for the debt it may forgive. */
  lemma OneStepEnabled(w: World, a: Step, b: Step)
    requires Collecting(a) && Collecting(b) && Enabled(w, a) && Enabled(w, b)
    ensures a == b || (a.Finish? && b.Finish?)
  {
  }

  lemma {:induction false} RunsPrefix(w: World, steps: seq<Step>, i: nat)
    requires Runs(w, steps) && i < |steps|
    ensures Runs(w, steps[..i]) && Enabled(After(w, steps[..i]), steps[i])
    decreases i
  {
    if i > 0 {
      RunsPrefix(Do(w, steps[0]), steps[1..], i - 1);
      assert steps[..i][1..] == steps[1..][..i - 1];
    }
  }

  lemma SameStep(w: World, a: seq<Step>, b: seq<Step>, runUntil: RunUntil, stop: StopAt, k: nat)
    requires k < |a| && k < |b| && a[..k] == b[..k] && Runs(w, a) && Runs(w, b) && Collecting(a[k]) && Collecting(b[k])
    requires Due(w, a, k, runUntil, stop) && Due(w, b, k, runUntil, stop)
    ensures a[k] == b[k]
  {
    RunsPrefix(w, a, k);
    RunsPrefix(w, b, k);
    OneStepEnabled(After(w, a[..k]), a[k], b[k]);
  }

  lemma {:induction false} SamePrefix(s0: State, root: seq<Edge>, a: seq<Step>, s: State, b: seq<Step>, t: State,
    runUntil: RunUntil, stop: StopAt, i: nat)
    requires Collects(s0, root, a, s, runUntil, stop) && Collects(s0, root, b, t, runUntil, stop)
    requires i <= |a| && i <= |b|
    ensures a[..i] == b[..i]
    decreases i
  {
    if i > 0 {
      SamePrefix(s0, root, a, s, b, t, runUntil, stop, i - 1);
      SameStep(Between(s0, root), a, b, runUntil, stop, i - 1);
      assert a[..i] == a[..i - 1] + [a[i - 1]] && b[..i] == b[..i - 1] + [b[i - 1]];
    }
  }

  /** A call cannot go on where another one of the same kind has ended. */
  lemma NotLonger(s0: State, root: seq<Edge>, a: seq<Step>, s: State, b: seq<Step>, t: State,
    runUntil: RunUntil, stop: StopAt)
    requires Collects(s0, root, a, s, runUntil, stop) && Collects(s0, root, b, t, runUntil, stop)
    ensures |b| <= |a|
  {
    if |a| < |b| {
      assert a[..|a|] == a;
      assert Due(Between(s0, root), b, |a|, runUntil, stop);
      SamePrefix(s0, root, a, s, b, t, runUntil, stop, |a|);
    }
  }

  /** The steps and the final state of a call are determined by its arguments and the state it starts in. */
  lemma CollectsOneWay(s0: State, root: seq<Edge>, a: seq<Step>, s: State, b: seq<Step>, t: State,
    runUntil: RunUntil, stop: StopAt)
    requires Collects(s0, root, a, s, runUntil, stop) && Collects(s0, root, b, t, runUntil, stop)
    ensures a == b && s == t
  {
    NotLonger(s0, root, a, s, b, t, runUntil, stop);
    NotLonger(s0, root, b, t, a, s, runUntil, stop);
    SamePrefix(s0, root, a, s, b, t, runUntil, stop, |a|);
    assert a[..|a|] == a && b[..|b|] == b;
  }

  /** A call that pays debt does nothing when there is none, and else ends with none or where it was told to stop. */
  lemma PaysDebt(s0: State, root: seq<Edge>, steps: seq<Step>, s: State, stop: StopAt)
    requires Collects(s0, root, steps, s, PayDebt, stop)
    ensures M.AllocationDebt(s0.m) <= 0.0 ==> steps == [] && s == s0
    ensures M.AllocationDebt(s.m) <= 0.0 || StopReached(s, steps, stop)
    ensures forall i :: 0 <= i < |steps| && Runs(Between(s0, root), steps[..i]) ==>
              M.AllocationDebt(After(Between(s0, root), steps[..i]).s.m) > 0.0
  {
    if steps != [] {
      assert Due(Between(s0, root), steps, 0, PayDebt, stop);
      assert steps[..0] == [];
    }
    forall i | 0 <= i < |steps| && Runs(Between(s0, root), steps[..i])
      ensures M.AllocationDebt(After(Between(s0, root), steps[..i]).s.m) > 0.0
    {
      assert Due(Between(s0, root), steps, i, PayDebt, stop);
    }
  }
}
