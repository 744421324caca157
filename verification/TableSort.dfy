/** `table.sort`: the iterative quicksort over the one-based range `[1, n]` of a table. */
module TableSort {
  import opened Prelude

  /** The active order: a comparator or `<`, or `None` when comparing raises an error. */
  type Order<!T> = (T, T) -> Option<bool>

  datatype Outcome = Sorted | InvalidOrder | Raised | TooBig

  predicate Before<T>(less: Order<T>, x: T, y: T) {
    less(x, y).Some? && less(x, y).value
  }

  /** `x` may stand before `y`. */
  predicate Leq<T>(less: Order<T>, x: T, y: T) {
    less(y, x).Some? && !less(y, x).value
  }

  /** A comparator that never raises and is irreflexive, transitive, with transitive ties. */
  ghost predicate StrictWeak<T(!new)>(less: Order<T>) {
    && (forall x, y :: less(x, y).Some?)
    && (forall x :: !Before(less, x, x))
    && (forall x, y, z :: Before(less, x, y) && Before(less, y, z) ==> Before(less, x, z))
    && (forall x, y, z :: Tied(less, x, y) && Tied(less, y, z) ==> Tied(less, x, z))
  }

  predicate Tied<T>(less: Order<T>, x: T, y: T) {
    !Before(less, x, y) && !Before(less, y, x)
  }

  lemma LeqTrans<T(!new)>(less: Order<T>, x: T, y: T, z: T)
    requires StrictWeak(less) && Leq(less, x, y) && Leq(less, y, z)
    ensures Leq(less, x, z)
  {
    assert less(z, x).Some?;
    assert Before(less, z, x) && Before(less, x, y) ==> Before(less, z, y);
    assert Before(less, y, z) && Before(less, z, x) ==> Before(less, y, x);
    assert Tied(less, x, y) && Tied(less, y, z) ==> Tied(less, x, z);
  }

  lemma LessIsLeq<T(!new)>(less: Order<T>, x: T, y: T)
    requires StrictWeak(less) && Before(less, x, y)
    ensures Leq(less, x, y)
  {
    assert Before(less, y, x) ==> Before(less, x, x);
  }

  // ----- the comparisons made -----

  /** A comparison; `last` when it is that of a scan with the element at its bound. */
  datatype Call<T> = Call(x: T, y: T, last: bool)

  function Answer<T>(less: Order<T>, c: Call<T>): Option<bool> {
    less(c.x, c.y)
  }

  /** It does not raise, and no scan runs past its bound. */
  predicate Passed<T>(less: Order<T>, c: Call<T>) {
    Answer(less, c).Some? && !(c.last && Answer(less, c).value)
  }

  predicate AllPassed<T>(less: Order<T>, log: seq<Call<T>>) {
    forall i :: 0 <= i < |log| ==> Passed(less, log[i])
  }

  /** The outcome is that of the last comparison, and every one before it has passed. */
  predicate Explains<T>(less: Order<T>, log: seq<Call<T>>, r: Outcome) {
    match r
    case Sorted => AllPassed(less, log)
    case TooBig => log == []
    case _ =>
      && log != [] && AllPassed(less, log[..|log| - 1])
      && if r.Raised? then Answer(less, log[|log| - 1]) == None
         else log[|log| - 1].last && Answer(less, log[|log| - 1]) == Some(true)
  }

  /** Some comparison found two elements not in order. */
  predicate SomeNotLess<T>(less: Order<T>, log: seq<Call<T>>) {
    exists i :: 0 <= i < |log| && Answer(less, log[i]) == Some(false)
  }

  lemma Logged<T>(less: Order<T>, past: seq<Call<T>>, c: Call<T>)
    requires AllPassed(less, past)
    ensures Explains(less, past + [c],
              if Answer(less, c) == None then Raised else if Passed(less, c) then Sorted else InvalidOrder)
    ensures Answer(less, c) == Some(false) ==> SomeNotLess(less, past + [c])
  {
    var log := past + [c];
    assert log[..|past|] == past && log[|past|] == c;
  }

  lemma StillNotLess<T>(less: Order<T>, past: seq<Call<T>>, log: seq<Call<T>>)
    requires SomeNotLess(less, past) && past <= log
    ensures SomeNotLess(less, log)
  {
    var i :| 0 <= i < |past| && Answer(less, past[i]) == Some(false);
    assert log[i] == past[i];
  }

  /** What is compared are elements of the table. */
  predicate Among<T(==)>(log: seq<Call<T>>, before: seq<T>, n: nat)
    requires n < |before|
  {
    forall i :: 0 <= i < |log| ==> log[i].x in before[1..n + 1] && log[i].y in before[1..n + 1]
  }

  // ----- intervals still to be sorted -----

  type Interval = (nat, nat)

  predicate In(v: Interval, x: nat) {
    v.0 <= x <= v.1
  }

  ghost predicate Together(work: seq<Interval>, x: nat, y: nat) {
    exists k :: 0 <= k < |work| && In(work[k], x) && In(work[k], y)
  }

  ghost predicate Apart(work: seq<Interval>) {
    forall k, l, x: nat :: 0 <= k < l < |work| && In(work[k], x) ==> !In(work[l], x)
  }

  predicate Within(work: seq<Interval>, n: nat) {
    forall k :: 0 <= k < |work| ==> 1 <= work[k].0 && work[k].1 <= n
  }

  /** In order, except inside the intervals still to be sorted. */
  ghost predicate Arranged<T>(less: Order<T>, s: seq<T>, n: nat, work: seq<Interval>)
    requires n < |s|
  {
    forall x: nat, y: nat :: 1 <= x < y <= n ==> Leq(less, s[x], s[y]) || Together(work, x, y)
  }

  /** Work left: every element of every interval, and the intervals themselves. */
  function Size(v: Interval): nat {
    if v.0 <= v.1 then v.1 - v.0 + 1 else 0
  }

  function Weight(work: seq<Interval>): nat {
    if work == [] then 0 else Weight(work[..|work| - 1]) + Size(work[|work| - 1]) + 1
  }

  function Swapped<T>(s: seq<T>, i: nat, j: nat): seq<T>
    requires i < |s| && j < |s|
  {
    s[i := s[j]][j := s[i]]
  }

  /** Swapping inside an interval disturbs nothing outside it. */
  lemma SwapKeeps<T>(less: Order<T>, s: seq<T>, n: nat, rest: seq<Interval>, v: Interval, i: nat, j: nat)
    requires n < |s| && Arranged(less, s, n, rest + [v]) && Apart(rest + [v]) && Within(rest + [v], n)
    requires In(v, i) && In(v, j) && i <= n && j <= n
    ensures Arranged(less, Swapped(s, i, j), n, rest + [v])
  {
    var work, t := rest + [v], Swapped(s, i, j);
    assert work[|rest|] == v;
    forall x: nat, y: nat | 1 <= x < y <= n && !Together(work, x, y) ensures Leq(less, t[x], t[y]) {
      var x', y' := Source(i, j, x), Source(i, j, y);
      assert t[x] == s[x'] && t[y] == s[y'];
      assert x' < y' && !Together(work, x', y') by {
        if In(v, x) { assert !In(v, y); OnlyIn(rest, v, x); OnlyIn(rest, v, x'); }
        if In(v, y) { assert !In(v, x); OnlyIn(rest, v, y); OnlyIn(rest, v, y'); }
      }
    }
  }

  /** The place from which a swap brings an element. */
  function Source(i: nat, j: nat, x: nat): nat {
    if x == i then j else if x == j then i else x
  }

  lemma OnlyIn(rest: seq<Interval>, v: Interval, x: nat)
    requires Apart(rest + [v]) && In(v, x)
    ensures forall k :: 0 <= k < |rest + [v]| && In((rest + [v])[k], x) ==> k == |rest|
  {
    var work := rest + [v];
    assert work[|rest|] == v;
  }

  /** An interval in order need not be sorted any more. */
  lemma DropInterval<T>(less: Order<T>, s: seq<T>, n: nat, rest: seq<Interval>, v: Interval)
    requires n < |s| && Arranged(less, s, n, rest + [v]) && Within(rest + [v], n)
    requires forall x: nat, y: nat :: v.0 <= x < y <= v.1 && y < |s| ==> Leq(less, s[x], s[y])
    ensures Arranged(less, s, n, rest)
  {
    var work := rest + [v];
    assert work[|rest|] == v;
    forall x: nat, y: nat | 1 <= x < y <= n ensures Leq(less, s[x], s[y]) || Together(rest, x, y) {
      if Together(work, x, y) {
        var k :| 0 <= k < |work| && In(work[k], x) && In(work[k], y);
        if k < |rest| { assert rest[k] == work[k]; }
      }
    }
  }

  /** A partitioned interval becomes the two around its pivot. */
  lemma SplitInterval<T(!new)>(less: Order<T>, s: seq<T>, n: nat, rest: seq<Interval>, v: Interval, part: nat,
    a: Interval, b: Interval)
    requires n < |s| && Arranged(less, s, n, rest + [v]) && Apart(rest + [v]) && Within(rest + [v], n)
    requires v.0 < part < v.1 <= n && (a, b) == ((v.0, part - 1), (part + 1, v.1)) && StrictWeak(less)
    requires forall x: nat :: v.0 <= x < part ==> Leq(less, s[x], s[part])
    requires forall x: nat :: part < x <= v.1 ==> Leq(less, s[part], s[x])
    ensures Arranged(less, s, n, rest + [a] + [b])
  {
    var work, now := rest + [v], rest + [a] + [b];
    assert work[|rest|] == v && now[|rest|] == a && now[|rest| + 1] == b;
    forall x: nat, y: nat | 1 <= x < y <= n ensures Leq(less, s[x], s[y]) || Together(now, x, y) {
      if Together(work, x, y) {
        var k :| 0 <= k < |work| && In(work[k], x) && In(work[k], y);
        if k < |rest| {
          assert now[k] == work[k];
        } else if x < part < y {
          LeqTrans(less, s[x], s[part], s[y]);
        }
      }
    }
  }

  lemma SplitApart(rest: seq<Interval>, v: Interval, part: nat, a: Interval, b: Interval, n: nat)
    requires Apart(rest + [v]) && Within(rest + [v], n) && v.0 < part < v.1
    requires (a, b) == ((v.0, part - 1), (part + 1, v.1))
    ensures Apart(rest + [a] + [b]) && Within(rest + [a] + [b], n)
  {
    var work, now := rest + [v], rest + [a] + [b];
    assert work[|rest|] == v;
    forall k, l, x: nat | 0 <= k < l < |now| && In(now[k], x) ensures !In(now[l], x) {
      if k < |rest| { assert now[k] == work[k] == rest[k]; }
      if l < |rest| { assert now[l] == work[l] == rest[l]; }
    }
    assert forall k :: 0 <= k < |rest| ==> now[k] == work[k];
  }

  lemma ArrangedSwap<T>(less: Order<T>, s: seq<T>, n: nat, rest: seq<Interval>, a: Interval, b: Interval)
    requires n < |s| && Arranged(less, s, n, rest + [a] + [b]) && Apart(rest + [a] + [b]) && Within(rest + [a] + [b], n)
    ensures Arranged(less, s, n, rest + [b] + [a]) && Apart(rest + [b] + [a]) && Within(rest + [b] + [a], n)
  {
    var w, u := rest + [a] + [b], rest + [b] + [a];
    assert forall k :: 0 <= k < |rest| ==> w[k] == u[k];
    assert w[|rest|] == u[|rest| + 1] && w[|rest| + 1] == u[|rest|];
    forall x: nat, y: nat | Together(w, x, y) ensures Together(u, x, y) {
      var k :| 0 <= k < |w| && In(w[k], x) && In(w[k], y);
      var l := if k < |rest| then k else if k == |rest| then k + 1 else k - 1;
      assert u[l] == w[k];
    }
    forall k, l, x: nat | 0 <= k < l < |u| && In(u[k], x) ensures !In(u[l], x) {
      if k >= |rest| { assert u[k] == b && u[l] == a; assert w[|rest|] == a && w[|rest| + 1] == b; }
      else { assert u[k] == w[k]; assert u[l] == w[if l < |rest| then l else if l == |rest| then l + 1 else l - 1]; }
    }
  }

  // ----- the sort -----

  /** What the sort has kept of the table it was given: same elements, only `[1, n]` touched. */
  ghost predicate Shuffled<T>(before: seq<T>, after: seq<T>, n: nat) {
    && |after| == |before| && multiset(after) == multiset(before)
    && forall k :: 0 <= k < |after| && !(1 <= k <= n) ==> after[k] == before[k]
  }

  lemma SwapShuffles<T>(before: seq<T>, s: seq<T>, n: nat, i: nat, j: nat)
    requires Shuffled(before, s, n) && 1 <= i <= n < |s| && 1 <= j <= n
    ensures Shuffled(before, Swapped(s, i, j), n)
  {
    assert multiset(Swapped(s, i, j)) == multiset(s);
  }

  lemma Split<T>(s: seq<T>, n: nat)
    requires 1 <= n < |s|
    ensures multiset(s[1..n + 1]) == multiset(s) - multiset(s[..1]) - multiset(s[n + 1..])
  {
    assert s == s[..1] + s[1..n + 1] + s[n + 1..];
    assert multiset(s) == multiset(s[..1]) + multiset(s[1..n + 1]) + multiset(s[n + 1..]);
  }

  lemma ElementOf<T>(before: seq<T>, s: seq<T>, n: nat, k: nat)
    requires Shuffled(before, s, n) && 1 <= k <= n < |s|
    ensures s[k] in before[1..n + 1]
  {
    Split(s, n);
    Split(before, n);
    assert s[..1] == before[..1] && s[n + 1..] == before[n + 1..];
    assert s[1..n + 1][k - 1] == s[k];
    assert s[k] in multiset(s[1..n + 1]) && s[k] in multiset(before[1..n + 1]);
  }

  /** What has been compared since `past`: elements of the table, and in the end the outcome `r`. */
  ghost predicate Fair<T(!new)>(less: Order<T>, before: seq<T>, n: nat, past: seq<Call<T>>, log: seq<Call<T>>,
    r: Outcome)
  {
    n < |before| && past <= log && Explains(less, log, r) && Among(log, before, n)
  }

  /** `sort_less`: one more comparison. */
  method Compare<T(!new)>(a: array<T>, n: nat, less: Order<T>, x: nat, y: nat, ghost last: bool, ghost before: seq<T>,
    ghost past: seq<Call<T>>)
    returns (b: Option<bool>, ghost log: seq<Call<T>>)
    requires 1 <= x <= n < a.Length && 1 <= y <= n && Shuffled(before, a[..], n)
    requires Fair(less, before, n, past, past, Sorted)
    ensures b == less(a[x], a[y]) && log == past + [Call(a[x], a[y], last)]
    ensures Fair(less, before, n, past, log,
              if b == None then Raised else if last && b.value then InvalidOrder else Sorted)
    ensures b == Some(false) ==> SomeNotLess(less, log)
  {
    b := less(a[x], a[y]);
    ghost var c := Call(a[x], a[y], last);
    log := past + [c];
    Logged(less, past, c);
    ElementOf(before, a[..], n, x);
    ElementOf(before, a[..], n, y);
  }

  /** Everything the sort keeps while `work` is left; the order only for a proper comparator. */
  ghost predicate Sorting<T(!new)>(less: Order<T>, before: seq<T>, s: seq<T>, n: nat, work: seq<Interval>) {
    && n < |s| && Shuffled(before, s, n) && Within(work, n)
    && (StrictWeak(less) ==> Apart(work) && Arranged(less, s, n, work))
  }

  lemma SwapSorting<T(!new)>(less: Order<T>, before: seq<T>, s: seq<T>, n: nat, rest: seq<Interval>, v: Interval,
    i: nat, j: nat)
    requires Sorting(less, before, s, n, rest + [v]) && In(v, i) && In(v, j)
    ensures 1 <= i <= n && 1 <= j <= n && Sorting(less, before, Swapped(s, i, j), n, rest + [v])
  {
    assert (rest + [v])[|rest|] == v;
    SwapShuffles(before, s, n, i, j);
    if StrictWeak(less) { SwapKeeps(less, s, n, rest, v, i, j); }
  }

  method Swap<T(!new)>(a: array<T>, n: nat, i: nat, j: nat, less: Order<T>, ghost before: seq<T>,
    ghost rest: seq<Interval>, ghost v: Interval)
    requires Sorting(less, before, a[..], n, rest + [v]) && In(v, i) && In(v, j)
    modifies a
    ensures 1 <= i <= n < a.Length && 1 <= j <= n && a[..] == Swapped(old(a[..]), i, j)
    ensures Sorting(less, before, a[..], n, rest + [v])
  {
    SwapSorting(less, before, a[..], n, rest, v, i, j);
    a[i], a[j] := a[j], a[i];
    assert a[..] == Swapped(old(a[..]), i, j);
  }

  /** The interval on top of the stack lies in `[1, n]`. */
  lemma TopWithin<T(!new)>(less: Order<T>, before: seq<T>, s: seq<T>, n: nat, rest: seq<Interval>, v: Interval)
    requires Sorting(less, before, s, n, rest + [v]) && v.0 < v.1
    ensures 1 <= v.0 && v.1 <= n < |s|
  {
    assert (rest + [v])[|rest|] == v;
  }

  /** After the median of three: the sentinels around the middle element. */
  ghost predicate Median<T(!new)>(less: Order<T>, s: seq<T>, lo: nat, p: nat, up: nat) {
    lo < |s| && p < |s| && up < |s| && (StrictWeak(less) ==> Leq(less, s[lo], s[p]) && Leq(less, s[p], s[up]))
  }

  /** Orders `a[lo]`, `a[p]` and `a[up]`, the endpoints being in order already. */
  method MedianOfThree<T(!new)>(a: array<T>, n: nat, less: Order<T>, lo: nat, p: nat, up: nat, ghost before: seq<T>,
    ghost rest: seq<Interval>, ghost past: seq<Call<T>>)
    returns (r: Outcome, ghost log: seq<Call<T>>)
    requires Sorting(less, before, a[..], n, rest + [(lo, up)]) && lo < p < up <= n < a.Length
    requires StrictWeak(less) ==> Leq(less, a[lo], a[up])
    requires Fair(less, before, n, past, past, Sorted)
    modifies a
    ensures Fair(less, before, n, past, log, r)
    ensures r.Sorted? || (r.Raised? && !StrictWeak(less))
    ensures Sorting(less, before, a[..], n, rest + [(lo, up)])
    ensures r.Sorted? ==> Median(less, a[..], lo, p, up)
  {
    TopWithin(less, before, a[..], n, rest, (lo, up));
    var b;
    b, log := Compare(a, n, less, p, lo, false, before, past);
    if b == None {
      return Raised, log;
    }
    if b.value {
      if StrictWeak(less) { LessIsLeq(less, a[p], a[lo]); }
      Swap(a, n, p, lo, less, before, rest, (lo, up));
    } else {
      b, log := Compare(a, n, less, up, p, false, before, log);
      if b == None {
        return Raised, log;
      }
      if b.value {
        if StrictWeak(less) { LessIsLeq(less, a[up], a[p]); }
        Swap(a, n, p, up, less, before, rest, (lo, up));
      }
    }
    return Sorted, log;
  }

  /** The elements passed by `i` may stand before the pivot. */
  ghost predicate LowSide<T(!new)>(less: Order<T>, s: seq<T>, from: nat, to: nat, piv: nat) {
    to <= |s| && piv < |s| && forall k: nat :: from <= k < to ==> Leq(less, s[k], s[piv])
  }

  /** The elements passed by `j` may stand behind the pivot. */
  ghost predicate HighSide<T(!new)>(less: Order<T>, s: seq<T>, from: nat, to: nat, piv: nat) {
    to < |s| && piv < |s| && forall k: nat :: from <= k <= to ==> Leq(less, s[piv], s[k])
  }

  /** The state of a partition: `i` and `j` have come this far. */
  ghost predicate Scanned<T(!new)>(less: Order<T>, s: seq<T>, lo: nat, up: nat, i: nat, j: nat) {
    lo < up && (StrictWeak(less) ==> LowSide(less, s, lo, i + 1, up - 1) && HighSide(less, s, j, up, up - 1))
  }

  /** Advances past elements that are less than the pivot at `up - 1`. */
  method ScanUp<T(!new)>(a: array<T>, n: nat, less: Order<T>, lo: nat, up: nat, start: nat, j: nat,
    ghost before: seq<T>, ghost past: seq<Call<T>>)
    returns (r: Outcome, i: nat, ghost log: seq<Call<T>>)
    requires n < a.Length && Shuffled(before, a[..], n) && Fair(less, before, n, past, past, Sorted)
    requires 1 <= lo <= start < up - 1 && up <= n < a.Length && Scanned(less, a[..], lo, up, start, j)
    ensures Fair(less, before, n, past, log, r) && (r.Sorted? ==> SomeNotLess(less, log))
    ensures !r.TooBig? && (r.Sorted? ==> start < i <= up - 1) && (r.InvalidOrder? ==> i == up - 1)
    ensures StrictWeak(less) ==>
              r.Sorted? && LowSide(less, a[..], lo, i, up - 1) && Leq(less, a[up - 1], a[i])
  {
    i, log := start, past;
    while true
      invariant start <= i < up - 1 && Fair(less, before, n, past, log, Sorted)
      invariant StrictWeak(less) ==> LowSide(less, a[..], lo, i + 1, up - 1)
      decreases up - i
    {
      i := i + 1;
      var b;
      b, log := Compare(a, n, less, i, up - 1, i == up - 1, before, log);
      if b == None {
        return Raised, i, log;
      }
      if !b.value {
        return Sorted, i, log;
      }
      if i == up - 1 {
        assert StrictWeak(less) ==> !Before(less, a[i], a[i]);
        return InvalidOrder, i, log;
      }
      if StrictWeak(less) { LessIsLeq(less, a[i], a[up - 1]); }
    }
  }

  /** Retreats past elements that are greater than the pivot at `up - 1`. */
  method ScanDown<T(!new)>(a: array<T>, n: nat, less: Order<T>, lo: nat, up: nat, i: nat, start: nat,
    ghost before: seq<T>, ghost past: seq<Call<T>>)
    returns (r: Outcome, j: nat, ghost log: seq<Call<T>>)
    requires n < a.Length && Shuffled(before, a[..], n) && Fair(less, before, n, past, past, Sorted)
    requires 1 <= lo < i <= up - 1 && lo < start <= up - 1 && up <= n < a.Length
    requires StrictWeak(less) ==> LowSide(less, a[..], lo, i, up - 1) && HighSide(less, a[..], start, up, up - 1)
    ensures Fair(less, before, n, past, log, r)
    ensures !r.TooBig? && (r.Sorted? ==> lo <= j < start) && (r.InvalidOrder? ==> j < i)
    ensures StrictWeak(less) ==>
              r.Sorted? && HighSide(less, a[..], j + 1, up, up - 1) && Leq(less, a[j], a[up - 1])
  {
    j, log := start, past;
    while true
      invariant lo < j <= start && Fair(less, before, n, past, log, Sorted)
      invariant StrictWeak(less) ==> HighSide(less, a[..], j, up, up - 1)
      decreases j
    {
      j := j - 1;
      var b;
      b, log := Compare(a, n, less, up - 1, j, j < i, before, log);
      if b == None {
        return Raised, j, log;
      }
      if !b.value {
        return Sorted, j, log;
      }
      if j < i {
        return InvalidOrder, j, log;
      }
      if StrictWeak(less) { LessIsLeq(less, a[up - 1], a[j]); }
    }
  }

  /** The pivot in its place, smaller elements before it and greater ones behind. */
  ghost predicate Partitioned<T(!new)>(less: Order<T>, s: seq<T>, lo: nat, up: nat, part: nat) {
    lo < part < up && (StrictWeak(less) ==> LowSide(less, s, lo, part, part) && HighSide(less, s, part + 1, up, part))
  }

  /** The scans have met: the pivot belongs where `i` stands. */
  lemma PivotPlaced<T(!new)>(less: Order<T>, s: seq<T>, lo: nat, up: nat, i: nat, j: nat)
    requires lo < i < up && lo <= j < i && up < |s|
    requires StrictWeak(less) ==>
              LowSide(less, s, lo, i, up - 1) && HighSide(less, s, j + 1, up, up - 1) && Leq(less, s[up - 1], s[i])
    ensures Partitioned(less, Swapped(s, up - 1, i), lo, up, i)
  {
    if StrictWeak(less) {
      var t := Swapped(s, up - 1, i);
      forall k: nat | i + 1 <= k <= up ensures Leq(less, t[i], t[k]) {
        assert k != up - 1 ==> t[k] == s[k];
      }
    }
  }

  /** The scans have stopped at two elements on the wrong sides. */
  lemma PairSwapped<T(!new)>(less: Order<T>, s: seq<T>, lo: nat, up: nat, i: nat, j: nat)
    requires lo < i <= j < up - 1 && up < |s|
    requires StrictWeak(less) ==>
               && LowSide(less, s, lo, i, up - 1) && Leq(less, s[up - 1], s[i])
               && HighSide(less, s, j + 1, up, up - 1) && Leq(less, s[j], s[up - 1])
    ensures Scanned(less, Swapped(s, i, j), lo, up, i, j)
  {
    if StrictWeak(less) {
      var t := Swapped(s, i, j);
      assert forall k: nat :: k < |s| && k != i && k != j ==> t[k] == s[k];
    }
  }

  /** The pivot goes where the scans have met. */
  method SwapPivot<T(!new)>(a: array<T>, n: nat, less: Order<T>, lo: nat, up: nat, i: nat, j: nat, ghost before: seq<T>,
    ghost rest: seq<Interval>)
    requires Sorting(less, before, a[..], n, rest + [(lo, up)]) && 1 <= lo < i < up <= n < a.Length && lo <= j < i
    requires StrictWeak(less) ==>
               LowSide(less, a[..], lo, i, up - 1) && HighSide(less, a[..], j + 1, up, up - 1)
                 && Leq(less, a[up - 1], a[i])
    modifies a
    ensures Sorting(less, before, a[..], n, rest + [(lo, up)]) && Partitioned(less, a[..], lo, up, i)
  {
    PivotPlaced(less, a[..], lo, up, i, j);
    Swap(a, n, up - 1, i, less, before, rest, (lo, up));
  }

  /** Two elements on the wrong sides change places. */
  method SwapPair<T(!new)>(a: array<T>, n: nat, less: Order<T>, lo: nat, up: nat, i: nat, j: nat, ghost before: seq<T>,
    ghost rest: seq<Interval>)
    requires Sorting(less, before, a[..], n, rest + [(lo, up)]) && 1 <= lo < i <= j < up - 1 && up <= n < a.Length
    requires StrictWeak(less) ==>
               && LowSide(less, a[..], lo, i, up - 1) && Leq(less, a[up - 1], a[i])
               && HighSide(less, a[..], j + 1, up, up - 1) && Leq(less, a[j], a[up - 1])
    modifies a
    ensures Sorting(less, before, a[..], n, rest + [(lo, up)]) && Scanned(less, a[..], lo, up, i, j)
  {
    PairSwapped(less, a[..], lo, up, i, j);
    Swap(a, n, i, j, less, before, rest, (lo, up));
  }

  /** Partitions the interval around the pivot at `up - 1`, between its sentinels. */
  method Partition<T(!new)>(a: array<T>, n: nat, less: Order<T>, lo: nat, up: nat, ghost before: seq<T>,
    ghost rest: seq<Interval>, ghost past: seq<Call<T>>)
    returns (r: Outcome, part: nat, ghost log: seq<Call<T>>)
    requires Fair(less, before, n, past, past, Sorted)
    requires Sorting(less, before, a[..], n, rest + [(lo, up)]) && 1 <= lo < up - 2 && up <= n < a.Length
    requires Scanned(less, a[..], lo, up, lo, up - 1)
    modifies a
    ensures Fair(less, before, n, past, log, r) && (r.Sorted? ==> SomeNotLess(less, log))
    ensures !r.TooBig? && (StrictWeak(less) ==> r.Sorted?)
    ensures Sorting(less, before, a[..], n, rest + [(lo, up)])
    ensures r.Sorted? ==> Partitioned(less, a[..], lo, up, part)
  {
    var i, j := lo, up - 1;
    part, log := lo, past;
    while true
      invariant lo <= i < up - 1 && lo < j <= up - 1 && Fair(less, before, n, past, log, Sorted)
      invariant Sorting(less, before, a[..], n, rest + [(lo, up)]) && Scanned(less, a[..], lo, up, i, j)
      decreases j
    {
      r, i, log := ScanUp(a, n, less, lo, up, i, j, before, log);
      if !r.Sorted? {
        return;
      }
      ghost var found := log;
      r, j, log := ScanDown(a, n, less, lo, up, i, j, before, log);
      if !r.Sorted? {
        return;
      }
      StillNotLess(less, found, log);
      if j < i {
        SwapPivot(a, n, less, lo, up, i, j, before, rest);
        return Sorted, i, log;
      }
      SwapPair(a, n, less, lo, up, i, j, before, rest);
    }
  }

  lemma WeightGrows(work: seq<Interval>, v: Interval)
    ensures Weight(work + [v]) == Weight(work) + Size(v) + 1
  {
    assert (work + [v])[..|work|] == work;
  }

  /** After a partition: one side goes on the stack, the other is sorted next. */
  lemma Divide<T(!new)>(less: Order<T>, before: seq<T>, s: seq<T>, n: nat, rest: seq<Interval>, v: Interval, part: nat,
    a: Interval, b: Interval)
    requires Sorting(less, before, s, n, rest + [v]) && Partitioned(less, s, v.0, v.1, part)
    requires (a, b) == ((v.0, part - 1), (part + 1, v.1))
    ensures Sorting(less, before, s, n, rest + [a] + [b]) && Sorting(less, before, s, n, rest + [b] + [a])
    ensures Size(a) + Size(b) + 1 == Size(v)
  {
    assert (rest + [v])[|rest|] == v;
    assert forall k :: 0 <= k < |rest| ==> (rest + [v])[k] == rest[k];
    if StrictWeak(less) {
      SplitInterval(less, s, n, rest, v, part, a, b);
      SplitApart(rest, v, part, a, b, n);
      ArrangedSwap(less, s, n, rest, a, b);
    }
  }

  /** An interval that is in order, or too short to hold two elements. */
  lemma Finish<T(!new)>(less: Order<T>, before: seq<T>, s: seq<T>, n: nat, rest: seq<Interval>, v: Interval)
    requires Sorting(less, before, s, n, rest + [v])
    requires StrictWeak(less) ==> forall x: nat, y: nat :: v.0 <= x < y <= v.1 <= n ==> Leq(less, s[x], s[y])
    ensures Sorting(less, before, s, n, rest)
  {
    assert (rest + [v])[|rest|] == v;
    assert forall k :: 0 <= k < |rest| ==> (rest + [v])[k] == rest[k];
    if StrictWeak(less) { DropInterval(less, s, n, rest, v); }
  }

  ghost predicate InOrder<T(!new)>(less: Order<T>, s: seq<T>, lo: nat, up: nat) {
    up < |s| && (StrictWeak(less) ==> forall x: nat, y: nat :: lo <= x < y <= up ==> Leq(less, s[x], s[y]))
  }

  /** Orders the endpoints. */
  method OrderEnds<T(!new)>(a: array<T>, n: nat, less: Order<T>, lo: nat, up: nat, ghost before: seq<T>,
    ghost rest: seq<Interval>, ghost past: seq<Call<T>>)
    returns (r: Outcome, ghost log: seq<Call<T>>)
    requires Fair(less, before, n, past, past, Sorted)
    requires Sorting(less, before, a[..], n, rest + [(lo, up)]) && lo < up <= n < a.Length
    modifies a
    ensures Fair(less, before, n, past, log, r) && |past| < |log|
    ensures r.Sorted? || (r.Raised? && !StrictWeak(less))
    ensures Sorting(less, before, a[..], n, rest + [(lo, up)])
    ensures r.Sorted? && StrictWeak(less) ==> Leq(less, a[lo], a[up])
  {
    TopWithin(less, before, a[..], n, rest, (lo, up));
    var b;
    b, log := Compare(a, n, less, up, lo, false, before, past);
    if b == None {
      return Raised, log;
    }
    if b.value {
      if StrictWeak(less) { LessIsLeq(less, a[up], a[lo]); }
      Swap(a, n, lo, up, less, before, rest, (lo, up));
    }
    return Sorted, log;
  }

  /** With the pivot stashed at `up - 1`, the endpoints are the sentinels of the scans. */
  lemma Sentinels<T(!new)>(less: Order<T>, s: seq<T>, lo: nat, p: nat, up: nat)
    requires Median(less, s, lo, p, up) && lo < p < up - 1
    ensures Scanned(less, Swapped(s, p, up - 1), lo, up, lo, up - 1)
  {
    if StrictWeak(less) { assert !Before(less, s[p], s[p]); }
  }

  /** Three elements around their median are in order. */
  lemma ThreeInOrder<T(!new)>(less: Order<T>, s: seq<T>, lo: nat, up: nat)
    requires up == lo + 2 && Median(less, s, lo, lo + 1, up)
    ensures InOrder(less, s, lo, up)
  {
    if StrictWeak(less) { LeqTrans(less, s[lo], s[lo + 1], s[up]); }
  }

  /** The pivot is put away at `up - 1`, between the sentinels. */
  method StashPivot<T(!new)>(a: array<T>, n: nat, less: Order<T>, lo: nat, p: nat, up: nat, ghost before: seq<T>,
    ghost rest: seq<Interval>)
    requires Sorting(less, before, a[..], n, rest + [(lo, up)]) && 1 <= lo < p < up - 1 && up <= n < a.Length
    requires Median(less, a[..], lo, p, up)
    modifies a
    ensures Sorting(less, before, a[..], n, rest + [(lo, up)]) && Scanned(less, a[..], lo, up, lo, up - 1)
  {
    Sentinels(less, a[..], lo, p, up);
    Swap(a, n, p, up - 1, less, before, rest, (lo, up));
  }

  /** Orders the endpoints and the middle; `small` when that is all there is, else the pivot is put in place. */
  method PlacePivot<T(!new)>(a: array<T>, n: nat, less: Order<T>, lo: nat, up: nat, ghost before: seq<T>,
    ghost rest: seq<Interval>, ghost past: seq<Call<T>>)
    returns (r: Outcome, small: bool, part: nat, ghost log: seq<Call<T>>)
    requires Fair(less, before, n, past, past, Sorted)
    requires Sorting(less, before, a[..], n, rest + [(lo, up)]) && 1 <= lo < up <= n < a.Length
    modifies a
    ensures Fair(less, before, n, past, log, r) && |past| < |log|
    ensures r.Sorted? && up - lo >= 3 ==> SomeNotLess(less, log)
    ensures !r.TooBig? && (StrictWeak(less) ==> r.Sorted?)
    ensures Sorting(less, before, a[..], n, rest + [(lo, up)])
    ensures r.Sorted? ==> if small then InOrder(less, a[..], lo, up) else Partitioned(less, a[..], lo, up, part)
  {
    small, part := true, lo;
    r, log := OrderEnds(a, n, less, lo, up, before, rest, past);
    if !r.Sorted? || up - lo == 1 {
      return;
    }
    var p := (lo + up) / 2;
    r, log := MedianOfThree(a, n, less, lo, p, up, before, rest, log);
    if !r.Sorted? {
      return;
    }
    if up - lo == 2 {
      ThreeInOrder(less, a[..], lo, up);
      return;
    }
    StashPivot(a, n, less, lo, p, up, before, rest);
    small := false;
    r, part, log := Partition(a, n, less, lo, up, before, rest, log);
  }

  lemma Lightens(work: seq<Interval>, v: Interval, a: Interval, b: Interval)
    requires Size(a) + Size(b) + 1 == Size(v)
    ensures Weight(work + [a]) + Size(b) == Weight(work) + Size(v)
    ensures Weight(work + [b]) + Size(a) == Weight(work) + Size(v)
  {
    WeightGrows(work, a);
    WeightGrows(work, b);
  }

  /** The smaller side of a partition goes on the stack, the other is sorted next. */
  method PushSmaller<T(!new)>(lo: nat, up: nat, part: nat, work: seq<Interval>, ghost less: Order<T>,
    ghost before: seq<T>, ghost s: seq<T>, ghost n: nat)
    returns (more: seq<Interval>, nextLo: nat, nextUp: nat)
    requires Sorting(less, before, s, n, work + [(lo, up)]) && Partitioned(less, s, lo, up, part)
    ensures Sorting(less, before, s, n, more + [(nextLo, nextUp)]) && Size((nextLo, nextUp)) < Size((lo, up))
    ensures Weight(more) + Size((nextLo, nextUp)) == Weight(work) + Size((lo, up))
  {
    ghost var low, high := (lo, part - 1), (part + 1, up);
    Divide(less, before, s, n, work, (lo, up), part, low, high);
    Lightens(work, (lo, up), low, high);
    if part - lo < up - part {
      return work + [(lo, part - 1)], part + 1, up;
    } else {
      return work + [(part + 1, up)], lo, part - 1;
    }
  }

  /** Sorts one interval down to nothing, leaving the smaller halves on the stack. */
  method SortInterval<T(!new)>(a: array<T>, n: nat, less: Order<T>, first: Interval, stack: seq<Interval>,
    ghost before: seq<T>, ghost past: seq<Call<T>>)
    returns (r: Outcome, work: seq<Interval>, ghost log: seq<Call<T>>)
    requires Fair(less, before, n, past, past, Sorted)
    requires Sorting(less, before, a[..], n, stack + [first])
    modifies a
    ensures Fair(less, before, n, past, log, r) && (first.0 < first.1 ==> |past| < |log|)
    ensures r.Sorted? && first.1 >= first.0 + 3 ==> SomeNotLess(less, log)
    ensures !r.TooBig? && (StrictWeak(less) ==> r.Sorted?) && Shuffled(before, a[..], n)
    ensures r.Sorted? ==> Sorting(less, before, a[..], n, work) && Weight(work) < Weight(stack + [first])
  {
    var lo: nat, up: nat := first.0, first.1;
    work, log := stack, past;
    r := Sorted;
    WeightGrows(stack, first);
    while lo < up
      invariant r.Sorted? && Sorting(less, before, a[..], n, work + [(lo, up)])
      invariant Fair(less, before, n, past, log, Sorted) && (|past| < |log| || (lo, up) == first)
      invariant first.1 >= first.0 + 3 && (lo, up) != first ==> SomeNotLess(less, log)
      invariant Weight(work) + Size((lo, up)) < Weight(stack + [first])
      decreases Size((lo, up))
    {
      TopWithin(less, before, a[..], n, work, (lo, up));
      var small, part;
      ghost var so := log;
      r, small, part, log := PlacePivot(a, n, less, lo, up, before, work, log);
      if SomeNotLess(less, so) { StillNotLess(less, so, log); }
      if !r.Sorted? {
        return;
      }
      if small {
        break;
      }
      work, lo, up := PushSmaller(lo, up, part, work, less, before, a[..], n);
    }
    Finish(less, before, a[..], n, work, (lo, up));
  }

  /** Every comparison raises: so does the sort. */
  ghost predicate NeverAnswers<T(!new)>(less: Order<T>) {
    forall x, y :: less(x, y) == None
  }

  /** Every element is less than every other, and than itself. */
  ghost predicate AlwaysLess<T(!new)>(less: Order<T>) {
    forall x, y :: less(x, y) == Some(true)
  }

  /** What the comparisons say of the outcome, for comparators at both ends. */
  lemma OutcomeShows<T(!new)>(less: Order<T>, log: seq<Call<T>>, r: Outcome)
    requires Explains(less, log, r) && !r.TooBig?
    ensures NeverAnswers(less) && log != [] ==> r.Raised?
    ensures AlwaysLess(less) && (r.Sorted? ==> SomeNotLess(less, log)) ==> r.InvalidOrder?
  {
    if r.Sorted? && log != [] { assert Passed(less, log[0]); }
    if r.InvalidOrder? { assert Answer(less, log[|log| - 1]).Some?; }
  }

  /**
   * `sort_run`: ends for every comparator, touches only `[1, n]`, and leaves a permutation
   * whether it succeeds or raises. It raises exactly when a comparison does, reports an invalid
   * order exactly when a scan runs past its bound, and ends with the first of these. For a strict
   * weak order neither happens and the range is sorted.
   */
  method SortRun<T(!new)>(a: array<T>, n: nat, less: Order<T>) returns (r: Outcome, ghost log: seq<Call<T>>)
    requires 1 <= n < a.Length
    modifies a
    ensures !r.TooBig? && Shuffled(old(a[..]), a[..], n)
    ensures StrictWeak(less) ==> r.Sorted? && forall x, y :: 1 <= x < y <= n ==> Leq(less, a[x], a[y])
    ensures Fair(less, old(a[..]), n, [], log, r) && (n >= 2 ==> log != [])
    ensures n >= 4 && r.Sorted? ==> SomeNotLess(less, log)
    ensures n >= 2 && NeverAnswers(less) ==> r.Raised?
    ensures n >= 4 && AlwaysLess(less) ==> r.InvalidOrder?
  {
    ghost var before := a[..];
    var work: seq<Interval> := [(1, n)];
    r, log := Sorted, [];
    assert [] + [(1, n)] == work;
    while work != []
      invariant r.Sorted? && Sorting(less, before, a[..], n, work) && Fair(less, before, n, [], log, Sorted)
      invariant work == [(1, n)] || ((n >= 2 ==> log != []) && (n >= 4 ==> SomeNotLess(less, log)))
      decreases Weight(work)
    {
      var v := work[|work| - 1];
      assert work == work[..|work| - 1] + [v];
      ghost var so := log;
      r, work, log := SortInterval(a, n, less, v, work[..|work| - 1], before, log);
      if SomeNotLess(less, so) { StillNotLess(less, so, log); }
      if !r.Sorted? {
        OutcomeShows(less, log, r);
        return;
      }
    }
    OutcomeShows(less, log, r);
  }

  /** `table.sort`: trivial tables are left alone and huge ones refused. */
  method Sort<T(!new)>(a: array<T>, n: nat, less: Order<T>) returns (r: Outcome, ghost log: seq<Call<T>>)
    requires n < a.Length
    modifies a
    ensures Shuffled(old(a[..]), a[..], n) && (r.TooBig? <==> n >= 0x7FFF_FFFF)
    ensures StrictWeak(less) && !r.TooBig? ==> r.Sorted? && forall x, y :: 1 <= x < y <= n ==> Leq(less, a[x], a[y])
    ensures Fair(less, old(a[..]), n, [], log, r) && (n >= 2 && !r.TooBig? ==> log != [])
    ensures n >= 4 && r.Sorted? ==> SomeNotLess(less, log)
    ensures n >= 2 && !r.TooBig? && NeverAnswers(less) ==> r.Raised?
    ensures n >= 4 && !r.TooBig? && AlwaysLess(less) ==> r.InvalidOrder?
  {
    if n <= 1 {
      return Sorted, [];
    }
    if n >= 0x7FFF_FFFF {
      return TooBig, [];
    }
    r, log := SortRun(a, n, less);
  }
}
