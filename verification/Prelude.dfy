/** Small definitions shared by every part of the model. */
module Prelude {

  datatype Option<+T> = None | Some(value: T)

  predicate NoDup<T(==)>(l: seq<T>) {
    forall i, j :: 0 <= i < j < |l| ==> l[i] != l[j]
  }

  /** The element at position `i`, or `past` beyond the end of the list. */
  function At<T>(l: seq<T>, i: nat, past: Option<T>): Option<T> {
    if i < |l| then Some(l[i]) else past
  }

  lemma NoDupSplit<T>(a: seq<T>, b: seq<T>)
    requires NoDup(a + b)
    ensures NoDup(a) && NoDup(b)
    ensures forall x :: x in a ==> x !in b
  {
    var l := a + b;
    assert forall i :: 0 <= i < |a| ==> l[i] == a[i];
    assert forall i :: 0 <= i < |b| ==> l[|a| + i] == b[i];
  }

  lemma NoDupInsert<T>(a: seq<T>, b: seq<T>, x: T)
    requires NoDup(a + b) && x !in a + b
    ensures NoDup(a + [x] + b)
    ensures forall y :: y in a + [x] + b <==> y in a + b || y == x
  {
    var l, r := a + b, a + [x] + b;
    forall i, j | 0 <= i < j < |r| ensures r[i] != r[j] {
      assert i < |a| ==> r[i] == l[i];
      assert i > |a| ==> r[i] == l[i - 1];
      assert j < |a| ==> r[j] == l[j];
      assert j > |a| ==> r[j] == l[j - 1];
    }
  }

  lemma NoDupRemove<T>(l: seq<T>, k: nat)
    requires NoDup(l) && k < |l|
    ensures NoDup(l[..k] + l[k + 1..])
    ensures forall y :: y in l[..k] + l[k + 1..] <==> y in l && y != l[k]
  {
    var r := l[..k] + l[k + 1..];
    forall y ensures y in r <==> y in l && y != l[k] {
      if y in l && y != l[k] {
        var i :| 0 <= i < |l| && l[i] == y;
        assert r[if i < k then i else i - 1] == y;
      }
    }
  }

  lemma NoDupSwap<T>(a: seq<T>, b: seq<T>)
    requires NoDup(a + b)
    ensures NoDup(b + a)
  {
    NoDupSplit(a, b);
    var l := b + a;
    forall i, j | 0 <= i < j < |l| ensures l[i] != l[j] {
      if i < |b| <= j {
        assert l[i] in b && l[j] in a;
      } else if i >= |b| {
        assert l[i] == a[i - |b|] && l[j] == a[j - |b|];
      }
    }
  }
}
