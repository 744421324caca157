/** The compiler contexts in which names are resolved: each holds on to the one around it. */
module UpvaluesCtx {
  import opened Prelude
  import U = Upvalues
  import opened Upvalues

  /** A function under compilation, holding on to the one around it. */
  class Ctx {
    var scopes: seq<Scope>
    var upvalues: seq<(string, Desc)>
    const capture: Ctx?
    /** This context and those around it. */
    ghost const chain: seq<Ctx>

    ghost predicate Valid()
      decreases |chain|
    {
      && chain != [] && chain[0] == this && this !in chain[1..]
      && (if capture == null then |chain| == 1
        else |capture.chain| < |chain| && chain[1..] == capture.chain && capture.Valid())
    }

    ghost function Elems(): set<object> {
      set c | c in chain
    }

    ghost function View(): Nest
      reads Elems()
    {
      seq(|chain|, i requires 0 <= i < |chain| reads Elems() =>
        assert chain[i] in chain; Func(chain[i].scopes, chain[i].upvalues))
    }

    constructor (around: Ctx?)
      requires around != null ==> around.Valid()
      ensures Valid() && View() == [Func([map[]], [])] + (if around == null then [] else around.View())
    {
      scopes, upvalues, capture := [map[]], [], around;
      chain := [this] + (if around == null then [] else around.chain);
      new;
      assert chain[1..] == if around == null then [] else around.chain;
    }

    method ResolveLocal(name: string) returns (b: Option<Binding>)
      ensures b == U.ResolveLocal(scopes, name) == Innermost(scopes, name)
    {
      var i := |scopes|;
      assert scopes[..i] == scopes;
      while i > 0
        invariant i <= |scopes| && U.ResolveLocal(scopes[..i], name) == U.ResolveLocal(scopes, name)
      {
        assert scopes[..i][..i - 1] == scopes[..i - 1];
        i := i - 1;
        if name in scopes[i] {
          return Some(scopes[i][name]);
        }
      }
      return None;
    }

    /** The first entry of a name in the upvalue list, or its length. */
    method FindUpvalue(name: string) returns (i: nat)
      ensures i == Find(upvalues, name)
    {
      i := 0;
      while i < |upvalues| && upvalues[i].0 != name
        invariant i <= |upvalues| && Find(upvalues, name) == i + Find(upvalues[i..], name)
      {
        assert upvalues[i..][1..] == upvalues[i + 1..];
        i := i + 1;
      }
    }

    /** The nest seen from here is this function and the nest seen from the one around it. */
    lemma Unfolds()
      requires Valid()
      ensures |View()| == |chain| && View()[0] == Func(scopes, upvalues) && View() == [View()[0]] + View()[1..]
      ensures View()[1..] == if capture == null then [] else capture.View()
      ensures capture != null ==> this !in capture.Elems() && capture.Elems() <= Elems()
    {
      if capture != null {
        assert forall i :: 0 <= i < |capture.chain| ==> chain[i + 1] == capture.chain[i];
      }
    }

    method ResolveForChild(name: string) returns (a: Option<Answer>)
      requires Valid()
      modifies Elems()
      ensures (a, View()) == U.ResolveForChild(old(View()), name)
      decreases |chain|
    {
      Unfolds();
      var b := ResolveLocal(name);
      match b {
        case Some(Global) => return None;
        case Some(Constant(v)) => return Some(Inline(v));
        case Some(Register(r)) => return Some(Capture(ParentLocal(r)));
        case None =>
      }
      var i := FindUpvalue(name);
      if i < |upvalues| {
        return Some(Capture(ParentUpvalue(Numbered(i))));
      }
      if capture == null {
        assert View() == [View()[0]] + [];
        return None;
      }
      a := capture.ResolveForChild(name);
      Unfolds();
      if a.Some? && a.value.Capture? {
        i := |upvalues|;
        upvalues := upvalues + [(name, a.value.desc)];
        Unfolds();
        a := Some(Capture(ParentUpvalue(Numbered(i))));
      }
    }

    method ResolveOrCapture(name: string) returns (r: Option<Resolved>)
      requires Valid()
      modifies Elems()
      ensures (r, View()) == U.ResolveOrCapture(old(View()), name)
    {
      Unfolds();
      var i := FindUpvalue(name);
      if i < |upvalues| {
        return Some(Upvalue(Numbered(i)));
      }
      if capture == null {
        assert View() == [View()[0]] + [];
        return None;
      }
      var a := capture.ResolveForChild(name);
      Unfolds();
      match a {
        case None => r := None;
        case Some(Inline(v)) => r := Some(Const(v));
        case Some(Capture(d)) =>
          r := Some(Upvalue(Numbered(|upvalues|)));
          upvalues := upvalues + [(name, d)];
          Unfolds();
      }
    }
  }
}
