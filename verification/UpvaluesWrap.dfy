/** When upvalue numbers run out, and what goes wrong then: a name that reads another variable. */
module UpvaluesWrap {
  import opened Prelude
  import opened Upvalues

  // ----- shared numbers -----

  predicate SharesNumbers(f: Func) {
    exists i: nat, j: nat :: i < j < |f.upvalues| && Numbered(i) == Numbered(j)
  }

  lemma SharesIff(f: Func)
    ensures SharesNumbers(f) <==> |f.upvalues| > 256
  {
    if |f.upvalues| > 256 { assert Numbered(0) == Numbered(256); }
  }

  /** What is captured is what is bound to a register, and only an unbound name gets no answer. */
  lemma {:induction false} AnswerIsLexical(nest: Nest, name: string)
    requires Sound(nest) && name != ENV
    ensures Capturable(nest, name) <==> Bound(nest, name)
    ensures ResolveForChild(nest, name).0 == None <==> Lexical(nest, name) == None
    decreases |nest|
  {
    if nest != [] && ResolveLocal(nest[0].scopes, name).None? {
      FindFinds(nest[0].upvalues, name);
      if Find(nest[0].upvalues, name) < |nest[0].upvalues| {
        assert Leads(nest, Find(nest[0].upvalues, name));
      } else {
        AnswerIsLexical(nest[1..], name);
      }
    }
  }

  /** The condition under which reading is lexical is exactly that no list outgrows its numbers. */
  lemma ReadRoomIsExact(nest: Nest, name: string)
    requires nest != [] && Sound(nest) && name != ENV
    ensures Fits(ReadIdent(nest, name).1) <==> RoomToRead(nest, name)
  {
    SoundFits(nest);
    CaptureRoomIsExact(nest, ENV);
    if ResolveLocal(nest[0].scopes, name).None? {
      CaptureRoomIsExact(nest, name);
      AnswerIsLexical(nest[1..], name);
      AnswerIs(nest[1..], name);
      FindFinds(nest[0].upvalues, name);
      assert [nest[0]] + nest[1..] == nest;
      if Find(nest[0].upvalues, name) < |nest[0].upvalues| { assert Leads(nest, Find(nest[0].upvalues, name)); }
    }
  }

  /** After a read two upvalues of some function share a number exactly when there was no room for it. */
  lemma UpvaluesShareIff(nest: Nest, name: string)
    requires nest != [] && Sound(nest) && name != ENV
    ensures var after := ReadIdent(nest, name).1;
      (exists k: nat :: k < |after| && SharesNumbers(after[k])) <==> !RoomToRead(nest, name)
  {
    var after := ReadIdent(nest, name).1;
    ReadRoomIsExact(nest, name);
    forall k: nat | k < |after| ensures SharesNumbers(after[k]) <==> |after[k].upvalues| > 256 { SharesIff(after[k]); }
  }

  // ----- what a read denotes without room -----

  /**
   * Does the name still read its own variable? The first function on the way out that has no number
   * left decides: its new entry gets the number of its first one, which must lead to the same place.
   */
  ghost predicate StillRight(nest: Nest, name: string)
    decreases |nest|
  {
    || nest == [] || ResolveLocal(nest[0].scopes, name).Some?
    || Find(nest[0].upvalues, name) < |nest[0].upvalues| || !Capturable(nest[1..], name)
    || if |nest[0].upvalues| < 256 then StillRight(nest[1..], name)
       else Follow(nest, ParentUpvalue(Numbered(|nest[0].upvalues|))) == Lexical(nest, name)
  }

  /** Resolution only ever adds upvalues, with or without room. */
  lemma {:induction false} OnlyExtends(nest: Nest, name: string)
    ensures Extends(nest, ResolveForChild(nest, name).1)
    decreases |nest|
  {
    ExtendsSelf(nest);
    if nest != [] && ResolveLocal(nest[0].scopes, name).None? { OnlyExtends(nest[1..], name); }
  }

  /** Where the entry that a function makes for a captured name leads. */
  lemma {:induction false} EntryLeads(nest: Nest, name: string)
    requires nest != [] && Sound(nest) && name != ENV && ResolveLocal(nest[0].scopes, name).None?
    requires Find(nest[0].upvalues, name) >= |nest[0].upvalues| && Capturable(nest[1..], name)
    ensures var (r, after) := ResolveOrCapture(nest, name);
      && r == Some(Upvalue(Numbered(|nest[0].upvalues|))) && after != []
      && (Follow(after, ParentUpvalue(r.value.index)) == Lexical(nest, name) <==> StillRight(nest, name))
    decreases |nest|, 0
  {
    var f, inner := nest[0], nest[1..];
    var (a, outer) := ResolveForChild(inner, name);
    var after := ResolveOrCapture(nest, name).1;
    AnswerIs(inner, name);
    AnswerIsLexical(inner, name);
    assert after[1..] == outer;
    if |f.upvalues| < 256 {
      DescLeads(inner, name);
      assert after[0].upvalues[|f.upvalues|].1 == a.value.desc;
    } else {
      OnlyExtends(inner, name);
      FirstIsRooted(nest);
      assert after[0].upvalues[0] == f.upvalues[0];
      SameMeaning(inner, outer, f.upvalues[0].1);
    }
  }

  lemma FirstIsRooted(nest: Nest)
    requires nest != [] && Sound(nest) && nest[0].upvalues != []
    ensures Rooted(nest[1..], nest[0].upvalues[0].1)
  {
    assert Leads(nest, 0);
    if nest[0].upvalues[0].0 != ENV { FollowedIsRooted(nest[1..], nest[0].upvalues[0].1); }
  }

  lemma {:induction false} DescLeads(nest: Nest, name: string)
    requires Sound(nest) && name != ENV && Capturable(nest, name)
    ensures var (a, after) := ResolveForChild(nest, name);
      && a.Some? && a.value.Capture?
      && (Follow(after, a.value.desc) == Lexical(nest, name) <==> StillRight(nest, name))
    decreases |nest|, 1
  {
    AnswerIs(nest, name);
    if ResolveLocal(nest[0].scopes, name).None? {
      FindFinds(nest[0].upvalues, name);
      if Find(nest[0].upvalues, name) < |nest[0].upvalues| {
        assert Leads(nest, Find(nest[0].upvalues, name));
      } else {
        EntryLeads(nest, name);
      }
    }
  }

  /** With room or without, a read denotes the innermost binding exactly when its number still leads there. */
  lemma ReadsRightIff(nest: Nest, name: string)
    requires nest != [] && Sound(nest) && name != ENV
    ensures var (r, after) := ReadIdent(nest, name);
      after != [] && (Denotes(after, r) == Lexical(nest, name) <==> StillRight(nest, name))
  {
    if ResolveLocal(nest[0].scopes, name).None? {
      var f, inner := nest[0], nest[1..];
      FindFinds(f.upvalues, name);
      assert [f] + inner == nest;
      if Find(f.upvalues, name) < |f.upvalues| {
        assert Leads(nest, Find(f.upvalues, name));
      } else if Capturable(inner, name) {
        EntryLeads(nest, name);
      } else {
        AnswerIs(inner, name);
        ReadsUncaptured(nest, name);
      }
    }
  }

  lemma ReadsUncaptured(nest: Nest, name: string)
    requires nest != [] && Sound(nest) && name != ENV && ResolveLocal(nest[0].scopes, name).None?
    requires Find(nest[0].upvalues, name) >= |nest[0].upvalues| && !Capturable(nest[1..], name)
    ensures var (r, after) := ReadIdent(nest, name); after != [] && Denotes(after, r) == Lexical(nest, name)
  {
    AnswerIs(nest[1..], name);
    ResolvesForChild(nest[1..], name);
  }

  // ----- names -----

  /** The names of the locals of a function: a letter, and as many strokes as the number says. */
  function Name(letter: char, k: nat): string {
    if k == 0 then [letter] else Name(letter, k - 1) + "'"
  }

  lemma {:induction false} NameIs(letter: char, k: nat)
    ensures |Name(letter, k)| == k + 1 && Name(letter, k)[0] == letter
    decreases k
  {
    if k > 0 { NameIs(letter, k - 1); }
  }

  lemma NamesDiffer(a: char, i: nat, b: char, j: nat)
    ensures Name(a, i) == Name(b, j) <==> a == b && i == j
  {
    NameIs(a, i);
    NameIs(b, j);
  }

  /** The first `n` locals of a function, each in its own register. */
  function Locals(letter: char, n: nat): Scope {
    if n == 0 then map[] else Locals(letter, n - 1)[Name(letter, n - 1) := Register(n - 1)]
  }

  lemma {:induction false} LocalIs(letter: char, n: nat, other: char, k: nat)
    ensures Name(other, k) in Locals(letter, n) <==> other == letter && k < n
    ensures Name(other, k) in Locals(letter, n) ==> Locals(letter, n)[Name(other, k)] == Register(k)
    decreases n
  {
    if n > 0 {
      LocalIs(letter, n - 1, other, k);
      NamesDiffer(other, k, letter, n - 1);
    }
  }

  // ----- three nested functions -----

  /** Upvalues that capture the first `n` locals `letter`, through the descriptor of each. */
  function Captures(letter: char, n: nat, direct: bool): (r: seq<(string, Desc)>)
    ensures |r| == n
  {
    seq(n, i requires 0 <= i < n => (Name(letter, i), if direct then ParentLocal(i) else ParentUpvalue(i)))
  }

  /**
   * Each of the two outer functions has `n` locals, and of its 255 registers one is left for the
   * closure inside; the inner one has captured `m` locals of the middle one and `o` of the outer one.
   */
  function Nested(n: nat, m: nat, o: nat): Nest {
    [Func([map[]], Captures('m', m, true) + Captures('o', o, false)),
     Func([Locals('m', n)], Captures('o', o, true)),
     Func([Locals('o', n)], [])]
  }

  lemma NotCaptured(letter: char, n: nat, direct: bool, other: char, k: nat)
    requires letter != other || k >= n
    ensures forall i :: 0 <= i < n ==> Captures(letter, n, direct)[i].0 != Name(other, k)
  {
    forall i | 0 <= i < n ensures Captures(letter, n, direct)[i].0 != Name(other, k) {
      NamesDiffer(letter, i, other, k);
    }
  }

  /** A new name is not found. */
  lemma Unfound(upvalues: seq<(string, Desc)>, name: string)
    requires forall i :: 0 <= i < |upvalues| ==> upvalues[i].0 != name
    ensures Find(upvalues, name) == |upvalues|
  {
    FindFinds(upvalues, name);
  }

  lemma OneScope(scope: Scope, name: string)
    ensures ResolveLocal([scope], name) == if name in scope then Some(scope[name]) else None
  {
    assert [scope][..0] == [];
  }

  /** The inner function reads a local of the middle one for the first time. */
  lemma ReadsMiddle(n: nat, m: nat)
    requires m < n
    ensures ReadIdent(Nested(n, m, 0), Name('m', m)) == (Read.Captured(Numbered(m)), Nested(n, m + 1, 0))
  {
    var nest, name := Nested(n, m, 0), Name('m', m);
    var f := nest[0];
    OneScope(map[], name);
    NotCaptured('m', m, true, 'm', m);
    assert f.upvalues == Captures('m', m, true);
    Unfound(f.upvalues, name);
    OneScope(Locals('m', n), name);
    LocalIs('m', n, 'm', m);
    assert ResolveForChild(nest[1..], name) == (Some(Capture(ParentLocal(m))), nest[1..]);
    assert Captures('m', m, true) + [(name, ParentLocal(m))] == Captures('m', m + 1, true);
    assert Captures('m', m + 1, true) + Captures('o', 0, false) == Captures('m', m + 1, true);
    assert Nested(n, m + 1, 0) == [f.(upvalues := f.upvalues + [(name, ParentLocal(m))])] + nest[1..];
  }

  /** The middle function is asked for a local of the outer one, and captures it itself. */
  lemma AsksOuter(n: nat, o: nat)
    requires o < n <= 255
    ensures ResolveForChild(Nested(n, n, o)[1..], Name('o', o)) ==
      (Some(Capture(ParentUpvalue(Numbered(o)))), Nested(n, n, o + 1)[1..])
  {
    var inner, name := Nested(n, n, o)[1..], Name('o', o);
    var f := inner[0];
    OneScope(Locals('m', n), name);
    LocalIs('m', n, 'o', o);
    NotCaptured('o', o, true, 'o', o);
    Unfound(f.upvalues, name);
    OneScope(Locals('o', n), name);
    LocalIs('o', n, 'o', o);
    assert ResolveForChild(inner[1..], name) == (Some(Capture(ParentLocal(o))), inner[1..]);
    assert Captures('o', o, true) + [(name, ParentLocal(o))] == Captures('o', o + 1, true);
    assert Nested(n, n, o + 1)[1..] == [f.(upvalues := f.upvalues + [(name, ParentLocal(o))])] + inner[1..];
  }

  /** The inner function reads a local of the outer one for the first time. */
  lemma ReadsOuter(n: nat, o: nat)
    requires o < n <= 255
    ensures ReadIdent(Nested(n, n, o), Name('o', o)) == (Read.Captured(Numbered(n + o)), Nested(n, n, o + 1))
  {
    var nest, name := Nested(n, n, o), Name('o', o);
    var f := nest[0];
    OneScope(map[], name);
    forall i | 0 <= i < |f.upvalues| ensures f.upvalues[i].0 != name {
      NotCaptured('m', n, true, 'o', o);
      NotCaptured('o', o, false, 'o', o);
    }
    Unfound(f.upvalues, name);
    AsksOuter(n, o);
    assert Numbered(o) == o;
    assert Captures('o', o, false) + [(name, ParentUpvalue(o))] == Captures('o', o + 1, false);
    var more := f.upvalues + [(name, ParentUpvalue(o))];
    assert more == Captures('m', n, true) + Captures('o', o + 1, false);
    assert Nested(n, n, o + 1) == [f.(upvalues := more)] + Nested(n, n, o + 1)[1..];
  }

  // ----- reading them all -----

  function ReadAll(nest: Nest, names: seq<string>): Nest
    decreases |names|
  {
    if names == [] || nest == [] then nest else ReadAll(ReadIdent(nest, names[0]).1, names[1..])
  }

  function Names(letter: char, i: nat, n: nat): seq<string>
    requires i <= n
    decreases n - i
  {
    if i == n then [] else [Name(letter, i)] + Names(letter, i + 1, n)
  }

  lemma ReadsFirst(nest: Nest, name: string, names: seq<string>, rest: seq<string>, after: Nest)
    requires nest != [] && ReadIdent(nest, name).1 == after
    ensures ReadAll(nest, [name] + names + rest) == ReadAll(after, names + rest)
  {
    assert ([name] + names + rest)[1..] == names + rest;
  }

  lemma {:induction false} ReadsAllMiddle(n: nat, m: nat, rest: seq<string>)
    requires m <= n
    ensures ReadAll(Nested(n, m, 0), Names('m', m, n) + rest) == ReadAll(Nested(n, n, 0), rest)
    decreases n - m
  {
    var names := Names('m', m, n) + rest;
    if m == n {
      assert names == rest;
    } else {
      ReadsMiddle(n, m);
      ReadsFirst(Nested(n, m, 0), Name('m', m), Names('m', m + 1, n), rest, Nested(n, m + 1, 0));
      ReadsAllMiddle(n, m + 1, rest);
    }
  }

  lemma {:induction false} ReadsAllOuter(n: nat, o: nat, k: nat)
    requires o <= k <= n <= 255
    ensures ReadAll(Nested(n, n, o), Names('o', o, k)) == Nested(n, n, k)
    decreases k - o
  {
    if o < k {
      ReadsOuter(n, o);
      assert Names('o', o, k)[1..] == Names('o', o + 1, k) && Names('o', o, k)[0] == Name('o', o);
      ReadsAllOuter(n, o + 1, k);
    }
  }

  /** What the name means: a local of the outer function, two levels out. */
  lemma OuterIsLexical(n: nat, o: nat)
    requires o < n
    ensures Lexical(Nested(n, n, o), Name('o', o)) == Some(At(2, o))
  {
    var nest, name := Nested(n, n, o), Name('o', o);
    OneScope(map[], name);
    OneScope(Locals('m', n), name);
    LocalIs('m', n, 'o', o);
    OneScope(Locals('o', n), name);
    LocalIs('o', n, 'o', o);
    assert Lexical(nest[2..], name) == Some(At(0, o));
    assert nest[1..][1..] == nest[2..];
    assert Lexical(nest[1..], name) == Some(At(1, o));
  }

  /**
   * With more upvalues than numbers a name goes wrong: in the innermost of three functions that
   * have `n` locals each, the name read after 256 others gets the number of the first of them,
   * and denotes that one's register.
   */
  lemma UpvaluesRunOut(n: nat, o: nat)
    requires 128 < n <= 254 && o == 256 - n
    ensures var nest := ReadAll(Nested(n, 0, 0), Names('m', 0, n) + Names('o', 0, o));
      nest != [] &&
      var (r, after) := ReadIdent(nest, Name('o', o));
      && Lexical(nest, Name('o', o)) == Some(At(2, o))
      && after != [] && Denotes(after, r) == Some(At(1, 0))
  {
    var nest := ReadAll(Nested(n, 0, 0), Names('m', 0, n) + Names('o', 0, o));
    assert nest == Nested(n, n, o) by {
      ReadsAllMiddle(n, 0, Names('o', 0, o));
      ReadsAllOuter(n, 0, o);
    }
    assert ReadIdent(nest, Name('o', o)) == (Read.Captured(0), Nested(n, n, o + 1)) by {
      ReadsOuter(n, o);
      assert Numbered(256) == 0;
    }
    OuterIsLexical(n, o);
    FirstIsRead(n, o + 1);
  }

  lemma FirstIsRead(n: nat, o: nat)
    requires n > 0
    ensures Denotes(Nested(n, n, o), Read.Captured(0)) == Some(At(1, 0))
  {
    var nest := Nested(n, n, o);
    assert nest[0].upvalues[0] == Captures('m', n, true)[0] == (Name('m', 0), ParentLocal(0));
    assert Follow(nest[1..], ParentLocal(0)) == Some(At(0, 0));
  }
}
