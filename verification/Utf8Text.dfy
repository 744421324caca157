/** `utf8.len` and `utf8.offset`, on any bytes and on encoded texts. Positions are one-based. */
module Utf8Text {
  import opened Prelude
  import opened Utf8

  /** The characters of a text, as bytes: a first byte and continuation bytes. */
  type Chars = seq<seq<byte>>

  predicate CharOk(c: seq<byte>) {
    |c| >= 1 && !Continues(c[0]) && forall i :: 1 <= i < |c| ==> Continues(c[i])
  }

  predicate CharsOk(chars: Chars) {
    forall k :: 0 <= k < |chars| ==> CharOk(chars[k])
  }

  function Joined(chars: Chars): seq<byte> {
    if chars == [] then [] else chars[0] + Joined(chars[1..])
  }

  /** Where the character number `k` starts, from zero; the number of characters gives the end. */
  function Start(chars: Chars, k: nat): nat
    requires k <= |chars|
  {
    if k == 0 then 1 else |chars[0]| + Start(chars[1..], k - 1)
  }

  /** Character `k` stands between its start and the next. */
  lemma {:induction false} CharAt(chars: Chars, k: nat)
    requires k < |chars|
    ensures 1 <= Start(chars, k) && Start(chars, k + 1) == Start(chars, k) + |chars[k]| <= |Joined(chars)| + 1
    ensures Joined(chars)[Start(chars, k) - 1..Start(chars, k + 1) - 1] == chars[k]
    decreases k
  {
    if k > 0 {
      var rest, i := chars[1..], k - 1;
      CharAt(rest, i);
      var p, q := Start(rest, i), Start(rest, k);
      assert Joined(rest)[p - 1..q - 1] == (chars[0] + Joined(rest))[|chars[0]| + p - 1..|chars[0]| + q - 1];
    } else {
      assert Start(chars[1..], 0) == 1;
    }
  }

  lemma {:induction false} EndOfText(chars: Chars)
    ensures Start(chars, |chars|) == |Joined(chars)| + 1
    decreases |chars|
  {
    if chars != [] { EndOfText(chars[1..]); }
  }

  function PosRelat(pos: int, len: nat): int {
    if pos >= 0 then pos else if -pos > len then 0 else len + pos + 1
  }

  lemma StartBounds(chars: Chars, k: nat)
    requires k <= |chars|
    ensures 1 <= Start(chars, k) <= |Joined(chars)| + 1
  {
    if k < |chars| { CharAt(chars, k); } else { EndOfText(chars); }
  }

  // ----- utf8.len -----

  datatype LenResult = Count(n: nat) | BadAt(pos: int) | InitialOut | FinalOut

  /** Where the character at a byte ends, if it is well formed. */
  type Decoder = nat -> Option<nat>

  ghost predicate Advances(next: Decoder, len: nat) {
    forall p: nat :: next(p).Some? ==> p < next(p).value <= len
  }

  function EndAt(bytes: seq<byte>, p: nat, strict: bool): Option<nat> {
    match Decode(bytes, p, strict) case None => None case Some((_, q)) => Some(q)
  }

  function NextOf(bytes: seq<byte>, strict: bool): Decoder {
    (p: nat) => EndAt(bytes, p, strict)
  }

  ghost predicate Follows(next: Decoder, bytes: seq<byte>, strict: bool) {
    forall p: nat {:trigger EndAt(bytes, p, strict)} :: next(p) == EndAt(bytes, p, strict)
  }

  /** Counts characters from `posi` up to `posj`. */
  ghost function LenFrom(next: Decoder, len: nat, posi: int, posj: int): LenResult
    requires posi >= 1 && Advances(next, len)
    decreases posj - posi + 1
  {
    if posi > posj then Count(0)
    else
      match next(posi - 1)
      case None => BadAt(posi)
      case Some(q) => Plus(1, LenFrom(next, len, q + 1, posj))
  }

  lemma DecodingAdvances(bytes: seq<byte>, strict: bool)
    ensures Advances(NextOf(bytes, strict), |bytes|)
  {
    var next := NextOf(bytes, strict);
    forall p: nat | next(p).Some? ensures p < next(p).value <= |bytes| { EncodeDecoded(bytes, p, strict); }
  }

  ghost function Len(bytes: seq<byte>, i: int, j: int, strict: bool): LenResult {
    var posi, posj := PosRelat(i, |bytes|), PosRelat(j, |bytes|);
    DecodingAdvances(bytes, strict);
    if posi < 1 || posi > |bytes| + 1 then InitialOut
    else if posj > |bytes| then FinalOut
    else LenFrom(NextOf(bytes, strict), |bytes|, posi, posj)
  }

  function Plus(a: nat, r: LenResult): LenResult {
    if r.Count? then Count(a + r.n) else r
  }

  /** One decoding, of which only the end matters. */
  method NextChar(bytes: seq<byte>, pos: nat, strict: bool, ghost next: Decoder) returns (q: Option<nat>)
    requires Follows(next, bytes, strict)
    ensures q == next(pos)
  {
    assert next(pos) == EndAt(bytes, pos, strict);
    var d := DecodeAt(bytes, pos, strict);
    return if d.Some? then Some(d.value.1) else None;
  }

  /** One more character counted. */
  lemma CountStep(next: Decoder, len: nat, posi: int, posj: int, count: nat)
    requires 1 <= posi <= posj && Advances(next, len)
    ensures next(posi - 1) == None ==> Plus(count, LenFrom(next, len, posi, posj)) == BadAt(posi)
    ensures next(posi - 1).Some? ==>
              Plus(count, LenFrom(next, len, posi, posj))
              == Plus(count + 1, LenFrom(next, len, next(posi - 1).value + 1, posj))
  {
  }

  /** The loop of `lua_len`. */
  method CountChars(bytes: seq<byte>, start: nat, posj: int, strict: bool, ghost next: Decoder) returns (r: LenResult)
    requires start >= 1 && Follows(next, bytes, strict) && Advances(next, |bytes|)
    ensures r == LenFrom(next, |bytes|, start, posj)
  {
    var count: nat, posi: nat := 0, start;
    while posi <= posj
      invariant posi >= 1 && Plus(count, LenFrom(next, |bytes|, posi, posj)) == LenFrom(next, |bytes|, start, posj)
      decreases posj - posi + 1
    {
      var q := NextChar(bytes, posi - 1, strict, next);
      CountStep(next, |bytes|, posi, posj, count);
      if q == None {
        return BadAt(posi);
      }
      count := count + 1;
      posi := q.value + 1;
    }
    return Count(count);
  }

  /** `lua_len`. */
  method LuaLen(bytes: seq<byte>, i: int, j: int, strict: bool) returns (r: LenResult)
    ensures r == Len(bytes, i, j, strict)
  {
    var posi, posj := PosRelat(i, |bytes|), PosRelat(j, |bytes|);
    if posi < 1 || posi > |bytes| + 1 {
      return InitialOut;
    }
    if posj > |bytes| {
      return FinalOut;
    }
    DecodingAdvances(bytes, strict);
    r := CountChars(bytes, posi, posj, strict, NextOf(bytes, strict));
  }

  /** Every character is decoded to its end. */
  ghost predicate Decodes(next: Decoder, chars: Chars) {
    forall k :: 0 <= k < |chars| ==> DecodesAt(next, chars, k)
  }

  predicate DecodesAt(next: Decoder, chars: Chars, k: nat)
    requires k < |chars|
  {
    1 <= Start(chars, k) <= Start(chars, k + 1) && next(Start(chars, k) - 1) == Some(Start(chars, k + 1) - 1)
  }

  /** From the start of a character to the end of the text, the length is the number of characters left. */
  lemma {:induction false} LenOfRest(next: Decoder, chars: Chars, k: nat)
    requires Advances(next, |Joined(chars)|) && Decodes(next, chars) && k <= |chars|
    ensures 1 <= Start(chars, k) <= |Joined(chars)| + 1
    ensures LenFrom(next, |Joined(chars)|, Start(chars, k), |Joined(chars)|) == Count(|chars| - k)
    decreases |chars| - k
  {
    StartBounds(chars, k);
    if k < |chars| {
      assert DecodesAt(next, chars, k);
      LenOfRest(next, chars, k + 1);
    } else {
      EndOfText(chars);
    }
  }

  /** A counted text is cut into the characters that were counted. */
  lemma {:induction false} Cut(next: Decoder, bytes: seq<byte>, posi: nat) returns (chars: Chars, at: seq<nat>)
    requires Advances(next, |bytes|) && 1 <= posi <= |bytes| + 1 && LenFrom(next, |bytes|, posi, |bytes|).Count?
    ensures |at| == |chars| == LenFrom(next, |bytes|, posi, |bytes|).n && Joined(chars) == bytes[posi - 1..]
    ensures forall k :: 0 <= k < |at| ==>
              next(at[k]).Some? && at[k] < next(at[k]).value <= |bytes| && chars[k] == bytes[at[k]..next(at[k]).value]
    decreases |bytes| + 1 - posi
  {
    if posi > |bytes| {
      chars, at := [], [];
    } else {
      var q := next(posi - 1).value;
      var rest, more := Cut(next, bytes, q + 1);
      chars, at := [bytes[posi - 1..q]] + rest, [posi - 1] + more;
      assert chars[1..] == rest;
      assert bytes[posi - 1..] == bytes[posi - 1..q] + bytes[q..];
    }
  }

  lemma LenToEnd(bytes: seq<byte>, i: int, strict: bool)
    requires 1 <= i <= |bytes| + 1
    ensures Advances(NextOf(bytes, strict), |bytes|)
    ensures Len(bytes, i, -1, strict) == LenFrom(NextOf(bytes, strict), |bytes|, i, |bytes|)
  {
    DecodingAdvances(bytes, strict);
  }

  // ----- encoded texts -----

  function Encodings(cps: seq<word>): (r: Chars)
    ensures |r| == |cps|
  {
    seq(|cps|, i requires 0 <= i < |cps| => Encoded(cps[i]))
  }

  /** The encoding of a sequence of code points. */
  function Text(cps: seq<word>): seq<byte> {
    Joined(Encodings(cps))
  }

  predicate AllAcceptable(cps: seq<word>, strict: bool) {
    forall k :: 0 <= k < |cps| ==> Acceptable(cps[k], strict)
  }

  lemma {:induction false} TailContinues(cp: word, k: nat, i: nat)
    requires i < k
    ensures Continues(Tail(cp, k)[i])
    decreases k
  {
    if i > 0 { TailContinues(cp, k - 1, i - 1); }
  }

  lemma EncodedOk(cp: word)
    ensures CharOk(Encoded(cp))
  {
    Fits(cp);
    forall i | 1 <= i < |Encoded(cp)| ensures Continues(Encoded(cp)[i]) {
      TailContinues(cp, Conts(cp), i - 1);
    }
  }

  lemma EncodingsOk(cps: seq<word>)
    ensures CharsOk(Encodings(cps))
  {
    forall k | 0 <= k < |cps| ensures CharOk(Encodings(cps)[k]) { EncodedOk(cps[k]); }
  }

  lemma EncodingDecodes(cps: seq<word>, k: nat, strict: bool)
    requires k < |cps| && Acceptable(cps[k], strict)
    ensures DecodesAt(NextOf(Text(cps), strict), Encodings(cps), k)
  {
    var chars := Encodings(cps);
    CharAt(chars, k);
    var p, q := Start(chars, k) - 1, Start(chars, k + 1) - 1;
    EncodingEnds(cps[k], Joined(chars), p, q, strict);
  }

  lemma EncodingsDecode(cps: seq<word>, strict: bool)
    requires AllAcceptable(cps, strict)
    ensures Decodes(NextOf(Text(cps), strict), Encodings(cps))
  {
    var chars, next := Encodings(cps), NextOf(Text(cps), strict);
    forall k | 0 <= k < |chars| ensures DecodesAt(next, chars, k) {
      EncodingDecodes(cps, k, strict);
    }
  }

  lemma EncodingEnds(cp: word, bytes: seq<byte>, p: nat, q: nat, strict: bool)
    requires Acceptable(cp, strict) && p <= q <= |bytes| && bytes[p..q] == Encoded(cp)
    ensures NextOf(bytes, strict)(p) == Some(q)
  {
    assert q == p + |Encoded(cp)|;
    DecodeEncoded(cp, bytes, p, strict);
  }

  /** The length of an encoded text, counting from any of its characters, is the number of characters. */
  lemma LenOfText(cps: seq<word>, k: nat, strict: bool)
    requires AllAcceptable(cps, strict) && k <= |cps|
    ensures Len(Text(cps), Start(Encodings(cps), k), -1, strict) == Count(|cps| - k)
    ensures k == 0 ==> Start(Encodings(cps), k) == 1
  {
    StartBounds(Encodings(cps), k);
    LenToEnd(Text(cps), Start(Encodings(cps), k), strict);
    EncodingsDecode(cps, strict);
    LenOfRest(NextOf(Text(cps), strict), Encodings(cps), k);
  }

  /** From the start of one character to any byte of a later one, both are counted. */
  lemma LenOfPart(cps: seq<word>, k: nat, m: nat, j: nat, strict: bool)
    requires AllAcceptable(cps, strict) && k + m < |cps|
    requires var chars := Encodings(cps); Start(chars, k + m) <= j < Start(chars, k + m + 1)
    ensures Len(Text(cps), Start(Encodings(cps), k), j, strict) == Count(m + 1)
  {
    var chars, next := Encodings(cps), NextOf(Text(cps), strict);
    StartBounds(chars, k);
    CharAt(chars, k + m);
    EncodingsDecode(cps, strict);
    DecodingAdvances(Text(cps), strict);
    LenOfChars(next, chars, k, m, j);
  }

  lemma {:induction false} LenOfChars(next: Decoder, chars: Chars, k: nat, m: nat, j: nat)
    requires Advances(next, |Joined(chars)|) && Decodes(next, chars) && k + m < |chars|
    requires Start(chars, k + m) <= j < Start(chars, k + m + 1)
    ensures 1 <= Start(chars, k) <= j
    ensures LenFrom(next, |Joined(chars)|, Start(chars, k), j) == Count(m + 1)
    decreases m
  {
    assert DecodesAt(next, chars, k);
    if m > 0 { LenOfChars(next, chars, k + 1, m - 1, j); }
  }

  /** Only encoded texts have a length, and they have as many characters: the ones that decoding finds. */
  lemma LenInverse(bytes: seq<byte>, strict: bool) returns (cps: seq<word>)
    requires Len(bytes, 1, -1, strict).Count?
    ensures AllAcceptable(cps, strict) && |cps| == Len(bytes, 1, -1, strict).n && Text(cps) == bytes
  {
    LenToEnd(bytes, 1, strict);
    var next := NextOf(bytes, strict);
    var chars, at := Cut(next, bytes, 1);
    forall k | 0 <= k < |at| ensures IsEncoding(chars[k], strict) {
      ConsumedIsEncoding(bytes, at[k], strict, next, chars[k]);
    }
    cps := Named(chars, strict);
    assert bytes[0..] == bytes;
  }

  ghost predicate IsEncoding(unit: seq<byte>, strict: bool) {
    exists cp: word :: Acceptable(cp, strict) && Encoded(cp) == unit
  }

  /** The bytes that a decoding consumes encode the code point it finds. */
  lemma ConsumedIsEncoding(bytes: seq<byte>, p: nat, strict: bool, next: Decoder, unit: seq<byte>)
    requires next == NextOf(bytes, strict) && next(p).Some? && p < next(p).value <= |bytes|
    requires unit == bytes[p..next(p).value]
    ensures IsEncoding(unit, strict)
  {
    EncodeDecoded(bytes, p, strict);
    var cp: word := Decode(bytes, p, strict).value.0;
    assert Acceptable(cp, strict) && Encoded(cp) == unit;
  }

  /** Encodings name their code points. */
  lemma Named(chars: Chars, strict: bool) returns (cps: seq<word>)
    requires forall k :: 0 <= k < |chars| ==> IsEncoding(chars[k], strict)
    ensures AllAcceptable(cps, strict) && |cps| == |chars| && Encodings(cps) == chars
  {
    cps := [];
    while |cps| < |chars|
      invariant |cps| <= |chars| && AllAcceptable(cps, strict)
      invariant forall k :: 0 <= k < |cps| ==> Encoded(cps[k]) == chars[k]
    {
      assert IsEncoding(chars[|cps|], strict);
      var cp: word :| Acceptable(cp, strict) && Encoded(cp) == chars[|cps|];
      cps := cps + [cp];
    }
  }

  // ----- any range -----

  /** Where `n` decodings in a row lead. */
  function Walk(next: Decoder, p: nat, n: nat): Option<nat>
    decreases n
  {
    if n == 0 then Some(p)
    else match next(p) case None => None case Some(q) => Walk(next, q, n - 1)
  }

  ghost predicate WalksBefore(next: Decoder, p: nat, n: nat, end: int) {
    forall m: nat :: m < n ==> WalksAt(next, p, m, end)
  }

  predicate WalksAt(next: Decoder, p: nat, m: nat, end: int) {
    Walk(next, p, m).Some? && Walk(next, p, m).value < end
  }

  /** Counting stops at the first character that does not start before the end, or is malformed. */
  ghost predicate CountsTo(next: Decoder, p: nat, end: int, n: nat, r: LenResult) {
    WalksBefore(next, p, n, end) && Walk(next, p, n).Some? &&
    match r
    case Count(c) => c == n && Walk(next, p, n).value >= end
    case BadAt(pos) => pos == Walk(next, p, n).value + 1 <= end && next(Walk(next, p, n).value) == None
    case _ => false
  }

  lemma {:induction false} LenWalks(next: Decoder, len: nat, posi: int, posj: int) returns (n: nat)
    requires posi >= 1 && Advances(next, len)
    ensures CountsTo(next, posi - 1, posj, n, LenFrom(next, len, posi, posj))
    decreases posj - posi + 1
  {
    n := 0;
    if posi <= posj && next(posi - 1).Some? {
      var q := next(posi - 1).value;
      var more := LenWalks(next, len, q + 1, posj);
      n := more + 1;
      var p: nat := posi - 1;
      forall m: nat | m < n ensures WalksAt(next, p, m, posj) {
        if m > 0 { assert WalksAt(next, q, m - 1, posj); }
      }
    }
  }

  /**
   * The length of any range: the decodings that start in it, up to the first that fails; and an
   * error where the range leaves the text.
   */
  lemma LenOfRange(bytes: seq<byte>, i: int, j: int, strict: bool) returns (n: nat)
    ensures Len(bytes, i, j, strict) == InitialOut <==> i == 0 || i < -|bytes| || i > |bytes| + 1
    ensures Len(bytes, i, j, strict) == FinalOut <==> -|bytes| <= i <= |bytes| + 1 && i != 0 && j > |bytes|
    ensures Len(bytes, i, j, strict).InitialOut? || Len(bytes, i, j, strict).FinalOut?
         || CountsTo(NextOf(bytes, strict), FromFront(i, |bytes|) - 1, FromFront(j, |bytes|), n,
              Len(bytes, i, j, strict))
  {
    n := 0;
    if i != 0 && -|bytes| <= i <= |bytes| + 1 && j <= |bytes| {
      DecodingAdvances(bytes, strict);
      n := LenWalks(NextOf(bytes, strict), |bytes|, PosRelat(i, |bytes|), PosRelat(j, |bytes|));
    }
  }

  /** Negative positions count from the end of the text; those before its start are nowhere. */
  function FromFront(pos: int, len: nat): nat {
    if pos + len < 0 then 0 else if pos < 0 then len + 1 - (-pos) else pos
  }

  // ----- utf8.offset -----

  datatype OffsetResult = At(start: int, end: int) | NotFound | OutOfBounds | Continuation

  predicate IsCont(bytes: seq<byte>, idx: int) {
    1 <= idx <= |bytes| && Continues(bytes[idx - 1])
  }

  function SkipForward(bytes: seq<byte>, posi: int): (p: int)
    ensures p >= posi
    decreases |bytes| + 1 - posi
  {
    if posi <= |bytes| && IsCont(bytes, posi) then SkipForward(bytes, posi + 1) else posi
  }

  function SkipBack(bytes: seq<byte>, posi: int): (p: int)
    ensures p <= posi
    decreases posi
  {
    if posi > 1 && IsCont(bytes, posi) then SkipBack(bytes, posi - 1) else posi
  }

  /** Moves `n` characters on; `None` when the text ends first. */
  function Forward(bytes: seq<byte>, posi: int, n: nat): Option<int>
    decreases n
  {
    if n == 0 then Some(posi)
    else if posi > |bytes| then None
    else Forward(bytes, SkipForward(bytes, posi + 1), n - 1)
  }

  function Backward(bytes: seq<byte>, posi: int, n: nat): Option<int>
    decreases n
  {
    if n == 0 then Some(posi)
    else if posi <= 1 then None
    else Backward(bytes, SkipBack(bytes, posi - 1), n - 1)
  }

  /** The last byte of the character at `p`. */
  function LastByte(bytes: seq<byte>, p: int): int
    decreases |bytes| - p
  {
    if p < |bytes| && IsCont(bytes, p + 1) then LastByte(bytes, p + 1) else p
  }

  function Found(bytes: seq<byte>, p: Option<int>): OffsetResult {
    match p
    case None => NotFound
    case Some(x) => At(x, if x > |bytes| then x else LastByte(bytes, x))
  }

  function DefaultStart(bytes: seq<byte>, n: int): int {
    if n >= 0 then 1 else |bytes| + 1
  }

  function Offset(bytes: seq<byte>, n: int, i: int): OffsetResult {
    var posi := PosRelat(i, |bytes|);
    if posi < 1 || posi > |bytes| + 1 then OutOfBounds
    else if n == 0 then Found(bytes, Some(SkipBack(bytes, posi)))
    else if posi <= |bytes| && IsCont(bytes, posi) then Continuation
    else if n > 0 then Found(bytes, Forward(bytes, posi, n - 1))
    else Found(bytes, Backward(bytes, posi, -n))
  }

  /** `lua_offset`. */
  method LuaOffset(bytes: seq<byte>, n: int, arg: Option<int>) returns (r: OffsetResult)
    ensures r == Offset(bytes, n, if arg.Some? then arg.value else DefaultStart(bytes, n))
  {
    var i := if arg.Some? then arg.value else if n >= 0 then 1 else |bytes| + 1;
    var posi := PosRelat(i, |bytes|);
    if posi < 1 || posi > |bytes| + 1 {
      return OutOfBounds;
    }
    var found: Option<int>;
    if n == 0 {
      posi := BackOver(bytes, posi);
      found := Some(posi);
    } else if posi <= |bytes| && IsCont(bytes, posi) {
      return Continuation;
    } else if n > 0 {
      found := MoveForward(bytes, posi, n - 1);
    } else {
      found := MoveBack(bytes, posi, n);
    }
    match found {
      case None => return NotFound;
      case Some(p) =>
        if p > |bytes| {
          return At(p, p);
        }
        var e := p;
        while e < |bytes| && IsCont(bytes, e + 1)
          invariant LastByte(bytes, e) == LastByte(bytes, p)
          decreases |bytes| - e
        {
          e := e + 1;
        }
        return At(p, e);
    }
  }

  method BackOver(bytes: seq<byte>, start: int) returns (posi: int)
    ensures posi == SkipBack(bytes, start)
  {
    posi := start;
    while posi > 1 && IsCont(bytes, posi)
      invariant SkipBack(bytes, posi) == SkipBack(bytes, start)
      decreases posi
    {
      posi := posi - 1;
    }
  }

  method MoveForward(bytes: seq<byte>, start: int, steps: nat) returns (r: Option<int>)
    ensures r == Forward(bytes, start, steps)
  {
    var posi, n := start, steps;
    while n > 0 && posi <= |bytes|
      invariant n >= 0 && Forward(bytes, posi, n) == Forward(bytes, start, steps)
      decreases n
    {
      posi := posi + 1;
      ghost var from := posi;
      while posi <= |bytes| && IsCont(bytes, posi)
        invariant SkipForward(bytes, posi) == SkipForward(bytes, from)
        decreases |bytes| + 1 - posi
      {
        posi := posi + 1;
      }
      n := n - 1;
    }
    return if n > 0 then None else Some(posi);
  }

  method MoveBack(bytes: seq<byte>, start: int, steps: int) returns (r: Option<int>)
    requires steps < 0
    ensures r == Backward(bytes, start, -steps)
  {
    var posi, n := start, steps;
    while n < 0 && posi > 1
      invariant n <= 0 && Backward(bytes, posi, -n) == Backward(bytes, start, -steps)
      decreases -n
    {
      posi := posi - 1;
      posi := BackOver(bytes, posi);
      n := n + 1;
    }
    return if n < 0 then None else Some(posi);
  }

  // ----- offsets in a text -----

  /** Within a character only its first byte is not a continuation byte. */
  lemma ContInChar(chars: Chars, k: nat, p: nat)
    requires CharsOk(chars) && k < |chars| && Start(chars, k) <= p < Start(chars, k + 1)
    ensures p <= |Joined(chars)| && (IsCont(Joined(chars), p) <==> p != Start(chars, k))
  {
    CharAt(chars, k);
    var c, s := chars[k], Start(chars, k);
    assert Joined(chars)[p - 1] == Joined(chars)[s - 1..Start(chars, k + 1) - 1][p - s] == c[p - s];
    assert CharOk(c);
  }

  /** No character starts with a continuation byte, and the end of the text is none. */
  lemma StartIsNoCont(chars: Chars, k: nat)
    requires CharsOk(chars) && k <= |chars|
    ensures !IsCont(Joined(chars), Start(chars, k))
  {
    if k < |chars| {
      CharAt(chars, k);
      ContInChar(chars, k, Start(chars, k));
    } else {
      EndOfText(chars);
    }
  }

  lemma {:induction false} SkipsToNext(chars: Chars, k: nat, p: nat)
    requires CharsOk(chars) && k < |chars| && Start(chars, k) < p <= Start(chars, k + 1)
    ensures SkipForward(Joined(chars), p) == Start(chars, k + 1)
    decreases Start(chars, k + 1) - p
  {
    CharAt(chars, k);
    if p == Start(chars, k + 1) {
      StartIsNoCont(chars, k + 1);
    } else {
      ContInChar(chars, k, p);
      SkipsToNext(chars, k, p + 1);
    }
  }

  lemma {:induction false} SkipsToStart(chars: Chars, k: nat, p: nat)
    requires CharsOk(chars) && k < |chars| && Start(chars, k) <= p < Start(chars, k + 1)
    ensures SkipBack(Joined(chars), p) == Start(chars, k)
    decreases p
  {
    ContInChar(chars, k, p);
    if p > Start(chars, k) { SkipsToStart(chars, k, p - 1); }
  }

  lemma {:induction false} LastOfChar(chars: Chars, k: nat, p: nat)
    requires CharsOk(chars) && k < |chars| && Start(chars, k) <= p < Start(chars, k + 1)
    ensures LastByte(Joined(chars), p) == Start(chars, k + 1) - 1
    decreases Start(chars, k + 1) - p
  {
    CharAt(chars, k);
    if p + 1 == Start(chars, k + 1) {
      StartIsNoCont(chars, k + 1);
    } else {
      ContInChar(chars, k, p + 1);
      LastOfChar(chars, k, p + 1);
    }
  }

  lemma {:induction false} ForwardInText(chars: Chars, k: nat, n: nat)
    requires CharsOk(chars) && k <= |chars|
    ensures Forward(Joined(chars), Start(chars, k), n) == if k + n <= |chars| then Some(Start(chars, k + n)) else None
    decreases n
  {
    if n > 0 {
      if k == |chars| {
        EndOfText(chars);
      } else {
        CharAt(chars, k);
        SkipsToNext(chars, k, Start(chars, k) + 1);
        ForwardInText(chars, k + 1, n - 1);
      }
    }
  }

  lemma {:induction false} BackwardInText(chars: Chars, k: nat, n: nat)
    requires CharsOk(chars) && k <= |chars|
    ensures Backward(Joined(chars), Start(chars, k), n) == if n <= k then Some(Start(chars, k - n)) else None
    decreases n
  {
    if n > 0 {
      if k > 0 {
        CharAt(chars, k - 1);
        assert SkipBack(Joined(chars), Start(chars, k) - 1) == Start(chars, k - 1) by {
          SkipsToStart(chars, k - 1, Start(chars, k) - 1);
        }
        BackwardInText(chars, k - 1, n - 1);
      }
    }
  }

  /** The answer for character `k`: its first and last byte, or the position behind the text. */
  function CharSpan(chars: Chars, k: nat): OffsetResult
    requires k <= |chars|
  {
    At(Start(chars, k), if k == |chars| then Start(chars, k) else Start(chars, k + 1) - 1)
  }

  lemma FoundChar(chars: Chars, k: nat)
    requires CharsOk(chars) && k <= |chars|
    ensures Found(Joined(chars), Some(Start(chars, k))) == CharSpan(chars, k)
  {
    if k == |chars| {
      EndOfText(chars);
    } else {
      CharAt(chars, k);
      LastOfChar(chars, k, Start(chars, k));
    }
  }

  lemma OffsetCases(bytes: seq<byte>, n: int, i: int, p: Option<int>)
    requires 1 <= i <= |bytes| + 1 && n != 0 && !IsCont(bytes, i)
    requires p == if n > 0 then Forward(bytes, i, n - 1) else Backward(bytes, i, -n)
    ensures Offset(bytes, n, i) == Found(bytes, p)
  {
  }

  /** The answer for character `to`, or for none. */
  function Answer(chars: Chars, to: int): OffsetResult {
    if 0 <= to <= |chars| then CharSpan(chars, to) else NotFound
  }

  lemma FoundAnswer(chars: Chars, to: int, p: Option<int>)
    requires CharsOk(chars) && p == if 0 <= to <= |chars| then Some(Start(chars, to)) else None
    ensures Found(Joined(chars), p) == Answer(chars, to)
  {
    if 0 <= to <= |chars| { FoundChar(chars, to); }
  }

  lemma ForwardFound(chars: Chars, k: nat, n: nat)
    requires CharsOk(chars) && k <= |chars|
    ensures Found(Joined(chars), Forward(Joined(chars), Start(chars, k), n)) == Answer(chars, k + n)
  {
    ForwardInText(chars, k, n);
    FoundAnswer(chars, k + n, Forward(Joined(chars), Start(chars, k), n));
  }

  /** Counting from character `k` on, `n` finds the character `n - 1` further on, or none past the end. */
  lemma OffsetForward(chars: Chars, k: nat, n: int)
    requires CharsOk(chars) && k <= |chars| && n > 0
    ensures Offset(Joined(chars), n, Start(chars, k)) == Answer(chars, k + n - 1)
  {
    StartBounds(chars, k);
    StartIsNoCont(chars, k);
    OffsetAhead(chars, Joined(chars), Start(chars, k), k, n);
  }

  lemma OffsetAhead(chars: Chars, bytes: seq<byte>, i: nat, k: nat, n: int)
    requires CharsOk(chars) && k <= |chars| && n > 0 && bytes == Joined(chars) && i == Start(chars, k)
    requires 1 <= i <= |bytes| + 1 && !IsCont(bytes, i)
    ensures Offset(bytes, n, i) == Answer(chars, k + n - 1)
  {
    OffsetCases(bytes, n, i, Forward(bytes, i, n - 1));
    ForwardFound(chars, k, n - 1);
  }

  /** Counting back from character `k`, `-n` finds the character `n` before, or none past the front. */
  lemma OffsetBackward(chars: Chars, k: nat, n: int)
    requires CharsOk(chars) && k <= |chars| && n > 0
    ensures Offset(Joined(chars), -n, Start(chars, k)) == Answer(chars, k - n)
  {
    StartBounds(chars, k);
    StartIsNoCont(chars, k);
    OffsetBehind(chars, Joined(chars), Start(chars, k), k, n);
  }

  lemma OffsetBehind(chars: Chars, bytes: seq<byte>, i: nat, k: nat, n: int)
    requires CharsOk(chars) && k <= |chars| && n > 0 && bytes == Joined(chars) && i == Start(chars, k)
    requires 1 <= i <= |bytes| + 1 && !IsCont(bytes, i)
    ensures Offset(bytes, -n, i) == Answer(chars, k - n)
  {
    var p := Backward(bytes, i, n);
    assert Found(bytes, p) == Answer(chars, k - n) by {
      BackwardInText(chars, k, n);
      FoundAnswer(chars, k - n, p);
    }
    OffsetCases(bytes, -n, i, p);
  }

  /** With the default start: the k-th character of a text from the front. */
  lemma OffsetFromFront(chars: Chars, k: int)
    requires CharsOk(chars) && 1 <= k
    ensures Offset(Joined(chars), k, DefaultStart(Joined(chars), k)) == Answer(chars, k - 1)
  {
    StartIsNoCont(chars, 0);
    OffsetAhead(chars, Joined(chars), DefaultStart(Joined(chars), k), 0, k);
  }

  /** With the default start and a negative count: the character so many from the back. */
  lemma OffsetFromBack(chars: Chars, n: int)
    requires CharsOk(chars) && n < 0
    ensures Offset(Joined(chars), n, DefaultStart(Joined(chars), n)) == Answer(chars, |chars| + n)
  {
    OffsetFromEnd(chars, Joined(chars), DefaultStart(Joined(chars), n), n);
  }

  lemma OffsetFromEnd(chars: Chars, bytes: seq<byte>, i: int, n: int)
    requires CharsOk(chars) && n < 0 && bytes == Joined(chars) && i == DefaultStart(bytes, n)
    ensures Offset(bytes, n, i) == Answer(chars, |chars| + n)
  {
    EndOfText(chars);
    OffsetBehind(chars, bytes, i, |chars|, -n);
  }

  /** Counting cannot start inside a character. */
  lemma OffsetInside(chars: Chars, k: nat, p: nat, n: int)
    requires CharsOk(chars) && k < |chars| && Start(chars, k) < p < Start(chars, k + 1) && n != 0
    ensures Offset(Joined(chars), n, p) == Continuation
  {
    ContInChar(chars, k, p);
  }

  /** Positions outside the text are refused, and negative ones count from its end. */
  lemma OffsetPositions(bytes: seq<byte>, n: int, i: int)
    ensures Offset(bytes, n, i) == OutOfBounds <==> i == 0 || i < -|bytes| || i > |bytes| + 1
    ensures -|bytes| <= i < 0 ==> Offset(bytes, n, i) == Offset(bytes, n, FromFront(i, |bytes|))
  {
  }

  /** `offset(s, 0, i)` is the character containing byte `i`. */
  lemma OffsetOfByte(chars: Chars, k: nat, p: nat)
    requires CharsOk(chars) && k < |chars| && Start(chars, k) <= p < Start(chars, k + 1)
    ensures Offset(Joined(chars), 0, p) == CharSpan(chars, k)
  {
    CharAt(chars, k);
    SkipsToStart(chars, k, p);
    FoundChar(chars, k);
  }
}
