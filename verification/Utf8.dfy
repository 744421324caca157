/**
 * The original UTF-8 code of one to six bytes: two encoders and the decoder. The methods shift and mask
 * as the source does; the functions that specify them divide, and `Bits` proves that this is the same.
 */
module Utf8 {
  import opened Bits
  import opened Prelude

  type byte = b: int | 0 <= b < 0x100
  type word = w: int | 0 <= w < 0x1_0000_0000

  predicate Continues(b: byte) {
    0x80 <= b < 0xC0
  }

  // ----- the table of section 2 of RFC 2279 -----

  /** How many continuation bytes a code point needs. */
  function Conts(cp: word): (k: nat)
    ensures k <= 6
  {
    if cp < 0x80 then 0
    else if cp < 0x800 then 1
    else if cp < 0x1_0000 then 2
    else if cp < 0x20_0000 then 3
    else if cp < 0x400_0000 then 4
    else if cp < 0x8000_0000 then 5
    else 6
  }

  /** What the lead byte can hold beside `k` continuation bytes. */
  function Mfb(k: nat): nat {
    match k
    case 0 => 0x3f
    case 1 => 0x1f
    case 2 => 0xf
    case 3 => 7
    case 4 => 3
    case 5 => 1
    case _ => 0
  }

  /** The marker of the lead byte: one more one than there are continuation bytes. */
  function Marker(k: nat): byte
    ensures Marker(k) + Mfb(k) < 0x100
  {
    0xFE - 2 * Mfb(k)
  }

  /** The bits of a code point above its `k` lowest groups of six. */
  function Above(cp: word, k: nat): word {
    if k == 0 then cp else Above(cp, k - 1) / 64
  }

  /** The continuation byte of the low six bits. */
  function Cont(x: word): byte {
    0x80 + x % 64
  }

  /** The last `k` bytes of a code point. */
  function Tail(cp: word, k: nat): (t: seq<byte>)
    ensures |t| == k
  {
    if k == 0 then [] else [Cont(Above(cp, k - 1))] + Tail(cp, k - 1)
  }

  function LeadByte(cp: word): byte {
    Fits(cp);
    if cp < 0x80 then cp else Marker(Conts(cp)) + Above(cp, Conts(cp))
  }

  function Encoded(cp: word): (r: seq<byte>)
    ensures |r| == Conts(cp) + 1
  {
    [LeadByte(cp)] + Tail(cp, Conts(cp))
  }

  lemma AboveTable(cp: word)
    ensures Above(cp, 1) == cp / 0x40 && Above(cp, 2) == cp / 0x1000 && Above(cp, 3) == cp / 0x4_0000
    ensures Above(cp, 4) == cp / 0x100_0000 && Above(cp, 5) == cp / 0x4000_0000 && Above(cp, 6) == 0
  {
    AboveStep(cp, 1, cp);
    AboveStep(cp, 2, cp / 0x40);
    AboveStep(cp, 3, cp / 0x1000);
    AboveStep(cp, 4, cp / 0x4_0000);
    AboveStep(cp, 5, cp / 0x100_0000);
    AboveStep(cp, 6, cp / 0x4000_0000);
  }

  lemma AboveStep(cp: word, k: nat, x: word)
    requires k > 0 && Above(cp, k - 1) == x
    ensures Above(cp, k) == x / 64
  {
  }

  /** The loops of the encoders stop exactly when the rest fits the lead byte. */
  lemma Stops(cp: word, k: nat)
    requires 1 <= k <= 6 && cp >= 0x80
    ensures Above(cp, k) <= Mfb(k) <==> Conts(cp) <= k
  {
    AboveTable(cp);
  }

  /** One round of the encoders. */
  lemma Round(cp: word, k: nat)
    requires cp >= 0x80 && k < Conts(cp)
    ensures Above(cp, k) / 64 == Above(cp, k + 1) && Mfb(k) / 2 == Mfb(k + 1)
    ensures Above(cp, k + 1) <= Mfb(k + 1) <==> Conts(cp) == k + 1
    ensures Tail(cp, k + 1) == [Cont(Above(cp, k))] + Tail(cp, k)
  {
    Stops(cp, k + 1);
  }

  lemma Fits(cp: word)
    ensures cp >= 0x80 ==> Above(cp, Conts(cp)) <= Mfb(Conts(cp))
  {
    if cp >= 0x80 { Stops(cp, Conts(cp)); }
  }

  lemma LeadIs(cp: word, k: nat, x: word, mfb: word)
    requires cp >= 0x80 && k == Conts(cp) && x == Above(cp, k) && mfb == Mfb(k)
    ensures x <= mfb && 0xFE - 2 * mfb + x < 0x100 && Encoded(cp) == [0xFE - 2 * mfb + x] + Tail(cp, k)
  {
    Fits(cp);
  }

  /** Byte number `k` from the end: six bits behind a `10`. */
  function Group(cp: word, unit: nat): byte
    requires unit > 0
  {
    0x80 + cp / unit % 0x40
  }

  /** The forms of the table, written out; the last one is what the code makes of the words beyond it. */
  function Form(cp: word): seq<int> {
    var a, b, c := Group(cp, 1), Group(cp, 0x40), Group(cp, 0x1000);
    var d, e, f := Group(cp, 0x4_0000), Group(cp, 0x100_0000), Group(cp, 0x4000_0000);
    if cp < 0x80 then [cp]
    else if cp < 0x800 then [0xC0 + cp / 0x40, a]
    else if cp < 0x1_0000 then [0xE0 + cp / 0x1000, b, a]
    else if cp < 0x20_0000 then [0xF0 + cp / 0x4_0000, c, b, a]
    else if cp < 0x400_0000 then [0xF8 + cp / 0x100_0000, d, c, b, a]
    else if cp < 0x8000_0000 then [0xFC + cp / 0x4000_0000, e, d, c, b, a]
    else [0xFE, f, e, d, c, b, a]
  }

  lemma TailForms(cp: word)
    ensures Tail(cp, 1) == [Group(cp, 1)]
    ensures Tail(cp, 2) == [Group(cp, 0x40)] + Tail(cp, 1)
    ensures Tail(cp, 3) == [Group(cp, 0x1000)] + Tail(cp, 2)
    ensures Tail(cp, 4) == [Group(cp, 0x4_0000)] + Tail(cp, 3)
    ensures Tail(cp, 5) == [Group(cp, 0x100_0000)] + Tail(cp, 4)
    ensures Tail(cp, 6) == [Group(cp, 0x4000_0000)] + Tail(cp, 5)
  {
    AboveTable(cp);
    TailStep(cp, 0, cp);
    TailStep(cp, 1, cp / 0x40);
    TailStep(cp, 2, cp / 0x1000);
    TailStep(cp, 3, cp / 0x4_0000);
    TailStep(cp, 4, cp / 0x100_0000);
    TailStep(cp, 5, cp / 0x4000_0000);
  }

  lemma TailStep(cp: word, k: nat, x: word)
    requires Above(cp, k) == x
    ensures Tail(cp, k + 1) == [0x80 + x % 0x40] + Tail(cp, k)
  {
  }

  lemma LeadForm(cp: word)
    ensures LeadByte(cp) == Form(cp)[0]
  {
    AboveTable(cp);
  }

  /** The encoding has the form that the table gives. */
  lemma EncodedHasForm(cp: word)
    ensures Encoded(cp) == Form(cp)
  {
    LeadForm(cp);
    TailForms(cp);
  }

  // ----- words as bits -----

  function Not(x: word): word {
    0xFFFF_FFFF - x
  }

  /** `x >> 6`. */
  method DropGroup(x: word) returns (r: word)
    ensures r == x / 64
  {
    SixBits(x);
    return Shr(x, 6);
  }

  /** `mfb >> 1`. */
  method DropBit(x: word) returns (r: word)
    ensures r == x / 2
  {
    assert Shr(x / 2, 0) == x / 2;
    return Shr(x, 1);
  }

  /** `0x80 | (x & 0x3f)`. */
  method ContBits(x: word) returns (b: byte)
    ensures b == Cont(x)
  {
    SixBits(x);
    GroupBelow(2, x % 64);
    return Or(0x80, And(x, 0x3f));
  }

  lemma GroupShifted(code: word)
    requires code < 0x400_0000
    ensures Shl(code, 6) % 0x1_0000_0000 == 64 * code
  {
    ShlTable(code);
  }

  /** `(code << 6) | (cc & 0x3f)`. */
  method AddGroup(code: word, cc: byte) returns (r: word)
    requires code < 0x400_0000
    ensures r == code * 64 + cc % 64
  {
    GroupShifted(code);
    SixBits(cc);
    GroupBelow(code, cc % 64);
    return Or(Shl(code, 6) % 0x1_0000_0000, And(cc, 0x3f));
  }

  lemma GroupBelow(a: nat, b: nat)
    requires b < 64
    ensures Or(64 * a, b) == 64 * a + b
  {
    ShlTable(1);
    ShlTable(a);
    OrIsSum(a, b, 6);
  }

  /** `cc & 0xC0`. */
  method TopBits(cc: byte) returns (r: byte)
    ensures r == cc / 64 * 64
  {
    ShlTable(3);
    SixBits(cc);
    Masks(cc / 64);
    ShlTable(cc / 64);
    AndShl(cc, 3, 6);
    return And(cc, 0xC0);
  }

  /** The marker has no bit where the rest has one. */
  lemma MarkerAbove(mfb: word, x: word, top: nat, k: nat)
    requires x <= mfb && 1 <= k <= 6 && mfb == Mfb(k) && top in {0x100, 0x1_0000_0000}
    ensures Or(top - 2 - 2 * mfb, x) == top - 2 - 2 * mfb + x
  {
    match k
    case 1 => RestBelow(top / 32 - 2, x, 5);
    case 2 => RestBelow(top / 16 - 2, x, 4);
    case 3 => RestBelow(top / 8 - 2, x, 3);
    case 4 => RestBelow(top / 4 - 2, x, 2);
    case 5 => RestBelow(top / 2 - 2, x, 1);
    case _ => OrZero(top - 2);
  }

  lemma RestBelow(q: nat, x: nat, j: nat)
    requires 1 <= j <= 5 && x < [2, 4, 8, 16, 32][j - 1]
    ensures var hi := [2 * q, 4 * q, 8 * q, 16 * q, 32 * q][j - 1]; Or(hi, x) == hi + x
  {
    ShlTable(1);
    ShlTable(q);
    OrIsSum(q, x, j);
  }

  lemma NotShifted(mfb: word)
    requires mfb <= 0x1f
    ensures Shl(Not(mfb), 1) % 0x1_0000_0000 == 0x1_0000_0000 - 2 - 2 * mfb
    ensures (0x1_0000_0000 - 2 - 2 * mfb) % 0x100 == 0x100 - 2 - 2 * mfb
  {
    ShlTable(Not(mfb));
  }

  /** `(!mfb << 1) as u8 | x as u8`. */
  method LeadBits(mfb: word, x: word, ghost k: nat) returns (b: byte)
    requires x <= mfb && 1 <= k <= 6 && mfb == Mfb(k)
    ensures b == 0xFE - 2 * mfb + x
  {
    MarkerAbove(mfb, x, 0x100, k);
    NotShifted(mfb);
    return Or(Shl(Not(mfb), 1) % 0x1_0000_0000 % 0x100, x % 0x100);
  }

  /** `((!mfb << 1) | x) as u8`. */
  method LeadWord(mfb: word, x: word, ghost k: nat) returns (b: byte)
    requires x <= mfb && 1 <= k <= 6 && mfb == Mfb(k)
    ensures b == 0xFE - 2 * mfb + x
  {
    MarkerAbove(mfb, x, 0x1_0000_0000, k);
    NotShifted(mfb);
    return Or(Shl(Not(mfb), 1) % 0x1_0000_0000, x) % 0x100;
  }

  /** `c & (0xff >> (lead + 1))`. */
  method PayloadBits(c: byte, lead: nat) returns (r: word)
    requires 2 <= lead <= 6
    ensures r == Payload(c, lead)
  {
    Masks(c);
    Shifted(lead);
    return And(c, Shr(0xff, lead + 1));
  }

  lemma Shifted(lead: nat)
    requires 2 <= lead <= 6
    ensures Shr(0xff, lead + 1) == [0x1f, 0xf, 7, 3, 1][lead - 2]
  {
    assert Shr(0xff, 3) == 0x1f && Shr(0xff, 4) == 0xf && Shr(0xff, 5) == 7 && Shr(0xff, 6) == 3 && Shr(0xff, 7) == 1;
  }

  // ----- the encoders -----

  /** `encode`: the tail is collected backwards. */
  method Encode(cp: word, out: seq<byte>) returns (r: seq<byte>)
    ensures r == out + Encoded(cp)
  {
    if cp < 0x80 {
      return out + [cp];
    }
    var tail: seq<byte>, x: word, mfb: word := [], cp, 0x3f;
    ghost var k := 0;
    while true
      invariant 0 <= k < Conts(cp) && x == Above(cp, k) && mfb == Mfb(k) && Reversed(tail) == Tail(cp, k)
      decreases 6 - k
    {
      Round(cp, k);
      ReversedGrows(tail, Cont(x));
      var b := ContBits(x);
      tail := tail + [b];
      x := DropGroup(x);
      mfb := DropBit(mfb);
      k := k + 1;
      if x <= mfb {
        break;
      }
    }
    var lead := LeadBits(mfb, x, k);
    r := AppendReversed(out + [lead], tail);
  }

  /** `tail.reverse()` and `extend_from_slice`. */
  method AppendReversed(out: seq<byte>, tail: seq<byte>) returns (r: seq<byte>)
    ensures r == out + Reversed(tail)
  {
    r := out;
    var i := |tail|;
    assert tail[..i] == tail;
    while i > 0
      invariant i <= |tail| && r + Reversed(tail[..i]) == out + Reversed(tail)
    {
      ReversedGrows(tail[..i - 1], tail[i - 1]);
      assert tail[..i] == tail[..i - 1] + [tail[i - 1]];
      i := i - 1;
      r := r + [tail[i]];
    }
  }

  function Reversed(s: seq<byte>): (r: seq<byte>)
    ensures |r| == |s|
  {
    if s == [] then [] else Reversed(s[1..]) + [s[0]]
  }

  lemma {:induction false} ReversedGrows(s: seq<byte>, b: byte)
    ensures Reversed(s + [b]) == [b] + Reversed(s)
    decreases |s|
  {
    if s != [] {
      ReversedGrows(s[1..], b);
      assert (s + [b])[1..] == s[1..] + [b];
    }
  }

  method Put(buff: array<byte>, i: nat, b: byte)
    requires i < buff.Length
    modifies buff
    ensures buff[i..] == [b] + old(buff[i + 1..])
  {
    ghost var rest := buff[i + 1..];
    buff[i] := b;
    assert buff[i + 1..] == rest;
  }

  /** `utf8_encode` of the lexer: a buffer of eight bytes, filled from its end. */
  method EncodeLiteral(cp: word, dst: seq<byte>) returns (r: seq<byte>)
    ensures r == dst + Encoded(cp)
  {
    if cp < 0x80 {
      return dst + [cp];
    }
    var buff := new byte[8](_ => 0);
    var x: word, n: nat, mfb: word := cp, 1, 0x3f;
    while true
      invariant 1 <= n <= Conts(cp) && x == Above(cp, n - 1) && mfb == Mfb(n - 1) && buff[9 - n..] == Tail(cp, n - 1)
      decreases 7 - n
    {
      Round(cp, n - 1);
      var b := ContBits(x);
      Put(buff, 8 - n, b);
      n := n + 1;
      x := DropGroup(x);
      mfb := DropBit(mfb);
      if x <= mfb {
        break;
      }
    }
    LeadIs(cp, n - 1, x, mfb);
    var lead := LeadWord(mfb, x, n - 1);
    Put(buff, 8 - n, lead);
    assert buff[8 - n..] == Encoded(cp);
    r := dst + buff[8 - n..];
  }

  // ----- the decoder -----

  /** `u8::leading_ones`. */
  function LeadingOnes(c: byte): nat {
    if c < 0x80 then 0 else if c < 0xC0 then 1 else if c < 0xE0 then 2 else if c < 0xF0 then 3
    else if c < 0xF8 then 4 else if c < 0xFC then 5 else if c < 0xFE then 6 else if c < 0xFF then 7 else 8
  }

  /** The bits of a lead byte below its marker. */
  function Payload(c: byte, lead: nat): word {
    match lead
    case 2 => c % 32
    case 3 => c % 16
    case 4 => c % 8
    case 5 => c % 4
    case _ => c % 2
  }

  /** The least code point with `k` continuation bytes. */
  function Limit(k: nat): word {
    match k
    case 0 => 0
    case 1 => 0x80
    case 2 => 0x800
    case 3 => 0x1_0000
    case 4 => 0x20_0000
    case _ => 0x400_0000
  }

  predicate Surrogate(code: int) {
    0xD800 <= code <= 0xDFFF
  }

  /** `n` continuation bytes from `at`, gathered below `code`. */
  function Gather(bytes: seq<byte>, at: nat, n: nat, code: nat): Option<nat>
    decreases n
  {
    if n == 0 then Some(code)
    else if at >= |bytes| || !Continues(bytes[at]) then None
    else Gather(bytes, at + 1, n - 1, code * 64 + bytes[at] % 64)
  }

  function Decode(bytes: seq<byte>, pos: nat, strict: bool): Option<(nat, nat)> {
    if pos >= |bytes| then None
    else
      var c := bytes[pos];
      var lead := LeadingOnes(c);
      if lead == 0 then Some((c, pos + 1))
      else if lead == 1 || lead > 6 then None
      else
        match Gather(bytes, pos + 1, lead - 1, Payload(c, lead))
        case None => None
        case Some(code) =>
          if code < Limit(lead - 1) then None
          else if strict && (code > 0x10_FFFF || Surrogate(code)) then None
          else Some((code, pos + lead))
  }

  /** How large a prefix may be for `n` more groups to fit a word. */
  function Bound(n: nat): nat {
    match n
    case 0 => 0x1_0000_0000
    case 1 => 0x400_0000
    case 2 => 0x10_0000
    case 3 => 0x4000
    case 4 => 0x100
    case _ => 4
  }

  /** One round of the decoder. */
  lemma GatherStep(bytes: seq<byte>, at: nat, n: nat, code: nat)
    requires 0 < n <= 5 && at < |bytes| && Continues(bytes[at]) && code < Bound(n)
    ensures Gather(bytes, at, n, code) == Gather(bytes, at + 1, n - 1, code * 64 + bytes[at] % 64)
    ensures code < 0x400_0000 && code * 64 + bytes[at] % 64 < Bound(n - 1)
  {
  }

  method DecodeAt(bytes: seq<byte>, pos: nat, strict: bool) returns (r: Option<(nat, nat)>)
    ensures r == Decode(bytes, pos, strict)
  {
    if pos >= |bytes| {
      return None;
    }
    var c := bytes[pos];
    var lead := LeadingOnes(c);
    if lead == 0 {
      return Some((c, pos + 1));
    }
    if lead == 1 || lead > 6 {
      return None;
    }
    var code: word := PayloadBits(c, lead);
    var k := 1;
    ghost var gathered := Gather(bytes, pos + 1, lead - 1, code);
    while k < lead
      invariant 1 <= k <= lead && code < Bound(lead - k)
      invariant Gather(bytes, pos + k, lead - k, code) == gathered
    {
      if pos + k >= |bytes| {
        return None;
      }
      var cc := bytes[pos + k];
      var top := TopBits(cc);
      if top != 0x80 {
        return None;
      }
      GatherStep(bytes, pos + k, lead - k, code);
      code := AddGroup(code, cc);
      k := k + 1;
    }
    assert gathered == Some(code);
    if code < Limit(lead - 1) {
      return None;
    }
    if strict && (code > 0x10_FFFF || Surrogate(code)) {
      return None;
    }
    return Some((code, pos + lead));
  }

  // ----- round trips -----

  /** The tail of a code point is gathered back to it. */
  lemma {:induction false} GatherTail(cp: word, bytes: seq<byte>, at: nat, k: nat)
    requires at + k <= |bytes| && bytes[at..at + k] == Tail(cp, k)
    ensures Gather(bytes, at, k, Above(cp, k)) == Some(cp)
    decreases k
  {
    if k > 0 {
      var t := bytes[at..at + k];
      assert t[0] == bytes[at] && t[1..] == bytes[at + 1..at + k];
      GatherTail(cp, bytes, at + 1, k - 1);
      assert Above(cp, k) * 64 + bytes[at] % 64 == Above(cp, k - 1);
    }
  }

  /** The code points the decoder accepts. */
  predicate Acceptable(cp: word, strict: bool) {
    cp <= 0x7FFF_FFFF && (strict ==> cp <= 0x10_FFFF && !Surrogate(cp))
  }

  lemma LeadDecodes(cp: word)
    requires 0x80 <= cp <= 0x7FFF_FFFF
    ensures LeadingOnes(LeadByte(cp)) == Conts(cp) + 1 && 2 <= Conts(cp) + 1 <= 6
    ensures Payload(LeadByte(cp), Conts(cp) + 1) == Above(cp, Conts(cp)) && cp >= Limit(Conts(cp))
  {
    Fits(cp);
  }

  /** Decoding what either encoder wrote, anywhere in a string: exactly the acceptable code points come back. */
  lemma DecodeEncoded(cp: word, bytes: seq<byte>, pos: nat, strict: bool)
    requires cp <= 0x7FFF_FFFF && pos + |Encoded(cp)| <= |bytes| && bytes[pos..pos + |Encoded(cp)|] == Encoded(cp)
    ensures Decode(bytes, pos, strict) == if Acceptable(cp, strict) then Some((cp, pos + |Encoded(cp)|)) else None
  {
    var e, k := Encoded(cp), Conts(cp);
    assert bytes[pos] == bytes[pos..pos + |e|][0] == LeadByte(cp);
    assert bytes[pos + 1..pos + 1 + k] == bytes[pos..pos + |e|][1..] == e[1..] == Tail(cp, k);
    if cp >= 0x80 {
      LeadDecodes(cp);
      GatherTail(cp, bytes, pos + 1, k);
    }
  }

  lemma {:induction false} GatherInverse(bytes: seq<byte>, at: nat, n: nat, code: nat, c: nat)
    requires at <= |bytes| && Gather(bytes, at, n, code) == Some(c) && n <= 5 && code < Bound(n)
    ensures at + n <= |bytes| && c < 0x1_0000_0000 && Above(c, n) == code && bytes[at..at + n] == Tail(c, n)
    decreases n
  {
    if n > 0 {
      GatherInverse(bytes, at + 1, n - 1, code * 64 + bytes[at] % 64, c);
      GroupSplits(code, bytes[at]);
      assert bytes[at..at + n] == [bytes[at]] + bytes[at + 1..at + n];
    }
  }

  lemma GroupSplits(code: nat, b: byte)
    requires Continues(b)
    ensures (code * 64 + b % 64) / 64 == code && 0x80 + (code * 64 + b % 64) % 64 == b
  {
  }

  /** Every successful decoding re-encodes to exactly the bytes consumed, and is acceptable. */
  lemma EncodeDecoded(bytes: seq<byte>, pos: nat, strict: bool)
    requires Decode(bytes, pos, strict).Some?
    ensures var (code, next) := Decode(bytes, pos, strict).value;
      && pos < next <= |bytes| && code <= 0x7FFF_FFFF && Acceptable(code, strict)
      && Encoded(code) == bytes[pos..next]
  {
    var (code, next) := Decode(bytes, pos, strict).value;
    var c := bytes[pos];
    var lead := LeadingOnes(c);
    if lead == 0 {
      assert bytes[pos..next] == [c];
    } else {
      GatherInverse(bytes, pos + 1, lead - 1, Payload(c, lead), code);
      LeadInverse(c, lead, code);
      assert bytes[pos..next] == [c] + bytes[pos + 1..next];
    }
  }

  lemma LeadSplits(c: byte, lead: nat)
    requires lead == LeadingOnes(c) && 2 <= lead <= 6
    ensures Payload(c, lead) <= Mfb(lead - 1) && Marker(lead - 1) + Payload(c, lead) == c
  {
  }

  lemma LeadInverse(c: byte, lead: nat, code: word)
    requires lead == LeadingOnes(c) && 2 <= lead <= 6 && Above(code, lead - 1) == Payload(c, lead)
    requires code >= Limit(lead - 1)
    ensures Conts(code) == lead - 1 && LeadByte(code) == c && code <= 0x7FFF_FFFF
  {
    LeadSplits(c, lead);
    Stops(code, lead - 1);
    assert Conts(code) >= lead - 1;
  }
}
