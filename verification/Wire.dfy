/** Small shared types. */
module Base {
  datatype Option<+T> = None | Some(value: T)

  /** Names of cospaces and addresses of actors; only their identity matters. */
  type Uuid = nat
  type Addr = nat
}

/**
 The Protocol Buffers wire format, as far as the realtime schemas need it:
 base-128 varints and the records built from them. A byte string is parsed into
 a flat sequence of fields; what a field means is decided by the schema that
 reads it (module Messages). Group wire types are parse errors.
 */
module Wire {
  import opened Base

  type byte = b: int | 0 <= b < 0x100
  type Bytes = seq<byte>

  const U32: int := 0x1_0000_0000
  const U64: int := 0x1_0000_0000_0000_0000
  type u32 = n: int | 0 <= n < U32
  type u64 = n: int | 0 <= n < U64

  /** What travels on a socket, and as the payload of messages between actors. */
  datatype SocketMessage = Binary(bytes: Bytes) | Text(text: Bytes)

  // ---------------------------------------------------------------- varints

  /** Least significant group of seven bits first; all bytes but the last carry the high bit. */
  function EncodeVarint(n: nat): (bs: Bytes)
    ensures |bs| > 0
  {
    if n < 0x80 then [n] else [n % 0x80 + 0x80] + EncodeVarint(n / 0x80)
  }

  /**
   Reads a varint whose first `count` bytes are already consumed, and returns it with the
   unread rest. The tenth byte may only hold the last bit of a 64-bit number.
   */
  function DecodeVarint(bs: Bytes, count: nat): (r: Option<(nat, Bytes)>)
    requires count <= 9
    ensures r.Some? ==> r.value.0 < VarintCap(count) && |r.value.1| < |bs|
  {
    if |bs| == 0 || (count == 9 && bs[0] >= 2) then None
    else if bs[0] < 0x80 then CapIsLarge(count); Some((bs[0], bs[1..]))
    else
      match DecodeVarint(bs[1..], count + 1)
      case None => None
      case Some((high, rest)) => Some((bs[0] - 0x80 + 0x80 * high, rest))
  }

  /** One more than the largest number that fits in the bytes left after `count`. */
  function VarintCap(count: nat): (cap: nat)
    requires count <= 9
    ensures cap > 0
    decreases 9 - count
  {
    if count == 9 then 2 else 0x80 * VarintCap(count + 1)
  }

  lemma CapIsLarge(count: nat)
    requires count <= 9
    ensures VarintCap(count) >= if count < 9 then 0x80 else 2
  {
    assert count < 9 ==> VarintCap(count + 1) > 0;
  }

  lemma VarintCapIsU64()
    ensures VarintCap(0) == U64
  {
    assert VarintCap(8) == 0x100;
    assert VarintCap(6) == 0x400000;
    assert VarintCap(4) == 0x10_0000_0000;
    assert VarintCap(2) == 0x4_0000_0000_0000;
  }

  lemma {:induction false} VarintRoundTrip(n: nat, count: nat, rest: Bytes)
    requires count <= 9 && n < VarintCap(count)
    ensures DecodeVarint(EncodeVarint(n) + rest, count) == Some((n, rest))
    ensures |EncodeVarint(n)| <= 10 - count
    decreases 9 - count
  {
    var bs := EncodeVarint(n) + rest;
    if n < 0x80 {
      assert bs[1..] == rest;
    } else {
      VarintRoundTrip(n / 0x80, count + 1, rest);
      assert bs[1..] == EncodeVarint(n / 0x80) + rest;
    }
  }

  /** Every 64-bit number survives encoding, whatever follows it, in at most ten bytes. */
  lemma VarintRoundTrip64(n: u64, rest: Bytes)
    ensures DecodeVarint(EncodeVarint(n) + rest, 0) == Some((n, rest))
    ensures |EncodeVarint(n)| <= 10
  {
    VarintCapIsU64();
    VarintRoundTrip(n, 0, rest);
  }

  lemma {:induction false} VarintPrefix(bs: Bytes, count: nat, more: Bytes)
    requires count <= 9 && DecodeVarint(bs, count).Some?
    ensures DecodeVarint(bs + more, count) ==
            Some((DecodeVarint(bs, count).value.0, DecodeVarint(bs, count).value.1 + more))
  {
    assert (bs + more)[0] == bs[0];
    assert (bs + more)[1..] == bs[1..] + more;
    if bs[0] >= 0x80 {
      VarintPrefix(bs[1..], count + 1, more);
    }
  }

  // ---------------------------------------------------- what a varint's bytes mean

  /** The weight of the i-th group of seven bits. */
  function Weight(i: nat): (w: nat)
    ensures w > 0
  {
    if i == 0 then 1 else 0x80 * Weight(i - 1)
  }

  /** The number spelled by the low seven bits of the first k bytes. */
  function Groups(bs: Bytes, k: nat): nat
    requires k <= |bs|
  {
    if k == 0 then 0 else Groups(bs, k - 1) + bs[k - 1] % 0x80 * Weight(k - 1)
  }

  /** A varint of k bytes: the high bit says that more follows, and all must fit in 64 bits. */
  predicate VarintEnds(bs: Bytes, count: nat, k: nat) {
    && 1 <= k <= |bs| && count + k <= 10
    && (forall i :: 0 <= i < k - 1 ==> bs[i] >= 0x80)
    && bs[k - 1] < 0x80 && (count + k == 10 ==> bs[k - 1] < 2)
  }

  lemma {:induction false} GroupsShift(bs: Bytes, k: nat)
    requires k < |bs|
    ensures Groups(bs, k + 1) == bs[0] % 0x80 + 0x80 * Groups(bs[1..], k)
    decreases k
  {
    if k > 0 {
      GroupsShift(bs, k - 1);
      var g := bs[k] % 0x80;
      assert bs[1..][k - 1] == bs[k];
      assert g * Weight(k) == 0x80 * (g * Weight(k - 1));
    } else {
      assert Groups(bs, 1) == Groups(bs, 0) + bs[0] % 0x80 * Weight(0);
    }
  }

  lemma {:induction false} VarintReads(bs: Bytes, count: nat, k: nat)
    requires count <= 9 && VarintEnds(bs, count, k)
    ensures DecodeVarint(bs, count) == Some((Groups(bs, k), bs[k..]))
    decreases k
  {
    GroupsShift(bs, k - 1);
    if k > 1 {
      assert VarintEnds(bs[1..], count + 1, k - 1) by {
        assert forall i :: 0 <= i < k - 2 ==> bs[1..][i] == bs[i + 1];
      }
      VarintReads(bs[1..], count + 1, k - 1);
      assert bs[1..][k - 1..] == bs[k..];
    }
  }

  lemma {:induction false} VarintMustEnd(bs: Bytes, count: nat) returns (k: nat)
    requires count <= 9 && DecodeVarint(bs, count).Some?
    ensures VarintEnds(bs, count, k)
  {
    k := 1;
    if bs[0] >= 0x80 {
      var tail := VarintMustEnd(bs[1..], count + 1);
      k := tail + 1;
      assert forall i :: 0 <= i < tail ==> bs[i + 1] == bs[1..][i];
      assert forall i :: 0 <= i < k - 1 ==> bs[i] >= 0x80 by {
        forall i | 0 <= i < k - 1 ensures bs[i] >= 0x80 {
          assert i > 0 ==> bs[i] == bs[1..][i - 1];
        }
      }
    }
  }

  /**
   What any bytes are read as: a varint is there if and only if one of the first ten bytes has
   its high bit clear and the number fits in 64 bits, and it is then the number spelled by the
   low seven bits of the bytes so far, the first byte least significant.
   */
  lemma VarintExactly(bs: Bytes)
    ensures DecodeVarint(bs, 0).Some? <==> exists k: nat :: VarintEnds(bs, 0, k)
    ensures forall k: nat :: VarintEnds(bs, 0, k) ==> DecodeVarint(bs, 0) == Some((Groups(bs, k), bs[k..]))
  {
    forall k: nat | VarintEnds(bs, 0, k) ensures DecodeVarint(bs, 0) == Some((Groups(bs, k), bs[k..])) {
      VarintReads(bs, 0, k);
    }
    if DecodeVarint(bs, 0).Some? {
      var k := VarintMustEnd(bs, 0);
    }
  }

  lemma AtLeast(d: int, t: int)
    requires d > 0
    ensures t >= 1 ==> d * t >= d
    ensures t <= -1 ==> d * t <= -d
  {
    if t >= 1 {
      assert d * t == d + d * (t - 1);
    } else if t <= -1 {
      assert d * t == -d + d * (t + 1);
    }
  }

  lemma DivisionIs(n: nat, d: nat, q: nat, r: nat)
    requires d > 0 && n == d * q + r && r < d
    ensures n / d == q
  {
    var p := n / d;
    assert n == d * p + n % d;
    assert d * (p - q) == d * p - d * q;
    AtLeast(d, p - q);
  }

  lemma DivideTwice(n: nat, w: nat)
    requires w > 0
    ensures n / (0x80 * w) == n / 0x80 / w
  {
    var q, r := n / 0x80, n % 0x80;
    var a, b := q / w, q % w;
    assert q == w * a + b;
    assert (0x80 * w) * a == 0x80 * (w * a);
    DivisionIs(n, 0x80 * w, a, 0x80 * b + r);
  }

  /** No more bytes than needed. */
  lemma {:induction false} VarintLength(n: nat)
    ensures n < Weight(|EncodeVarint(n)|) && (|EncodeVarint(n)| > 1 ==> n >= Weight(|EncodeVarint(n)| - 1))
    decreases n
  {
    if n < 0x80 {
      assert Weight(1) == 0x80 * Weight(0);
    } else {
      VarintLength(n / 0x80);
      assert |EncodeVarint(n)| == |EncodeVarint(n / 0x80)| + 1;
      if |EncodeVarint(n)| == 2 { assert Weight(1) == 0x80 * Weight(0); }
    }
  }

  /**
   The bytes of an encoded number: the low bits of byte i are its i-th group of seven bits, and
   the high bit is set exactly before the last byte.
   */
  lemma {:induction false} VarintBytes(n: nat, i: nat)
    requires i < |EncodeVarint(n)|
    ensures EncodeVarint(n)[i] % 0x80 == n / Weight(i) % 0x80
    ensures EncodeVarint(n)[i] >= 0x80 <==> i < |EncodeVarint(n)| - 1
    decreases n
  {
    if n >= 0x80 && i > 0 {
      VarintBytes(n / 0x80, i - 1);
      DivideTwice(n, Weight(i - 1));
    }
  }

  // ----------------------------------------------------------------- fields

  datatype WireValue =
    | Varint(n: u64)
    | Fixed64(fixed: Bytes)
    | Len(bytes: Bytes)
    | Fixed32(fixed: Bytes)

  datatype Field = Field(number: nat, value: WireValue)

  predicate ValidField(f: Field) {
    && 1 <= f.number < 0x2000_0000
    && match f.value
       case Varint(_) => true
       case Fixed64(b) => |b| == 8
       case Len(b) => |b| < U64
       case Fixed32(b) => |b| == 4
  }

  predicate ValidFields(fs: seq<Field>) {
    forall i :: 0 <= i < |fs| ==> ValidField(fs[i])
  }

  function WireType(v: WireValue): (t: nat)
    ensures t < 8
  {
    match v case Varint(_) => 0 case Fixed64(_) => 1 case Len(_) => 2 case Fixed32(_) => 5
  }

  function EmitValue(v: WireValue): Bytes {
    match v
    case Varint(n) => EncodeVarint(n)
    case Fixed64(b) => b
    case Len(b) => EncodeVarint(|b|) + b
    case Fixed32(b) => b
  }

  function EmitField(f: Field): Bytes {
    EncodeVarint(f.number * 8 + WireType(f.value)) + EmitValue(f.value)
  }

  function EmitFields(fs: seq<Field>): Bytes {
    if fs == [] then [] else EmitField(fs[0]) + EmitFields(fs[1..])
  }

  function ParseValue(wireType: nat, bs: Bytes): (r: Option<(WireValue, Bytes)>)
    ensures r.Some? ==> |r.value.1| <= |bs|
  {
    VarintCapIsU64();
    match wireType
    case 0 =>
      (match DecodeVarint(bs, 0) case None => None case Some((n, rest)) => Some((Varint(n), rest)))
    case 1 => if |bs| < 8 then None else Some((Fixed64(bs[..8]), bs[8..]))
    case 2 =>
      (match DecodeVarint(bs, 0)
       case None => None
       case Some((n, rest)) => if |rest| < n then None else Some((Len(rest[..n]), rest[n..])))
    case 5 => if |bs| < 4 then None else Some((Fixed32(bs[..4]), bs[4..]))
    case _ => None
  }

  function ParseField(bs: Bytes): (r: Option<(Field, Bytes)>)
    ensures r.Some? ==> |r.value.1| < |bs|
  {
    match DecodeVarint(bs, 0)
    case None => None
    case Some((key, rest)) =>
      if key >= U32 || key / 8 == 0 then None
      else
        match ParseValue(key % 8, rest)
        case None => None
        case Some((v, tail)) => Some((Field(key / 8, v), tail))
  }

  function ParseFields(bs: Bytes): Option<seq<Field>>
    decreases |bs|
  {
    if bs == [] then Some([])
    else
      match ParseField(bs)
      case None => None
      case Some((f, rest)) =>
        match ParseFields(rest)
        case None => None
        case Some(fs) => Some([f] + fs)
  }

  lemma ParseEmittedValue(v: WireValue, rest: Bytes)
    requires ValidField(Field(1, v))
    ensures ParseValue(WireType(v), EmitValue(v) + rest) == Some((v, rest))
  {
    hide DecodeVarint, EncodeVarint;
    match v
    case Varint(n) => VarintRoundTrip64(n, rest);
    case Fixed64(b) =>
      assert (b + rest)[..8] == b && (b + rest)[8..] == rest;
    case Fixed32(b) =>
      assert (b + rest)[..4] == b && (b + rest)[4..] == rest;
    case Len(b) =>
      VarintRoundTrip64(|b|, b + rest);
      assert EmitValue(v) + rest == EncodeVarint(|b|) + (b + rest);
      assert (b + rest)[..|b|] == b && (b + rest)[|b|..] == rest;
  }

  lemma ParseEmittedField(f: Field, rest: Bytes)
    requires ValidField(f)
    ensures ParseField(EmitField(f) + rest) == Some((f, rest))
  {
    hide DecodeVarint, EncodeVarint, EmitValue, ParseValue;
    var key := f.number * 8 + WireType(f.value);
    VarintRoundTrip64(key, EmitValue(f.value) + rest);
    assert EmitField(f) + rest == EncodeVarint(key) + (EmitValue(f.value) + rest);
    ParseEmittedValue(f.value, rest);
  }

  /** Parsing what was emitted gives back the same fields in the same order. */
  lemma {:induction false} ParseEmitted(fs: seq<Field>)
    requires ValidFields(fs)
    ensures ParseFields(EmitFields(fs)) == Some(fs)
  {
    if fs != [] {
      ParseEmittedField(fs[0], EmitFields(fs[1..]));
      ParseEmitted(fs[1..]);
      assert [fs[0]] + fs[1..] == fs;
    }
  }

  lemma ParseValuePrefix(wireType: nat, bs: Bytes, more: Bytes)
    requires ParseValue(wireType, bs).Some?
    ensures var (v, rest) := ParseValue(wireType, bs).value;
            ParseValue(wireType, bs + more) == Some((v, rest + more))
  {
    if wireType == 0 {
      VarintPrefix(bs, 0, more);
    } else if wireType == 2 {
      VarintPrefix(bs, 0, more);
      var (n, rest) := DecodeVarint(bs, 0).value;
      assert (rest + more)[..n] == rest[..n] && (rest + more)[n..] == rest[n..] + more;
    } else {
      var n := if wireType == 1 then 8 else 4;
      assert (bs + more)[..n] == bs[..n] && (bs + more)[n..] == bs[n..] + more;
    }
  }

  lemma ParseFieldPrefix(bs: Bytes, more: Bytes)
    requires ParseField(bs).Some?
    ensures var (f, rest) := ParseField(bs).value;
            ParseField(bs + more) == Some((f, rest + more))
  {
    VarintPrefix(bs, 0, more);
    var (key, rest) := DecodeVarint(bs, 0).value;
    ParseValuePrefix(key % 8, rest, more);
  }

  /**
   What a field's key announces: the field number and, in the low three bits, how the value is
   written: 0 a varint, 1 eight bytes, 2 a length and that many bytes, 5 four bytes. Anything
   else is an error, and so is field number 0 or a key of more than 32 bits.
   */
  lemma KeyAnnounces(number: nat, wireType: nat, rest: Bytes)
    requires wireType < 8 && number * 8 + wireType < U64
    ensures var got := ParseField(EncodeVarint(number * 8 + wireType) + rest);
            got == if number == 0 || number >= 0x2000_0000 then None
                   else if wireType == 1 then
                     if |rest| < 8 then None else Some((Field(number, Fixed64(rest[..8])), rest[8..]))
                   else if wireType == 5 then
                     if |rest| < 4 then None else Some((Field(number, Fixed32(rest[..4])), rest[4..]))
                   else if wireType != 0 && wireType != 2 then None
                   else match DecodeVarint(rest, 0)
                        case None => None
                        case Some((n, tail)) =>
                          (VarintCapIsU64();
                           if wireType == 0 then Some((Field(number, Varint(n)), tail))
                           else if |tail| < n then None
                           else Some((Field(number, Len(tail[..n])), tail[n..])))
  {
    hide EncodeVarint, DecodeVarint;
    VarintCapIsU64();
    VarintRoundTrip64(number * 8 + wireType, rest);
  }

  /** The fields of two strings parsed one after the other. */
  function Join(first: Option<seq<Field>>, second: Option<seq<Field>>): Option<seq<Field>> {
    if first.None? || second.None? then None else Some(first.value + second.value)
  }

  lemma ParseStep(bs: Bytes, f: Field, rest: Bytes)
    requires ParseField(bs) == Some((f, rest))
    ensures ParseFields(bs) == Join(Some([f]), ParseFields(rest))
  {
  }

  /** A parseable string is a complete prefix: whatever follows is parsed on its own. */
  lemma {:induction false} ParseAppend(a: Bytes, b: Bytes)
    requires ParseFields(a).Some?
    ensures ParseFields(a + b) == Join(ParseFields(a), ParseFields(b))
    decreases |a|
  {
    hide ParseField;
    var second := ParseFields(b);
    if a == [] {
      assert a + b == b;
      assert second.Some? ==> [] + second.value == second.value;
    } else {
      var (f, rest) := ParseField(a).value;
      ParseStep(a, f, rest);
      ParseFieldPrefix(a, b);
      ParseStep(a + b, f, rest + b);
      ParseAppend(rest, b);
      var first := ParseFields(rest);
      assert second.Some? ==> ([f] + first.value) + second.value == [f] + (first.value + second.value);
    }
  }
}
