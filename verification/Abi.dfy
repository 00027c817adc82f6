/** Contract ABI encoding, after "Formal Specification of the Encoding" in the Solidity Contract ABI
    Specification: the heads of a tuple's components, then the tails of its dynamic ones. */
module Abi {
  import opened Common

  type Byte = b: nat | b < 256

  // ---------------------------------------------------------------------------------------------
  // Numbers as bytes
  // ---------------------------------------------------------------------------------------------

  function Pow2(bits: nat): (r: nat)
    ensures r > 0
  {
    if bits == 0 then 1 else 2 * Pow2(bits - 1)
  }

  lemma {:induction false} Pow2Grows(a: nat, b: nat)
    requires a <= b
    ensures Pow2(a) <= Pow2(b)
  {
    if a < b {
      Pow2Grows(a, b - 1);
    }
  }

  lemma Pow2Byte(k: nat)
    ensures Pow2(8 * (k + 1)) == 256 * Pow2(8 * k)
  {
    var b := 8 * k;
    assert Pow2(b + 8) == 2 * Pow2(b + 7) && Pow2(b + 7) == 2 * Pow2(b + 6) && Pow2(b + 6) == 2 * Pow2(b + 5);
    assert Pow2(b + 5) == 2 * Pow2(b + 4) && Pow2(b + 4) == 2 * Pow2(b + 3) && Pow2(b + 3) == 2 * Pow2(b + 2);
    assert Pow2(b + 2) == 2 * Pow2(b + 1) && Pow2(b + 1) == 2 * Pow2(b);
  }

  /** Big-endian, in `k` bytes. */
  function ToBytes(n: nat, k: nat): (s: seq<Byte>)
    ensures |s| == k
    decreases k, n
  {
    if k == 0 then [] else ToBytes(n / 256, k - 1) + [n % 256]
  }

  function FromBytes(s: seq<Byte>): nat {
    if s == [] then 0 else FromBytes(s[..|s| - 1]) * 256 + s[|s| - 1]
  }

  lemma {:induction false} NumberRoundTrip(n: nat, k: nat)
    requires n < Pow2(8 * k)
    ensures FromBytes(ToBytes(n, k)) == n
  {
    if k > 0 {
      Pow2Byte(k - 1);
      NumberRoundTrip(n / 256, k - 1);
      assert ToBytes(n, k)[..k - 1] == ToBytes(n / 256, k - 1);
    }
  }

  /** A number in one 32-byte word. */
  function Word(n: nat): (s: seq<Byte>)
    ensures |s| == 32
  {
    ToBytes(n, 32)
  }

  lemma {:induction false} Pow2Adds(a: nat, b: nat)
    ensures Pow2(a + b) == Pow2(a) * Pow2(b)
  {
    if b > 0 {
      Pow2Adds(a, b - 1);
    }
  }

  lemma WordLimit()
    ensures Pow2(256) == UINT256_MAX + 1
  {
    Pow2Byte(0);
    assert Pow2(8) == 0x100;
    Pow2Adds(8, 8);
    assert Pow2(16) == 0x1_0000;
    Pow2Adds(16, 16);
    assert Pow2(32) == 0x1_0000_0000;
    Pow2Adds(32, 32);
    assert Pow2(64) == 0x1_0000_0000_0000_0000;
    Pow2Adds(64, 64);
    assert Pow2(128) == 0x1_0000_0000_0000_0000_0000_0000_0000_0000;
    Pow2Adds(128, 128);
  }

  lemma WordRoundTrip(n: nat)
    requires n <= UINT256_MAX
    ensures FromBytes(Word(n)) == n
  {
    WordLimit();
    NumberRoundTrip(n, 32);
  }

  lemma FitsAWord(bits: nat)
    requires bits <= 256
    ensures Pow2(bits) <= UINT256_MAX + 1
  {
    WordLimit();
    Pow2Grows(bits, 256);
  }

  // ---------------------------------------------------------------------------------------------
  // Types and values
  // ---------------------------------------------------------------------------------------------

  const ADDRESS_LIMIT: nat := 0x1_0000_0000_0000_0000_0000_0000_0000_0000_0000_0000

  datatype Type = UInt(bits: nat) | AddressType | Bytes32 | Bytes | Tuple(components: Components)

  datatype Components = NoMore | Component(name: string, kind: Type, rest: Components)

  datatype Value = Num(n: nat) | Octets(octets: seq<Byte>) | Struct(values: Values)

  datatype Values = NoValues | And(first: Value, others: Values)

  predicate HasType(t: Type, v: Value) {
    match t
    case UInt(bits) => v.Num? && bits <= 256 && v.n < Pow2(bits)
    case AddressType => v.Num? && v.n < ADDRESS_LIMIT
    case Bytes32 => v.Octets? && |v.octets| == 32
    case Bytes => v.Octets? && |v.octets| <= UINT256_MAX
    case Tuple(components) => v.Struct? && HaveTypes(components, v.values)
  }

  predicate HaveTypes(ts: Components, vs: Values) {
    if ts.NoMore? then vs.NoValues? else vs.And? && HasType(ts.kind, vs.first) && HaveTypes(ts.rest, vs.others)
  }

  predicate Dynamic(t: Type) {
    match t
    case Bytes => true
    case Tuple(components) => AnyDynamic(components)
    case _ => false
  }

  predicate AnyDynamic(ts: Components) { ts.Component? && (Dynamic(ts.kind) || AnyDynamic(ts.rest)) }

  /** Bytes a component takes among the heads. */
  function HeadSize(t: Type): (r: nat)
    decreases t, 1
  {
    if Dynamic(t) then 32 else StaticSize(t)
  }

  function StaticSize(t: Type): nat
    decreases t, 0
  {
    if t.Tuple? then HeadsSize(t.components) else 32
  }

  function HeadsSize(ts: Components): nat {
    if ts.NoMore? then 0 else HeadSize(ts.kind) + HeadsSize(ts.rest)
  }

  // ---------------------------------------------------------------------------------------------
  // Encoding
  // ---------------------------------------------------------------------------------------------

  /** The least whole number of words. */
  function PaddedSize(n: nat): (r: nat)
    ensures r % 32 == 0 && n <= r < n + 32
  {
    (n + 31) / 32 * 32
  }

  function Zeros(n: nat): (s: seq<Byte>)
    ensures |s| == n
  {
    seq(n, _ => 0)
  }

  function Encode(t: Type, v: Value): seq<Byte>
    requires HasType(t, v)
    decreases t, 1
  {
    match t
    case UInt(_) => Word(v.n)
    case AddressType => Word(v.n)
    case Bytes32 => v.octets
    case Bytes => Word(|v.octets|) + v.octets + Zeros(PaddedSize(|v.octets|) - |v.octets|)
    case Tuple(components) => EncodeTuple(components, v.values)
  }

  function EncodeTuple(ts: Components, vs: Values): seq<Byte>
    requires HaveTypes(ts, vs)
    decreases ts, 2
  {
    Heads(ts, vs, HeadsSize(ts)) + Tails(ts, vs)
  }

  /** The heads, the next tail to come starting at `offset` from the tuple's own start. */
  function Heads(ts: Components, vs: Values, offset: nat): seq<Byte>
    requires HaveTypes(ts, vs)
    decreases ts, 1
  {
    if ts.NoMore? then []
    else
      var encoded := Encode(ts.kind, vs.first);
      if Dynamic(ts.kind) then Word(offset) + Heads(ts.rest, vs.others, offset + |encoded|)
      else encoded + Heads(ts.rest, vs.others, offset)
  }

  function Tails(ts: Components, vs: Values): seq<Byte>
    requires HaveTypes(ts, vs)
    decreases ts, 1
  {
    if ts.NoMore? then []
    else (if Dynamic(ts.kind) then Encode(ts.kind, vs.first) else []) + Tails(ts.rest, vs.others)
  }

  // ---------------------------------------------------------------------------------------------
  // Decoding: strict, ignoring what follows the value
  // ---------------------------------------------------------------------------------------------

  function DecodeNumber(data: seq<Byte>, limit: nat): Option<Value> {
    if |data| < 32 || FromBytes(data[..32]) >= limit then None else Some(Num(FromBytes(data[..32])))
  }

  function DecodeBytes(data: seq<Byte>): Option<Value> {
    if |data| < 32 then None
    else
      var n := FromBytes(data[..32]);
      if |data| < 32 + PaddedSize(n) || data[32 + n..32 + PaddedSize(n)] != Zeros(PaddedSize(n) - n) then None
      else Some(Octets(data[32..32 + n]))
  }

  function Decode(t: Type, data: seq<Byte>): Option<Value>
    decreases t, 1
  {
    match t
    case UInt(bits) => DecodeNumber(data, Pow2(bits))
    case AddressType => DecodeNumber(data, ADDRESS_LIMIT)
    case Bytes32 => if |data| < 32 then None else Some(Octets(data[..32]))
    case Bytes => DecodeBytes(data)
    case Tuple(components) =>
      var values := DecodeTuple(components, data, 0);
      if values.None? then None else Some(Struct(values.value))
  }

  /** The components of the tuple that starts where `frame` does, from the head at `position` on. */
  function DecodeTuple(ts: Components, frame: seq<Byte>, position: nat): Option<Values>
    decreases ts, 1
  {
    if ts.NoMore? then Some(NoValues)
    else
      var start := if !Dynamic(ts.kind) then position
        else if position + 32 <= |frame| then FromBytes(frame[position..position + 32]) else |frame| + 1;
      if start > |frame| then None
      else
        var first, others := Decode(ts.kind, frame[start..]), DecodeTuple(ts.rest, frame, position + HeadSize(ts.kind));
        if first.None? || others.None? then None else Some(And(first.value, others.value))
  }

  // ---------------------------------------------------------------------------------------------
  // Round trip
  // ---------------------------------------------------------------------------------------------

  lemma {:induction false} StaticIsItsSize(t: Type, v: Value)
    requires HasType(t, v) && !Dynamic(t)
    ensures |Encode(t, v)| == StaticSize(t)
    decreases t
  {
    if t.Tuple? {
      HeadsAreTheirSize(t.components, v.values, HeadsSize(t.components));
      NoTails(t.components, v.values);
    }
  }

  lemma {:induction false} HeadsAreTheirSize(ts: Components, vs: Values, offset: nat)
    requires HaveTypes(ts, vs)
    ensures |Heads(ts, vs, offset)| == HeadsSize(ts)
    decreases ts
  {
    if ts.Component? {
      var encoded := Encode(ts.kind, vs.first);
      if Dynamic(ts.kind) {
        HeadsAreTheirSize(ts.rest, vs.others, offset + |encoded|);
      } else {
        StaticIsItsSize(ts.kind, vs.first);
        HeadsAreTheirSize(ts.rest, vs.others, offset);
      }
    }
  }

  lemma {:induction false} NoTails(ts: Components, vs: Values)
    requires HaveTypes(ts, vs) && !AnyDynamic(ts)
    ensures Tails(ts, vs) == []
  {
    if ts.Component? {
      NoTails(ts.rest, vs.others);
    }
  }

  /** Decoding what was encoded gives it back, whatever follows. */
  lemma {:induction false} DecodeEncoded(t: Type, v: Value, after: seq<Byte>)
    requires HasType(t, v) && |Encode(t, v)| <= UINT256_MAX
    ensures Decode(t, Encode(t, v) + after) == Some(v)
    decreases t, 1
  {
    var data := Encode(t, v) + after;
    match t
    case UInt(bits) =>
      FitsAWord(bits);
      WordRoundTrip(v.n);
      assert data[..32] == Word(v.n);
    case AddressType =>
      WordRoundTrip(v.n);
      assert data[..32] == Word(v.n);
    case Bytes32 => assert data[..32] == v.octets;
    case Bytes => BytesRoundTrip(v.octets, after);
    case Tuple(components) =>
      var size := HeadsSize(components);
      var heads, tails := Heads(components, v.values, size), Tails(components, v.values);
      HeadsAreTheirSize(components, v.values, size);
      assert data[0..size] == heads && data[size..size + |tails|] == tails;
      DecodeComponents(components, v.values, data, 0, size);
  }

  lemma BytesRoundTrip(octets: seq<Byte>, after: seq<Byte>)
    requires |octets| <= UINT256_MAX
    ensures DecodeBytes(Word(|octets|) + octets + Zeros(PaddedSize(|octets|) - |octets|) + after)
         == Some(Octets(octets))
  {
    var n := |octets|;
    WordRoundTrip(n);
    Slices(Word(n), octets, Zeros(PaddedSize(n) - n), after);
  }

  lemma Slices(a: seq<Byte>, b: seq<Byte>, c: seq<Byte>, after: seq<Byte>)
    ensures var data := a + b + c + after;
      data[..|a|] == a && data[|a|..|a| + |b|] == b && data[|a| + |b|..|a| + |b| + |c|] == c
  {
  }

  /** A stretch of a frame, cut in two. */
  lemma Cut(frame: seq<Byte>, start: nat, stretch: seq<Byte>, at: nat)
    requires start + |stretch| <= |frame| && frame[start..start + |stretch|] == stretch && at <= |stretch|
    ensures frame[start..start + at] == stretch[..at]
    ensures frame[start + at..start + |stretch|] == stretch[at..]
    ensures frame[start..] == stretch[..at] + frame[start + at..]
  {
    assert frame[start..start + at] == frame[start..start + |stretch|][..at];
    assert frame[start + at..start + |stretch|] == frame[start..start + |stretch|][at..];
    assert frame[start..] == frame[start..start + at] + frame[start + at..];
  }

  /** From the component whose head is at `position`, its own or the next dynamic one's tail at
      `offset`. */
  lemma {:induction false} DecodeComponents(ts: Components, vs: Values, frame: seq<Byte>, position: nat, offset: nat)
    requires HaveTypes(ts, vs) && Lies(ts, vs, frame, position, offset)
    ensures DecodeTuple(ts, frame, position) == Some(vs)
    decreases ts, 1
  {
    if ts.Component? {
      HeadsAreTheirSize(ts, vs, offset);
      if Dynamic(ts.kind) {
        DecodeDynamic(ts, vs, frame, position, offset);
        DecodeComponents(ts.rest, vs.others, frame, position + 32, offset + |Encode(ts.kind, vs.first)|);
      } else {
        DecodeStatic(ts, vs, frame, position, offset);
        DecodeComponents(ts.rest, vs.others, frame, position + StaticSize(ts.kind), offset);
      }
    }
  }

  /** The same frame, at the next component. */
  ghost predicate Lies(ts: Components, vs: Values, frame: seq<Byte>, position: nat, offset: nat)
    requires HaveTypes(ts, vs)
  {
    var heads, tails := Heads(ts, vs, offset), Tails(ts, vs);
    && position + |heads| <= |frame| && frame[position..position + |heads|] == heads && |heads| == HeadsSize(ts)
    && offset + |tails| <= |frame| && frame[offset..offset + |tails|] == tails
    && offset + |tails| <= UINT256_MAX && |heads| <= UINT256_MAX
  }

  lemma {:induction false} DecodeDynamic(ts: Components, vs: Values, frame: seq<Byte>, position: nat, offset: nat)
    requires ts.Component? && HaveTypes(ts, vs) && Dynamic(ts.kind) && Lies(ts, vs, frame, position, offset)
    ensures FromBytes(frame[position..position + 32]) == offset
    ensures Decode(ts.kind, frame[offset..]) == Some(vs.first)
    ensures Lies(ts.rest, vs.others, frame, position + 32, offset + |Encode(ts.kind, vs.first)|)
    decreases ts, 0
  {
    OffsetIsRead(ts, vs, frame, position, offset);
    NextLies(ts, vs, frame, position, offset);
    DecodeEncoded(ts.kind, vs.first, frame[offset + |Encode(ts.kind, vs.first)|..]);
  }

  lemma OffsetIsRead(ts: Components, vs: Values, frame: seq<Byte>, position: nat, offset: nat)
    requires ts.Component? && HaveTypes(ts, vs) && Dynamic(ts.kind) && Lies(ts, vs, frame, position, offset)
    ensures position + 32 <= |frame| && FromBytes(frame[position..position + 32]) == offset
  {
    NextLies(ts, vs, frame, position, offset);
    WordRoundTrip(offset);
  }

  lemma NextLies(ts: Components, vs: Values, frame: seq<Byte>, position: nat, offset: nat)
    requires ts.Component? && HaveTypes(ts, vs) && Dynamic(ts.kind) && Lies(ts, vs, frame, position, offset)
    ensures var encoded := Encode(ts.kind, vs.first);
      && offset + |encoded| <= UINT256_MAX
      && position + 32 <= |frame| && frame[position..position + 32] == Word(offset)
      && offset + |encoded| <= |frame| && frame[offset..] == encoded + frame[offset + |encoded|..]
      && Lies(ts.rest, vs.others, frame, position + 32, offset + |encoded|)
  {
    var encoded := Encode(ts.kind, vs.first);
    var heads, tails := Heads(ts.rest, vs.others, offset + |encoded|), Tails(ts.rest, vs.others);
    DynamicParts(ts, vs, offset);
    HeadsAreTheirSize(ts.rest, vs.others, offset + |encoded|);
    LiesDynamic(frame, position, offset, Word(offset), heads, encoded, tails);
  }

  lemma DynamicParts(ts: Components, vs: Values, offset: nat)
    requires ts.Component? && HaveTypes(ts, vs) && Dynamic(ts.kind)
    ensures var encoded := Encode(ts.kind, vs.first);
      && Heads(ts, vs, offset) == Word(offset) + Heads(ts.rest, vs.others, offset + |encoded|)
      && Tails(ts, vs) == encoded + Tails(ts.rest, vs.others)
      && HeadsSize(ts) == 32 + HeadsSize(ts.rest)
  {
  }

  lemma LiesDynamic(frame: seq<Byte>, position: nat, offset: nat, head: seq<Byte>, heads: seq<Byte>,
                    encoded: seq<Byte>, tails: seq<Byte>)
    requires position + |head| + |heads| <= |frame| && frame[position..position + |head| + |heads|] == head + heads
    requires offset + |encoded| + |tails| <= |frame| && frame[offset..offset + |encoded| + |tails|] == encoded + tails
    ensures frame[position..position + |head|] == head
    ensures frame[position + |head|..position + |head| + |heads|] == heads
    ensures frame[offset..] == encoded + frame[offset + |encoded|..]
    ensures frame[offset + |encoded|..offset + |encoded| + |tails|] == tails
  {
    Cut(frame, position, head + heads, |head|);
    Cut(frame, offset, encoded + tails, |encoded|);
  }

  lemma {:induction false} DecodeStatic(ts: Components, vs: Values, frame: seq<Byte>, position: nat, offset: nat)
    requires ts.Component? && HaveTypes(ts, vs) && !Dynamic(ts.kind) && Lies(ts, vs, frame, position, offset)
    ensures Decode(ts.kind, frame[position..]) == Some(vs.first)
    ensures Lies(ts.rest, vs.others, frame, position + StaticSize(ts.kind), offset)
    decreases ts, 0
  {
    var size := StaticSize(ts.kind);
    StaticIsItsSize(ts.kind, vs.first);
    HeadsAreTheirSize(ts.rest, vs.others, offset);
    Cut(frame, position, Heads(ts, vs, offset), size);
    DecodeEncoded(ts.kind, vs.first, frame[position + size..]);
  }
}
