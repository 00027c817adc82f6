/** The bytes of a signed action's calldata, one by one: what the contract reads at each place, whatever
    reads them back. */
module Calldata {
  import opened Common
  import opened Abi
  import opened JsonForms
  import opened Codec

  // ---------------------------------------------------------------------------------------------
  // Bytes and digits
  // ---------------------------------------------------------------------------------------------

  /** Bytes are read most significant first. */
  lemma {:induction false} BigEndian(s: seq<Byte>, t: seq<Byte>)
    ensures FromBytes(s + t) == FromBytes(s) * Pow2(8 * |t|) + FromBytes(t)
    ensures |t| == 1 ==> FromBytes(t) == t[0]
  {
    if t == [] {
      assert s + t == s;
    } else {
      var front, last := t[..|t| - 1], t[|t| - 1];
      BigEndian(s, front);
      Pow2Byte(|front|);
      assert (s + t)[..|s + t| - 1] == s + front && (s + t)[|s + t| - 1] == last;
      Shifted(FromBytes(s), Pow2(8 * |front|), FromBytes(front), last);
    }
  }

  lemma Shifted(a: nat, power: nat, b: nat, last: nat)
    ensures (a * power + b) * 256 + last == a * (256 * power) + (b * 256 + last)
  {
  }

  /** Digits stand for their places in "0123456789abcdef". */
  lemma DigitsAre(d: nat)
    requires d < 16
    ensures HexDigit(d) == "0123456789abcdef"[d]
    ensures d < 10 ==> Digit(d) == "0123456789"[d] && Decimal(d) == ["0123456789"[d]]
  {
  }

  // ---------------------------------------------------------------------------------------------
  // The structs
  // ---------------------------------------------------------------------------------------------

  /** 32 bytes written in hexadecimal, a whole number of so many bits, or an address. */
  datatype Kind = HexWord | Whole(bits: nat) | Account

  /** The contract's structs, field by field. */
  function Fields(a: Action): seq<(string, Kind)> {
    match a
    case OfferAction =>
      [("sessionId", HexWord), ("configHash", HexWord), ("sequence", Whole(64)), ("proposer", Account),
       ("quoteAmount", Whole(256)), ("validUntil", Whole(64))]
    case AcceptAction =>
      [("sessionId", HexWord), ("configHash", HexWord), ("sequence", Whole(64)), ("actor", Account),
       ("offerHash", HexWord)]
    case CloseAction =>
      [("sessionId", HexWord), ("configHash", HexWord), ("sequence", Whole(64)), ("actor", Account),
       ("reason", Whole(8))]
  }

  /** The word is the field's value. */
  predicate Holds(word: seq<Byte>, kind: Kind, j: Json) {
    match kind
    case HexWord => j.JString? && FromHex(WithoutPrefix(j.s)) == Some(word)
    case Whole(bits) => Amount(j) == Some(FromBytes(word)) && FromBytes(word) < Pow2(bits)
    case Account => j.JAddress? && j.address == FromBytes(word)
  }

  predicate IsKind(kind: Kind, t: Type) {
    match kind
    case HexWord => t.Bytes32?
    case Whole(bits) => t == UInt(bits)
    case Account => t.AddressType?
  }

  /** The struct has these fields, in this order. */
  predicate Has(ts: Components, fields: seq<(string, Kind)>) {
    if fields == [] then ts.NoMore?
    else ts.Component? && ts.name == fields[0].0 && IsKind(fields[0].1, ts.kind) && Has(ts.rest, fields[1..])
  }

  lemma StructsHaveTheirFields(a: Action)
    ensures Has(StructOf(a), Fields(a))
  {
    var fields := Fields(a);
    assert fields[1..][1..] == fields[2..] && fields[2..][1..] == fields[3..] && fields[3..][1..] == fields[4..];
    assert fields[4..][1..] == fields[5..] && |fields| == 6 ==> fields[5..][1..] == [];
    var ts := StructOf(a);
    assert |fields| == 6 ==> Has(ts.rest.rest.rest.rest.rest, fields[5..]);
    assert Has(ts.rest.rest.rest.rest, fields[4..]);
    assert Has(ts.rest.rest.rest, fields[3..]);
    assert Has(ts.rest.rest, fields[2..]);
    assert Has(ts.rest, fields[1..]);
  }

  lemma WordHolds(t: Type, kind: Kind, j: Json)
    requires IsKind(kind, t) && FromJson(t, j).Some?
    ensures HasType(t, FromJson(t, j).value) && !Dynamic(t) && HeadSize(t) == 32
    ensures |Encode(t, FromJson(t, j).value)| == 32 && Holds(Encode(t, FromJson(t, j).value), kind, j)
  {
    FromJsonHasType(t, j);
    match t
    case UInt(bits) =>
      FitsAWord(bits);
      WordRoundTrip(FromJson(t, j).value.n);
    case AddressType => WordRoundTrip(FromJson(t, j).value.n);
    case Bytes32 =>
  }

  /** A component of fixed size is among the heads, and nothing of it among the tails. */
  lemma StaticFirst(ts: Components, vs: Values, offset: nat)
    requires ts.Component? && HaveTypes(ts, vs) && !Dynamic(ts.kind)
    ensures Heads(ts, vs, offset) == Encode(ts.kind, vs.first) + Heads(ts.rest, vs.others, offset)
    ensures Tails(ts, vs) == Tails(ts.rest, vs.others)
    ensures HeadsSize(ts) == HeadSize(ts.kind) + HeadsSize(ts.rest)
  {
    assert Tails(ts, vs) == [] + Tails(ts.rest, vs.others);
  }

  /** One word for each field, holding its value. */
  predicate WordsHold(words: seq<Byte>, fields: seq<(string, Kind)>, message: map<string, Json>) {
    && |words| == 32 * |fields|
    && forall i | 0 <= i < |fields| ::
         fields[i].0 in message && Holds(words[32 * i..32 * i + 32], fields[i].1, message[fields[i].0])
  }

  /** A struct of words is its fields' words, in order. */
  lemma {:induction false} HeadsHold(ts: Components, fields: seq<(string, Kind)>, message: map<string, Json>,
                                     offset: nat)
    requires Has(ts, fields) && FromFields(ts, message).Some?
    ensures var vs := FromFields(ts, message).value;
      && HaveTypes(ts, vs) && !AnyDynamic(ts) && HeadsSize(ts) == 32 * |fields|
      && WordsHold(Heads(ts, vs, offset), fields, message)
  {
    FromFieldsHaveTypes(ts, message);
    if fields != [] {
      var vs := FromFields(ts, message).value;
      WordHolds(ts.kind, fields[0].1, message[ts.name]);
      HeadsHold(ts.rest, fields[1..], message, offset);
      var word, rest := Encode(ts.kind, vs.first), Heads(ts.rest, vs.others, offset);
      StaticFirst(ts, vs, offset);
      assert |fields| == 1 + |fields[1..]|;
      OneMoreWord(word, rest, fields, message);
    }
  }

  lemma OneMoreWord(word: seq<Byte>, rest: seq<Byte>, fields: seq<(string, Kind)>, message: map<string, Json>)
    requires fields != [] && fields[0].0 in message && |word| == 32
    requires Holds(word, fields[0].1, message[fields[0].0]) && WordsHold(rest, fields[1..], message)
    ensures WordsHold(word + rest, fields, message)
  {
    forall i | 0 <= i < |fields|
      ensures fields[i].0 in message
      ensures Holds((word + rest)[32 * i..32 * i + 32], fields[i].1, message[fields[i].0])
    {
      if i > 0 {
        assert (word + rest)[32 * i..32 * i + 32] == rest[32 * (i - 1)..32 * (i - 1) + 32];
        assert fields[1..][i - 1] == fields[i];
      } else {
        assert (word + rest)[0..32] == word;
      }
    }
  }

  /** The signature's own head and tail. */
  lemma SignatureParts(octets: seq<Byte>, offset: nat)
    requires HasType(Bytes, Octets(octets))
    ensures var ts, vs := Component("signature", Bytes, NoMore), And(Octets(octets), NoValues);
      && HaveTypes(ts, vs) && HeadsSize(ts) == 32 && Heads(ts, vs, offset) == Word(offset)
      && Tails(ts, vs) == Encode(Bytes, Octets(octets))
  {
    var ts, vs := Component("signature", Bytes, NoMore), And(Octets(octets), NoValues);
    var encoded := Encode(Bytes, Octets(octets));
    assert HaveTypes(ts.rest, vs.others) && HeadsSize(ts.rest) == 0;
    assert Heads(ts.rest, vs.others, offset + |encoded|) == [] && Tails(ts.rest, vs.others) == [];
    assert Tails(ts, vs) == encoded + [];
  }

  /** A struct of words is encoded as its heads alone. */
  lemma StructIsItsHeads(struct: Components, values: Values)
    requires HaveTypes(struct, values) && !AnyDynamic(struct)
    ensures Encode(Tuple(struct), Struct(values)) == Heads(struct, values, HeadsSize(struct))
    ensures !Dynamic(Tuple(struct)) && HeadSize(Tuple(struct)) == HeadsSize(struct)
  {
    NoTails(struct, values);
    assert Encode(Tuple(struct), Struct(values)) == Heads(struct, values, HeadsSize(struct)) + [];
  }

  /** The arguments: the struct's words, where the signature starts, and the signature with its length. */
  lemma ArgumentBytes(ts: Components, vs: Values, struct: Components, values: Values, octets: seq<Byte>, size: nat)
    requires HaveTypes(struct, values) && !AnyDynamic(struct) && HasType(Bytes, Octets(octets))
    requires ts.Component? && ts == Inputs(ts.name, struct) && vs == Arguments(values, octets) && HaveTypes(ts, vs)
    requires size == HeadsSize(struct)
    ensures EncodeTuple(ts, vs) == Heads(struct, values, size) + (Word(size + 32) + Encode(Bytes, Octets(octets)))
  {
    StructIsItsHeads(struct, values);
    SignatureParts(octets, size + 32);
    StaticFirst(ts, vs, size + 32);
    Regroup(Heads(struct, values, size), Word(size + 32), Encode(Bytes, Octets(octets)));
  }

  lemma Regroup(a: seq<Byte>, b: seq<Byte>, c: seq<Byte>)
    ensures (a + b) + c == a + (b + c)
  {
  }

  /** The first part of a stretch that starts at `n`, and where the rest of it starts. */
  lemma Next(data: seq<Byte>, n: nat, first: seq<Byte>, rest: seq<Byte>)
    requires n <= |data| && data[n..] == first + rest
    ensures |data| == n + |first| + |rest|
    ensures data[n..n + |first|] == first && data[n + |first|..] == rest
  {
    assert data[n..n + |first|] == data[n..][..|first|];
    assert data[n + |first|..] == data[n..][|first|..];
  }

  /** The arguments of any struct of words: one word for each field, the place of the signature from their
      start, its 65 bytes after their number, and 31 zeros; and nothing else. */
  predicate LaidOut(arguments: seq<Byte>, fields: seq<(string, Kind)>, message: map<string, Json>, signature: string) {
    var n := |fields|;
    && |arguments| == 32 * n + 160
    && WordsHold(arguments[..32 * n], fields, message)
    && FromBytes(arguments[32 * n..32 * n + 32]) == 32 * n + 32
    && FromBytes(arguments[32 * n + 32..32 * n + 64]) == 65
    && FromHex(WithoutPrefix(signature)) == Some(arguments[32 * n + 64..32 * n + 129])
    && arguments[32 * n + 129..] == seq(31, _ => 0)
  }

  lemma PartsAreLaidOut(arguments: seq<Byte>, words: seq<Byte>, fields: seq<(string, Kind)>, message: map<string, Json>,
                        signature: string, octets: seq<Byte>)
    requires WordsHold(words, fields, message) && |fields| <= 6
    requires FromHex(WithoutPrefix(signature)) == Some(octets) && |octets| == 65
    requires arguments == words + (Word(32 * |fields| + 32) + Encode(Bytes, Octets(octets)))
    ensures LaidOut(arguments, fields, message, signature)
  {
    var n := |fields|;
    WordRoundTrip(32 * n + 32);
    WordRoundTrip(|octets|);
    PlacesAre(arguments, words, n, Word(32 * n + 32), Word(|octets|), octets, Padding(octets));
  }

  lemma EncodedTuple(ts: Components, vs: Values, struct: Components, fields: seq<(string, Kind)>,
                     message: map<string, Json>, values: Values, octets: seq<Byte>)
    requires Has(struct, fields) && FromFields(struct, message) == Some(values) && |octets| == 65
    requires ts.Component? && ts == Inputs(ts.name, struct) && vs == Arguments(values, octets) && HaveTypes(ts, vs)
    ensures exists words | WordsHold(words, fields, message) ::
      EncodeTuple(ts, vs) == words + (Word(32 * |fields| + 32) + Encode(Bytes, Octets(octets)))
  {
    HeadsHold(struct, fields, message, 32 * |fields|);
    ArgumentBytes(ts, vs, struct, values, octets, 32 * |fields|);
  }

  lemma ArgumentsAreLaidOut(parameter: string, struct: Components, fields: seq<(string, Kind)>,
                            message: map<string, Json>, signature: string)
    requires Has(struct, fields) && |fields| <= 6 && EncodeArguments(parameter, struct, message, signature).Ok?
    ensures LaidOut(EncodeArguments(parameter, struct, message, signature).value, fields, message, signature)
  {
    var values, octets := FromFields(struct, message).value, FromHex(WithoutPrefix(signature)).value;
    FromFieldsHaveTypes(struct, message);
    ArgumentsHaveTypes(parameter, struct, values, octets);
    var ts, vs := Inputs(parameter, struct), Arguments(values, octets);
    EncodedTuple(ts, vs, struct, fields, message, values, octets);
    var words :| WordsHold(words, fields, message)
      && EncodeTuple(ts, vs) == words + (Word(32 * |fields| + 32) + Encode(Bytes, Octets(octets)));
    PartsAreLaidOut(EncodeTuple(ts, vs), words, fields, message, signature, octets);
  }

  /** Every action that encodes: its selector, then its arguments, laid out as the contract's struct is. */
  lemma CallLayout(d: Deployment, a: Action, message: map<string, Json>, signature: string)
    requires d.Valid() && EncodeSignedAction(d, a, message, signature).Ok?
    ensures var data := EncodeSignedAction(d, a, message, signature).value;
      && |data| > 4 && data[..4] == d.selectors[a] && LaidOut(data[4..], Fields(a), message, signature)
  {
    StructsHaveTheirFields(a);
    ArgumentsAreLaidOut(ParameterOf(a), StructOf(a), Fields(a), message, signature);
    SelectorFirst(d, a, message, signature);
  }

  lemma SelectorFirst(d: Deployment, a: Action, message: map<string, Json>, signature: string)
    requires d.Valid() && EncodeSignedAction(d, a, message, signature).Ok?
    ensures var data := EncodeSignedAction(d, a, message, signature).value;
      && |data| >= 4 && data[..4] == d.selectors[a]
      && EncodeArguments(ParameterOf(a), StructOf(a), message, signature) == Ok(data[4..])
  {
    var arguments := EncodeArguments(ParameterOf(a), StructOf(a), message, signature).value;
    assert (d.selectors[a] + arguments)[4..] == arguments;
  }

  function Padding(octets: seq<Byte>): seq<Byte> { Zeros(PaddedSize(|octets|) - |octets|) }

  lemma PlacesAre(data: seq<Byte>, words: seq<Byte>, n: nat, start: seq<Byte>, length: seq<Byte>, octets: seq<Byte>,
                  zeros: seq<Byte>)
    requires |words| == 32 * n && |start| == |length| == 32 && |octets| == 65
    requires data == words + (start + (length + octets + zeros))
    ensures |data| == 32 * n + 129 + |zeros| && data[..32 * n] == words
    ensures data[32 * n..32 * n + 32] == start && data[32 * n + 32..32 * n + 64] == length
    ensures data[32 * n + 64..32 * n + 129] == octets && data[32 * n + 129..] == zeros
  {
    assert data[0..] == data && length + octets + zeros == length + (octets + zeros);
    Next(data, 0, words, start + (length + (octets + zeros)));
    Next(data, 32 * n, start, length + (octets + zeros));
    Next(data, 32 * n + 32, length, octets + zeros);
    Next(data, 32 * n + 64, octets, zeros);
  }

  /** Which function each action calls, and the name of the struct it takes. */
  function NamesOfCall(a: Action): (string, string) {
    match a
    case OfferAction => ("recordOffer", "offer")
    case AcceptAction => ("acceptAndSettle", "acceptance")
    case CloseAction => ("closeSession", "closure")
  }

  /** Read back, the calldata are of that function, with that struct and the signature. */
  lemma CallNames(d: Deployment, a: Action, message: map<string, Json>, signature: string)
    requires d.Valid() && EncodeSignedAction(d, a, message, signature).Ok?
    ensures var decoded := DecodeCall(d, d.exchange, EncodeSignedAction(d, a, message, signature).value);
      && decoded.Call? && decoded.call.name == NamesOfCall(a).0
      && decoded.call.args.Keys == {NamesOfCall(a).1, "signature"}
  {
    CallRoundTrip(d, a, message, signature);
  }
}
