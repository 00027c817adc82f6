/** Calldata of the three signed actions, to the contract and back. */
module Codec {
  import opened Common
  import opened Abi
  import opened JsonForms

  datatype Action = OfferAction | AcceptAction | CloseAction

  const OFFER_STRUCT: Components :=
    Component("sessionId", Bytes32, Component("configHash", Bytes32, Component("sequence", UInt(64),
    Component("proposer", AddressType, Component("quoteAmount", UInt(256),
    Component("validUntil", UInt(64), NoMore))))))

  const ACCEPT_STRUCT: Components :=
    Component("sessionId", Bytes32, Component("configHash", Bytes32, Component("sequence", UInt(64),
    Component("actor", AddressType, Component("offerHash", Bytes32, NoMore)))))

  const CLOSE_STRUCT: Components :=
    Component("sessionId", Bytes32, Component("configHash", Bytes32, Component("sequence", UInt(64),
    Component("actor", AddressType, Component("reason", UInt(8), NoMore)))))

  function StructOf(a: Action): Components {
    match a
    case OfferAction => OFFER_STRUCT
    case AcceptAction => ACCEPT_STRUCT
    case CloseAction => CLOSE_STRUCT
  }

  function ParameterOf(a: Action): string {
    match a
    case OfferAction => "offer"
    case AcceptAction => "acceptance"
    case CloseAction => "closure"
  }

  function FunctionOf(a: Action): string {
    match a
    case OfferAction => "recordOffer"
    case AcceptAction => "acceptAndSettle"
    case CloseAction => "closeSession"
  }

  /** A function's inputs: its one struct, then the signature. */
  function Inputs(parameter: string, struct: Components): Components {
    Component(parameter, Tuple(struct), Component("signature", Bytes, NoMore))
  }

  function Arguments(values: Values, octets: seq<Byte>): Values { And(Struct(values), And(Octets(octets), NoValues)) }

  /** One deployment: the exchange, and the selectors its functions hash to. */
  datatype Deployment = Deployment(exchange: nat, selectors: map<Action, seq<Byte>>)
  {
    ghost predicate Valid() {
      && (forall a: Action :: a in selectors && |selectors[a]| == 4)
      && (forall a: Action, b: Action :: a in selectors && b in selectors && selectors[a] == selectors[b] ==> a == b)
    }
  }

  datatype CodecError = WrongFields | NotEncodable | WrongSignatureLength

  /** The arguments for a stored signed action: exactly its struct's fields, and a 65-byte signature. */
  function EncodeArguments(parameter: string, struct: Components, message: map<string, Json>, signature: string)
    : Result<seq<Byte>, CodecError>
  {
    if message.Keys != NamesOf(struct) then Err(WrongFields)
    else
      var values, octets := FromFields(struct, message), FromHex(WithoutPrefix(signature));
      if values.None? || octets.None? then Err(NotEncodable)
      else if |octets.value| != 65 then Err(WrongSignatureLength)
      else
        FromFieldsHaveTypes(struct, message);
        ArgumentsHaveTypes(parameter, struct, values.value, octets.value);
        Ok(EncodeTuple(Inputs(parameter, struct), Arguments(values.value, octets.value)))
  }

  function EncodeSignedAction(d: Deployment, a: Action, message: map<string, Json>, signature: string)
    : Result<seq<Byte>, CodecError>
    requires a in d.selectors
  {
    match EncodeArguments(ParameterOf(a), StructOf(a), message, signature)
    case Err(e) => Err(e)
    case Ok(arguments) => Ok(d.selectors[a] + arguments)
  }

  /** The arguments in their JSON form, by parameter name. */
  function DecodeArguments(parameter: string, struct: Components, data: seq<Byte>): Option<map<string, Json>> {
    var values := DecodeTuple(Inputs(parameter, struct), data, 0);
    if values.None? || !HaveTypes(Inputs(parameter, struct), values.value) then None
    else Some(ToFields(Inputs(parameter, struct), values.value))
  }

  datatype DecodedCall = DecodedCall(name: string, args: map<string, Json>)

  /** Which function these calldata select, if it is one of the three. */
  function Selected(d: Deployment, data: seq<Byte>): Option<Action>
    requires forall a: Action :: a in d.selectors
  {
    if |data| < 4 then None
    else if data[..4] == d.selectors[OfferAction] then Some(OfferAction)
    else if data[..4] == d.selectors[AcceptAction] then Some(AcceptAction)
    else if data[..4] == d.selectors[CloseAction] then Some(CloseAction)
    else None
  }

  datatype Decoding = NotOurs | Unreadable | Call(call: DecodedCall)

  function DecodeCall(d: Deployment, to: nat, data: seq<Byte>): Decoding
    requires forall a: Action :: a in d.selectors
  {
    if to != d.exchange || Selected(d, data).None? then NotOurs
    else
      var a := Selected(d, data).value;
      var args := DecodeArguments(ParameterOf(a), StructOf(a), data[4..]);
      if args.None? then Unreadable else Call(DecodedCall(FunctionOf(a), args.value))
  }

  /** Each struct is static and small, its field names distinct. */
  ghost predicate Plain(parameter: string, struct: Components) {
    DistinctAmong(struct) && !AnyDynamic(struct) && HeadsSize(struct) <= 192 && parameter != "signature"
  }

  lemma StructsArePlain(a: Action)
    ensures Plain(ParameterOf(a), StructOf(a))
  {
    match a
    case OfferAction => assert |ParameterOf(a)| == 5;
    case AcceptAction => assert |ParameterOf(a)| == 10;
    case CloseAction => assert |ParameterOf(a)| == 7;
  }

  lemma ArgumentsHaveTypes(parameter: string, struct: Components, values: Values, octets: seq<Byte>)
    requires HaveTypes(struct, values) && |octets| == 65
    ensures HaveTypes(Inputs(parameter, struct), Arguments(values, octets))
  {
    var ts, vs := Inputs(parameter, struct), Arguments(values, octets);
    assert HaveTypes(ts.rest.rest, vs.others.others);
    assert HaveTypes(ts.rest, vs.others);
  }

  lemma ArgumentsLie(parameter: string, struct: Components, values: Values, octets: seq<Byte>)
    requires Plain(parameter, struct) && HaveTypes(struct, values) && |octets| == 65
    requires HaveTypes(Inputs(parameter, struct), Arguments(values, octets))
    ensures var ts, vs := Inputs(parameter, struct), Arguments(values, octets);
      Lies(ts, vs, EncodeTuple(ts, vs), 0, HeadsSize(ts))
  {
    var ts, vs := Inputs(parameter, struct), Arguments(values, octets);
    var size := HeadsSize(ts);
    var heads, tails := Heads(ts, vs, size), Tails(ts, vs);
    HeadsAreTheirSize(ts, vs, size);
    ArgumentTails(parameter, struct, values, octets);
    Halves(heads, tails);
  }

  lemma Halves(heads: seq<Byte>, tails: seq<Byte>)
    ensures (heads + tails)[0..|heads|] == heads && (heads + tails)[|heads|..|heads| + |tails|] == tails
  {
  }

  lemma ArgumentTails(parameter: string, struct: Components, values: Values, octets: seq<Byte>)
    requires Plain(parameter, struct) && |octets| == 65
    requires HaveTypes(Inputs(parameter, struct), Arguments(values, octets))
    ensures |Tails(Inputs(parameter, struct), Arguments(values, octets))| == 128
    ensures HeadsSize(Inputs(parameter, struct)) <= 224
  {
    var ts, vs := Inputs(parameter, struct), Arguments(values, octets);
    assert HeadsSize(ts.rest.rest) == 0 && HeadsSize(ts.rest) == 32;
    assert !Dynamic(Tuple(struct)) && HeadSize(Tuple(struct)) == StaticSize(Tuple(struct)) == HeadsSize(struct);
    assert Tails(ts.rest.rest, vs.others.others) == [];
    assert Tails(ts.rest, vs.others) == Encode(Bytes, Octets(octets)) + [];
  }

  lemma ArgumentsRoundTrip(parameter: string, struct: Components, values: Values, octets: seq<Byte>)
    requires Plain(parameter, struct) && HaveTypes(struct, values) && |octets| == 65
    ensures var ts, vs := Inputs(parameter, struct), Arguments(values, octets);
      HaveTypes(ts, vs) && DecodeTuple(ts, EncodeTuple(ts, vs), 0) == Some(vs)
  {
    var ts, vs := Inputs(parameter, struct), Arguments(values, octets);
    ArgumentsHaveTypes(parameter, struct, values, octets);
    ArgumentsLie(parameter, struct, values, octets);
    DecodeComponents(ts, vs, EncodeTuple(ts, vs), 0, HeadsSize(ts));
  }

  lemma ArgumentForms(parameter: string, struct: Components, values: Values, octets: seq<Byte>)
    requires Plain(parameter, struct) && HaveTypes(struct, values) && |octets| == 65
    requires HaveTypes(Inputs(parameter, struct), Arguments(values, octets))
    ensures var args := ToFields(Inputs(parameter, struct), Arguments(values, octets));
      args == map[parameter := ToJson(Tuple(struct), Struct(values)), "signature" := JString("0x" + Hex(octets))]
  {
    var ts, vs := Inputs(parameter, struct), Arguments(values, octets);
    assert ToFields(ts.rest.rest, vs.others.others) == map[];
    assert ToFields(ts.rest, vs.others) == map["signature" := ToJson(Bytes, Octets(octets))];
  }

  lemma SelectedIsSent(d: Deployment, a: Action, arguments: seq<Byte>)
    requires d.Valid()
    ensures Selected(d, d.selectors[a] + arguments) == Some(a)
  {
    assert (d.selectors[a] + arguments)[..4] == d.selectors[a];
    match a
    case OfferAction =>
    case AcceptAction =>
    case CloseAction =>
  }

  /** The message comes back as a struct, unchanged exactly when it was canonical, `uint256` a decimal
      string and narrower integers numbers; the signature in lower-case hexadecimal. */
  ghost predicate ComesBack(parameter: string, struct: Components, message: map<string, Json>, signature: string,
                            args: map<string, Json>)
  {
    && args.Keys == {parameter, "signature"}
    && (args[parameter] == JObject(message) <==> Canonical(Tuple(struct), JObject(message)))
    && (args["signature"] == JString(signature) <==>
         |signature| == 132 && signature[..2] == "0x" && IsLowerHex(signature[2..]))
  }

  lemma ArgumentsComeBack(parameter: string, struct: Components, message: map<string, Json>, signature: string)
    requires Plain(parameter, struct) && EncodeArguments(parameter, struct, message, signature).Ok?
    ensures var data := EncodeArguments(parameter, struct, message, signature).value;
      var args := DecodeArguments(parameter, struct, data);
      args.Some? && ComesBack(parameter, struct, message, signature, args.value)
  {
    var values, octets := FromFields(struct, message).value, FromHex(WithoutPrefix(signature)).value;
    FromFieldsHaveTypes(struct, message);
    ArgumentsHaveTypes(parameter, struct, values, octets);
    ArgumentsRoundTrip(parameter, struct, values, octets);
    ArgumentForms(parameter, struct, values, octets);
    FormIsCanonicalIff(Tuple(struct), JObject(message));
    SignatureFormIff(signature, octets);
  }

  lemma SignatureFormIff(signature: string, octets: seq<Byte>)
    requires FromHex(WithoutPrefix(signature)) == Some(octets) && |octets| == 65
    ensures "0x" + Hex(octets) == signature
       <==> |signature| == 132 && signature[..2] == "0x" && IsLowerHex(signature[2..])
  {
    HexFormIff(signature);
  }

  /** Whatever encodes decodes to the same function and comes back. */
  lemma CallRoundTrip(d: Deployment, a: Action, message: map<string, Json>, signature: string)
    requires d.Valid() && EncodeSignedAction(d, a, message, signature).Ok?
    ensures var decoded := DecodeCall(d, d.exchange, EncodeSignedAction(d, a, message, signature).value);
      && decoded.Call? && decoded.call.name == FunctionOf(a)
      && ComesBack(ParameterOf(a), StructOf(a), message, signature, decoded.call.args)
  {
    var arguments := EncodeArguments(ParameterOf(a), StructOf(a), message, signature).value;
    StructsArePlain(a);
    ArgumentsComeBack(ParameterOf(a), StructOf(a), message, signature);
    SelectedIsSent(d, a, arguments);
    assert (d.selectors[a] + arguments)[4..] == arguments;
  }

  lemma CanonicalArgumentsEncode(parameter: string, struct: Components, message: map<string, Json>, octets: seq<Byte>)
    requires Canonical(Tuple(struct), JObject(message)) && |octets| == 65
    ensures EncodeArguments(parameter, struct, message, "0x" + Hex(octets)).Ok?
  {
    CanonicalFieldsStand(struct, message);
    HexRoundTrip(octets);
    assert WithoutPrefix("0x" + Hex(octets)) == Hex(octets);
  }

  /** Every canonical message encodes, with any 65-byte signature. */
  lemma CanonicalEncodes(d: Deployment, a: Action, message: map<string, Json>, octets: seq<Byte>)
    requires d.Valid() && Canonical(Tuple(StructOf(a)), JObject(message)) && |octets| == 65
    ensures EncodeSignedAction(d, a, message, "0x" + Hex(octets)).Ok?
  {
    CanonicalArgumentsEncode(ParameterOf(a), StructOf(a), message, octets);
  }
}
