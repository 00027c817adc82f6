/** The JSON forms of ABI values: decimal strings, hexadecimal strings, plain numbers. */
module JsonForms {
  import opened Common
  import opened Abi

  // ---------------------------------------------------------------------------------------------
  // Decimal strings
  // ---------------------------------------------------------------------------------------------

  function Digit(d: nat): char
    requires d < 10
  {
    ('0' as int + d) as char
  }

  predicate IsDigit(c: char) { '0' <= c <= '9' }

  function Decimal(n: nat): (s: string)
    ensures |s| > 0
  {
    if n < 10 then [Digit(n)] else Decimal(n / 10) + [Digit(n % 10)]
  }

  predicate AllDigits(s: string) { forall i | 0 <= i < |s| :: IsDigit(s[i]) }

  /** Digits only, the first of them 0 only in "0" itself. */
  predicate IsDecimal(s: string) { |s| > 0 && AllDigits(s) && (s[0] == '0' ==> |s| == 1) }

  function Number(s: string): nat
    requires AllDigits(s)
  {
    if s == "" then 0 else 10 * Number(s[..|s| - 1]) + (s[|s| - 1] as int - '0' as int)
  }

  function ParseDecimal(s: string): Option<nat> { if IsDecimal(s) then Some(Number(s)) else None }

  lemma {:induction false} DecimalRoundTrip(n: nat)
    ensures IsDecimal(Decimal(n)) && Number(Decimal(n)) == n && (Decimal(n)[0] == '0' <==> n == 0)
  {
    if n >= 10 {
      DecimalRoundTrip(n / 10);
      assert Decimal(n)[..|Decimal(n)| - 1] == Decimal(n / 10);
    }
  }

  lemma {:induction false} DecimalIsItsOwnForm(s: string)
    requires IsDecimal(s)
    ensures Decimal(Number(s)) == s && (Number(s) == 0 ==> s[0] == '0')
  {
    var front, last := s[..|s| - 1], s[|s| - 1];
    var d := last as int - '0' as int;
    assert Digit(d) == last;
    if front != "" {
      DecimalIsItsOwnForm(front);
      assert Number(s) == 10 * Number(front) + d && Number(front) > 0;
      assert Number(s) / 10 == Number(front) && Number(s) % 10 == d;
      assert s == front + [last];
    } else {
      assert s == [last] && Number(s) == d;
    }
  }

  // ---------------------------------------------------------------------------------------------
  // Hexadecimal strings
  // ---------------------------------------------------------------------------------------------

  function HexDigit(d: nat): char
    requires d < 16
  {
    if d < 10 then ('0' as int + d) as char else ('a' as int + d - 10) as char
  }

  function HexValue(c: char): Option<nat> {
    if '0' <= c <= '9' then Some(c as int - '0' as int)
    else if 'a' <= c <= 'f' then Some(c as int - 'a' as int + 10)
    else if 'A' <= c <= 'F' then Some(c as int - 'A' as int + 10)
    else None
  }

  predicate IsSpace(c: char) { c == ' ' || 9 <= c as int <= 13 }

  function Hex(b: seq<Byte>): string {
    if b == [] then "" else [HexDigit(b[0] / 16), HexDigit(b[0] % 16)] + Hex(b[1..])
  }

  /** Pairs of digits of either case, white space between pairs skipped. */
  function FromHex(s: string): Option<seq<Byte>> {
    if s == "" then Some([])
    else if IsSpace(s[0]) then FromHex(s[1..])
    else if |s| < 2 || HexValue(s[0]).None? || HexValue(s[1]).None? then None
    else
      var rest := FromHex(s[2..]);
      if rest.None? then None else Some([16 * HexValue(s[0]).value + HexValue(s[1]).value] + rest.value)
  }

  function WithoutPrefix(s: string): string { if |s| >= 2 && s[..2] == "0x" then s[2..] else s }

  predicate IsLowerHex(s: string) { |s| % 2 == 0 && forall i | 0 <= i < |s| :: IsLowerDigit(s[i]) }

  predicate IsLowerDigit(c: char) { '0' <= c <= '9' || 'a' <= c <= 'f' }

  /** White space, a blank or one of the controls 9 to 13, changes nothing before a pair; inside one it is
      refused. */
  lemma SpaceInHex(c: char, s: string)
    ensures c in " \t\n\r" || c as int == 11 || c as int == 12 ==>
      FromHex([c] + s) == FromHex(s)
      && (s != "" && HexValue(s[0]).Some? ==> FromHex([s[0], c] + s[1..]).None?)
  {
    assert ([c] + s)[1..] == s;
    if s != "" {
      assert ([s[0], c] + s[1..])[0] == s[0] && ([s[0], c] + s[1..])[1] == c;
    }
  }

  lemma HexDigitRoundTrip(d: nat)
    requires d < 16
    ensures HexValue(HexDigit(d)) == Some(d) && IsLowerDigit(HexDigit(d)) && !IsSpace(HexDigit(d))
  {
  }

  lemma LowerDigitRoundTrip(c: char)
    requires IsLowerDigit(c)
    ensures HexValue(c).Some? && HexValue(c).value < 16 && HexDigit(HexValue(c).value) == c && !IsSpace(c)
  {
  }

  lemma PairOfDigits(hi: nat, lo: nat)
    requires hi < 16 && lo < 16
    ensures (16 * hi + lo) / 16 == hi && (16 * hi + lo) % 16 == lo
  {
  }

  lemma {:induction false} HexRoundTrip(b: seq<Byte>)
    ensures FromHex(Hex(b)) == Some(b) && IsLowerHex(Hex(b)) && |Hex(b)| == 2 * |b|
  {
    if b != [] {
      var hi, lo, rest := HexDigit(b[0] / 16), HexDigit(b[0] % 16), Hex(b[1..]);
      HexRoundTrip(b[1..]);
      HexDigitRoundTrip(b[0] / 16);
      HexDigitRoundTrip(b[0] % 16);
      HexPair(hi, lo, rest);
      assert b == [b[0]] + b[1..];
    }
  }

  lemma HexPairForm(hi: char, lo: char, rest: string)
    requires IsLowerDigit(hi) && IsLowerDigit(lo) && IsLowerHex(rest)
    ensures IsLowerHex([hi, lo] + rest)
  {
  }

  /** Reading one pair and the rest. */
  lemma HexPairReads(s: string)
    requires |s| >= 2 && !IsSpace(s[0]) && HexValue(s[0]).Some? && HexValue(s[1]).Some? && FromHex(s[2..]).Some?
    ensures FromHex(s) == Some([16 * HexValue(s[0]).value + HexValue(s[1]).value] + FromHex(s[2..]).value)
  {
  }

  lemma HexPair(hi: char, lo: char, rest: string)
    requires IsLowerDigit(hi) && IsLowerDigit(lo) && IsLowerHex(rest) && FromHex(rest).Some?
    ensures IsLowerHex([hi, lo] + rest) && HexValue(hi).Some? && HexValue(lo).Some?
    ensures FromHex([hi, lo] + rest) == Some([16 * HexValue(hi).value + HexValue(lo).value] + FromHex(rest).value)
  {
    HexPairForm(hi, lo, rest);
    LowerDigitRoundTrip(hi);
    LowerDigitRoundTrip(lo);
    var s := [hi, lo] + rest;
    assert s[0] == hi && s[1] == lo && s[2..] == rest;
    HexPairReads(s);
  }

  lemma {:induction false} LowerHexIsItsOwnForm(s: string)
    requires IsLowerHex(s)
    ensures FromHex(s).Some? && Hex(FromHex(s).value) == s
  {
    if s != "" {
      var hi, lo, rest := s[0], s[1], s[2..];
      assert s == [hi, lo] + rest;
      LowerHexIsItsOwnForm(rest);
      LowerDigitRoundTrip(hi);
      LowerDigitRoundTrip(lo);
      HexPair(hi, lo, rest);
      PairOfDigits(HexValue(hi).value, HexValue(lo).value);
      var octets := FromHex(s).value;
      assert octets[1..] == FromHex(rest).value;
      assert Hex(octets) == [hi, lo] + Hex(octets[1..]);
    }
  }

  // ---------------------------------------------------------------------------------------------
  // One value
  // ---------------------------------------------------------------------------------------------

  /** How an address is written: its checksummed form is the canonical one, and a mixed case that is
      not it is refused. The checksum itself is a hash and stays out. */
  datatype Casing = Checksummed | OneCase | BrokenChecksum

  datatype Json =
    | JNumber(n: int)
    | JString(s: string)
    | JAddress(address: nat, casing: Casing)
    | JObject(fields: map<string, Json>)
    | JOther

  function NamesOf(ts: Components): set<string> {
    if ts.NoMore? then {} else {ts.name} + NamesOf(ts.rest)
  }

  predicate DistinctNames(t: Type) { t.Tuple? ==> DistinctAmong(t.components) }

  predicate DistinctAmong(ts: Components) {
    ts.Component? ==> ts.name !in NamesOf(ts.rest) && DistinctNames(ts.kind) && DistinctAmong(ts.rest)
  }

  /** How a value of type `t` is written: a uint256 as a decimal string, bytes in hex. */
  function ToJson(t: Type, v: Value): Json
    requires HasType(t, v)
  {
    match t
    case UInt(bits) => if bits == 256 then JString(Decimal(v.n)) else JNumber(v.n)
    case AddressType => JAddress(v.n, Checksummed)
    case Bytes32 => JString("0x" + Hex(v.octets))
    case Bytes => JString("0x" + Hex(v.octets))
    case Tuple(components) => JObject(ToFields(components, v.values))
  }

  function ToFields(ts: Components, vs: Values): map<string, Json>
    requires HaveTypes(ts, vs)
  {
    if ts.NoMore? then map[] else ToFields(ts.rest, vs.others)[ts.name := ToJson(ts.kind, vs.first)]
  }

  /** A non-negative integer from a decimal string or a number, in range of `uint256`. */
  function Amount(j: Json): Option<nat> {
    if j.JString? then
      var n := ParseDecimal(j.s);
      if n.Some? && n.value <= UINT256_MAX then n else None
    else if j.JNumber? && 0 <= j.n <= UINT256_MAX then Some(j.n)
    else None
  }

  /** The value a JSON form stands for; a form that is not of the type is refused. */
  function FromJson(t: Type, j: Json): Option<Value>
    decreases t, 1
  {
    match t
    case UInt(bits) =>
      var n := Amount(j);
      if n.Some? && bits <= 256 && n.value < Pow2(bits) then Some(Num(n.value)) else None
    case AddressType =>
      if j.JAddress? && j.address < ADDRESS_LIMIT && !j.casing.BrokenChecksum? then Some(Num(j.address)) else None
    case Bytes32 =>
      var octets := if j.JString? then FromHex(WithoutPrefix(j.s)) else None;
      if octets.Some? && |octets.value| == 32 then Some(Octets(octets.value)) else None
    case Bytes =>
      var octets := if j.JString? then FromHex(WithoutPrefix(j.s)) else None;
      if octets.Some? && |octets.value| <= UINT256_MAX then Some(Octets(octets.value)) else None
    case Tuple(components) =>
      var values := if j.JObject? then FromFields(components, j.fields) else None;
      if values.Some? then Some(Struct(values.value)) else None
  }

  function FromFields(ts: Components, fields: map<string, Json>): Option<Values>
    decreases ts, 1
  {
    if ts.NoMore? then Some(NoValues)
    else if ts.name !in fields then None
    else
      var first, others := FromJson(ts.kind, fields[ts.name]), FromFields(ts.rest, fields);
      if first.Some? && others.Some? then Some(And(first.value, others.value)) else None
  }

  /** The one form of each value: narrow integers are numbers, `uint256` a decimal string, bytes
      lower-case hexadecimal, a struct exactly its fields. */
  predicate Canonical(t: Type, j: Json)
    decreases t, 1
  {
    match t
    case UInt(bits) =>
      bits <= 256 &&
      if bits == 256 then j.JString? && IsDecimal(j.s) && Number(j.s) <= UINT256_MAX
      else j.JNumber? && 0 <= j.n < Pow2(bits)
    case AddressType => j.JAddress? && j.address < ADDRESS_LIMIT && j.casing.Checksummed?
    case Bytes32 => j.JString? && |j.s| == 66 && j.s[..2] == "0x" && IsLowerHex(j.s[2..])
    case Bytes => j.JString? && |j.s| >= 2 && (|j.s| - 2) / 2 <= UINT256_MAX && j.s[..2] == "0x" && IsLowerHex(j.s[2..])
    case Tuple(components) =>
      j.JObject? && j.fields.Keys == NamesOf(components) && CanonicalFields(components, j.fields)
  }

  predicate CanonicalFields(ts: Components, fields: map<string, Json>)
    decreases ts, 1
  {
    ts.Component? ==> ts.name in fields && Canonical(ts.kind, fields[ts.name]) && CanonicalFields(ts.rest, fields)
  }

  lemma {:induction false} FromJsonHasType(t: Type, j: Json)
    ensures FromJson(t, j).Some? ==> HasType(t, FromJson(t, j).value)
    decreases t, 1
  {
    if t.Tuple? && j.JObject? {
      FromFieldsHaveTypes(t.components, j.fields);
    }
  }

  lemma {:induction false} FromFieldsHaveTypes(ts: Components, fields: map<string, Json>)
    ensures FromFields(ts, fields).Some? ==> HaveTypes(ts, FromFields(ts, fields).value)
    decreases ts, 1
  {
    if ts.Component? && ts.name in fields {
      FromJsonHasType(ts.kind, fields[ts.name]);
      FromFieldsHaveTypes(ts.rest, fields);
    }
  }

  /** What a form stands for has one form: itself, exactly when it is canonical. */
  lemma {:induction false} FormIsCanonicalIff(t: Type, j: Json)
    requires FromJson(t, j).Some? && DistinctNames(t)
    ensures HasType(t, FromJson(t, j).value)
    ensures ToJson(t, FromJson(t, j).value) == j <==> Canonical(t, j)
    decreases t, 1
  {
    FromJsonHasType(t, j);
    match t
    case UInt(bits) => NumberFormIff(bits, j);
    case AddressType =>
    case Bytes32 => HexFormIff(j.s);
    case Bytes => HexFormIff(j.s);
    case Tuple(components) => FieldsCanonicalIff(components, j.fields);
  }

  lemma NumberFormIff(bits: nat, j: Json)
    requires FromJson(UInt(bits), j).Some?
    ensures ToJson(UInt(bits), FromJson(UInt(bits), j).value) == j <==> Canonical(UInt(bits), j)
  {
    if bits == 256 {
      DecimalRoundTrip(Amount(j).value);
      if j.JString? {
        DecimalIsItsOwnForm(j.s);
      }
    }
  }

  lemma HexFormIff(s: string)
    requires FromHex(WithoutPrefix(s)).Some?
    ensures var b := FromHex(WithoutPrefix(s)).value;
      && ("0x" + Hex(b) == s <==> |s| >= 2 && s[..2] == "0x" && IsLowerHex(s[2..]))
      && ("0x" + Hex(b) == s ==> |s| == 2 + 2 * |b|)
  {
    var b := FromHex(WithoutPrefix(s)).value;
    HexRoundTrip(b);
    if "0x" + Hex(b) == s {
      assert s[..2] == "0x" && s[2..] == Hex(b);
    }
    if |s| >= 2 && s[..2] == "0x" && IsLowerHex(s[2..]) {
      LowerHexIsItsOwnForm(s[2..]);
      assert s == s[..2] + s[2..];
    }
  }

  lemma {:induction false} FieldsCanonicalIff(ts: Components, fields: map<string, Json>)
    requires FromFields(ts, fields).Some? && DistinctAmong(ts)
    ensures HaveTypes(ts, FromFields(ts, fields).value)
    ensures ToFields(ts, FromFields(ts, fields).value).Keys == NamesOf(ts)
    ensures (forall name | name in NamesOf(ts) ::
               name in fields && ToFields(ts, FromFields(ts, fields).value)[name] == fields[name])
            <==> CanonicalFields(ts, fields)
    ensures ToFields(ts, FromFields(ts, fields).value) == fields
       <==> fields.Keys == NamesOf(ts) && CanonicalFields(ts, fields)
    decreases ts, 1
  {
    FromFieldsHaveTypes(ts, fields);
    if ts.Component? {
      FormIsCanonicalIff(ts.kind, fields[ts.name]);
      FieldsCanonicalIff(ts.rest, fields);
    }
  }

  /** Every canonical form stands for a value. */
  lemma {:induction false} CanonicalStands(t: Type, j: Json)
    requires Canonical(t, j)
    ensures FromJson(t, j).Some?
    decreases t, 1
  {
    match t
    case UInt(bits) => FitsAWord(bits); WordLimit();
    case AddressType =>
    case Bytes32 =>
      LowerHexIsItsOwnForm(j.s[2..]);
      HexRoundTrip(FromHex(j.s[2..]).value);
    case Bytes =>
      LowerHexIsItsOwnForm(j.s[2..]);
      HexRoundTrip(FromHex(j.s[2..]).value);
    case Tuple(components) => CanonicalFieldsStand(components, j.fields);
  }

  lemma {:induction false} CanonicalFieldsStand(ts: Components, fields: map<string, Json>)
    requires CanonicalFields(ts, fields)
    ensures FromFields(ts, fields).Some?
    decreases ts, 1
  {
    if ts.Component? {
      CanonicalStands(ts.kind, fields[ts.name]);
      CanonicalFieldsStand(ts.rest, fields);
    }
  }
}
