/** How deep a model's answer nests, measured without parsing it. */
module Nesting {
  import opened Common

  // ---------------------------------------------------------------------------------------------
  // JSON text: sections 2, 4, 5 and 7 of RFC 8259
  // ---------------------------------------------------------------------------------------------

  /** One character of a string: itself, a two-character escape or a four-digit one. */
  datatype StringChar = Plain(c: char) | Escape(c: char) | Unicode(digits: string)

  /** A member's name, with the white space either side of its colon. */
  datatype Name = Name(chars: seq<StringChar>, before: string, after: string)

  datatype Value =
    | Scalar(text: string)
    | Text(chars: seq<StringChar>)
    | Array(space: string, items: Items)
    | Object(space: string, items: Items)

  /** The elements of an array or, named, the members of an object. */
  datatype Items = Done | Item(before: string, name: Option<Name>, value: Value, after: string, rest: Items)

  predicate IsSpace(s: string) { forall c | c in s :: c == ' ' || c == '\t' || c == '\n' || c == '\r' }

  predicate IsHex(c: char) { '0' <= c <= '9' || 'a' <= c <= 'f' || 'A' <= c <= 'F' }

  predicate ValidChar(c: StringChar) {
    match c
    case Plain(x) => x != '"' && x != '\\' && ' ' <= x
    case Escape(x) => x in "\"\\/bfnrt"
    case Unicode(digits) => |digits| == 4 && forall d | d in digits :: IsHex(d)
  }

  predicate ValidChars(s: seq<StringChar>) { forall c | c in s :: ValidChar(c) }

  /** A literal name or a number: letters, digits, signs and the point. */
  predicate ValidScalar(text: string) {
    forall c | c in text :: 'a' <= c <= 'z' || 'A' <= c <= 'Z' || '0' <= c <= '9' || c == '+' || c == '-' || c == '.'
  }

  predicate Valid(v: Value) {
    match v
    case Scalar(text) => ValidScalar(text)
    case Text(chars) => ValidChars(chars)
    case Array(space, items) => IsSpace(space) && ValidItems(items, false)
    case Object(space, items) => IsSpace(space) && ValidItems(items, true)
  }

  predicate ValidItems(items: Items, named: bool) {
    items.Item? ==>
      && IsSpace(items.before) && IsSpace(items.after) && Valid(items.value) && ValidItems(items.rest, named)
      && (items.name.Some? <==> named)
      && (named ==> ValidChars(items.name.value.chars)
                    && IsSpace(items.name.value.before) && IsSpace(items.name.value.after))
  }

  function PrintChar(c: StringChar): string {
    match c
    case Plain(x) => [x]
    case Escape(x) => ['\\', x]
    case Unicode(digits) => "\\u" + digits
  }

  function PrintChars(s: seq<StringChar>): string {
    if s == [] then "" else PrintChars(s[..|s| - 1]) + PrintChar(s[|s| - 1])
  }

  function Quoted(s: seq<StringChar>): string { "\"" + PrintChars(s) + "\"" }

  function PrintName(name: Option<Name>): string {
    if name.None? then "" else Quoted(name.value.chars) + name.value.before + ":" + name.value.after
  }

  function Print(v: Value): string {
    match v
    case Scalar(text) => text
    case Text(chars) => Quoted(chars)
    case Array(space, items) => "[" + PrintBody(space, items) + "]"
    case Object(space, items) => "{" + PrintBody(space, items) + "}"
  }

  function PrintBody(space: string, items: Items): string
    decreases items, 2
  {
    if items.Done? then space else PrintItems(items)
  }

  function PrintItems(items: Items): string
    decreases items, 1
  {
    if items.Done? then "" else PrintFirst(items) + if items.rest.Done? then "" else "," + PrintItems(items.rest)
  }

  function PrintFirst(items: Items): string
    requires items.Item?
    decreases items, 0
  {
    items.before + PrintName(items.name) + Print(items.value) + items.after
  }

  function Depth(v: Value): nat {
    match v
    case Scalar(_) => 0
    case Text(_) => 0
    case Array(_, items) => 1 + DepthOfItems(items)
    case Object(_, items) => 1 + DepthOfItems(items)
  }

  function DepthOfItems(items: Items): nat {
    if items.Done? then 0 else Max(Depth(items.value), DepthOfItems(items.rest))
  }

  // ---------------------------------------------------------------------------------------------
  // The scanner
  // ---------------------------------------------------------------------------------------------

  datatype Scanner = Scanner(depth: int, deepest: int, inString: bool, escaped: bool)

  const START: Scanner := Scanner(0, 0, false, false)

  predicate Opens(c: char) { c == '[' || c == '{' }

  predicate Closes(c: char) { c == ']' || c == '}' }

  predicate Quiet(c: char) { c != '"' && !Opens(c) && !Closes(c) }

  function Step(s: Scanner, c: char): Scanner {
    if s.inString then
      if s.escaped then s.(escaped := false)
      else if c == '\\' then s.(escaped := true)
      else if c == '"' then s.(inString := false)
      else s
    else if c == '"' then s.(inString := true)
    else if Opens(c) then s.(depth := s.depth + 1, deepest := Max(s.deepest, s.depth + 1))
    else if Closes(c) then s.(depth := s.depth - 1)
    else s
  }

  function Scan(s: Scanner, text: string): Scanner {
    if text == "" then s else Step(Scan(s, text[..|text| - 1]), text[|text| - 1])
  }

  method Nesting(text: string) returns (deepest: int)
    ensures deepest == Scan(START, text).deepest
  {
    var depth := 0;
    deepest := 0;
    var inString, escaped := false, false;
    for i := 0 to |text|
      invariant Scan(START, text[..i]) == Scanner(depth, deepest, inString, escaped)
    {
      assert text[..i + 1][..i] == text[..i];
      var c := text[i];
      if inString {
        if escaped {
          escaped := false;
        } else if c == '\\' {
          escaped := true;
        } else if c == '"' {
          inString := false;
        }
      } else if c == '"' {
        inString := true;
      } else if c == '[' || c == '{' {
        depth := depth + 1;
        deepest := Max(deepest, depth);
      } else if c == ']' || c == '}' {
        depth := depth - 1;
      }
    }
    assert text[..|text|] == text;
  }

  lemma {:induction false} ScanJoins(s: Scanner, a: string, b: string)
    ensures Scan(s, a + b) == Scan(Scan(s, a), b)
  {
    if b == "" {
      assert a + b == a;
    } else {
      var n := |b| - 1;
      assert (a + b)[..|a + b| - 1] == a + b[..n];
      ScanJoins(s, a, b[..n]);
    }
  }

  predicate Outside(s: Scanner) { !s.inString && !s.escaped && s.depth <= s.deepest }

  /** Text without quotes or brackets changes nothing outside a string. */
  lemma {:induction false} ScanQuiet(s: Scanner, text: string)
    requires Outside(s) && forall c | c in text :: Quiet(c)
    ensures Scan(s, text) == s
  {
    if text != "" {
      assert Quiet(text[|text| - 1]);
      assert forall c | c in text[..|text| - 1] :: c in text;
      ScanQuiet(s, text[..|text| - 1]);
    }
  }

  lemma {:induction false} ScanDigits(s: Scanner, digits: string)
    requires s.inString && !s.escaped && forall d | d in digits :: IsHex(d)
    ensures Scan(s, digits) == s
  {
    if digits != "" {
      assert digits[|digits| - 1] in digits;
      ScanDigits(s, digits[..|digits| - 1]);
    }
  }

  lemma ScanOne(s: Scanner, c: char)
    ensures Scan(s, [c]) == Step(s, c)
  {
    assert Scan(s, [c][..0]) == s;
  }

  /** No character of a string ends it, whatever it prints as. */
  lemma ScanChar(s: Scanner, c: StringChar)
    requires s.inString && !s.escaped && ValidChar(c)
    ensures Scan(s, PrintChar(c)) == s
  {
    match c
    case Plain(x) => ScanOne(s, x);
    case Escape(x) =>
      ScanOne(s, '\\');
      ScanOne(s.(escaped := true), x);
      ScanJoins(s, ['\\'], [x]);
      assert ['\\'] + [x] == ['\\', x];
    case Unicode(digits) =>
      ScanOne(s, '\\');
      ScanOne(s.(escaped := true), 'u');
      ScanJoins(s, ['\\'], ['u']);
      assert ['\\'] + ['u'] == "\\u";
      ScanJoins(s, "\\u", digits);
      ScanDigits(s, digits);
  }

  lemma {:induction false} ScanChars(s: Scanner, chars: seq<StringChar>)
    requires s.inString && !s.escaped && ValidChars(chars)
    ensures Scan(s, PrintChars(chars)) == s
  {
    if chars != [] {
      var before, last := chars[..|chars| - 1], chars[|chars| - 1];
      ScanChars(s, before);
      ScanJoins(s, PrintChars(before), PrintChar(last));
      ScanChar(s, last);
    }
  }

  lemma ScanQuoted(s: Scanner, chars: seq<StringChar>)
    requires Outside(s) && ValidChars(chars)
    ensures Scan(s, Quoted(chars)) == s
  {
    var inside := s.(inString := true);
    ScanOne(s, '"');
    ScanJoins(s, "\"", PrintChars(chars));
    ScanChars(inside, chars);
    ScanJoins(s, "\"" + PrintChars(chars), "\"");
    ScanOne(inside, '"');
  }

  lemma ScanName(s: Scanner, name: Option<Name>)
    requires Outside(s)
    requires name.Some? ==> ValidChars(name.value.chars) && IsSpace(name.value.before) && IsSpace(name.value.after)
    ensures Scan(s, PrintName(name)) == s
  {
    if name.Some? {
      var quoted, between := Quoted(name.value.chars), name.value.before + ":" + name.value.after;
      ScanQuoted(s, name.value.chars);
      ScanQuiet(s, between);
      ScanJoins(s, quoted, between);
      assert PrintName(name) == quoted + between;
    }
  }

  /** Wherever the scanner stands outside a string, a printed value brings it back there, having seen
      exactly the value's depth below. */
  lemma {:induction false} ScanValue(s: Scanner, v: Value)
    requires Outside(s) && Valid(v)
    ensures Scan(s, Print(v)) == s.(deepest := Max(s.deepest, s.depth + Depth(v)))
    decreases v
  {
    match v
    case Scalar(text) => ScanQuiet(s, text);
    case Text(chars) => ScanQuoted(s, chars);
    case Array(space, items) => ScanBody(s, '[', ']', space, items, false);
    case Object(space, items) => ScanBody(s, '{', '}', space, items, true);
  }

  lemma {:induction false} ScanBody(s: Scanner, left: char, right: char, space: string, items: Items, named: bool)
    requires Outside(s) && Opens(left) && Closes(right) && IsSpace(space) && ValidItems(items, named)
    ensures Scan(s, [left] + PrintBody(space, items) + [right])
            == s.(deepest := Max(s.deepest, s.depth + 1 + DepthOfItems(items)))
    decreases items, 2
  {
    var inside := Step(s, left);
    if items.Done? {
      ScanQuiet(inside, space);
    } else {
      ScanItems(inside, items, named);
    }
    ScanBrackets(s, left, right, PrintBody(space, items), DepthOfItems(items));
  }

  lemma ScanBrackets(s: Scanner, left: char, right: char, body: string, depth: nat)
    requires Outside(s) && Opens(left) && Closes(right)
    requires var inside := Step(s, left);
      Scan(inside, body) == inside.(deepest := Max(inside.deepest, inside.depth + depth))
    ensures Scan(s, [left] + body + [right]) == s.(deepest := Max(s.deepest, s.depth + 1 + depth))
  {
    ScanOne(s, left);
    ScanJoins(s, [left], body);
    ScanJoins(s, [left] + body, [right]);
    ScanOne(Scan(s, [left] + body), right);
  }

  lemma ScanAfterComma(s: Scanner, first: string, rest: string)
    requires Outside(Scan(s, first))
    ensures Scan(s, first + ("," + rest)) == Scan(Scan(s, first), rest)
  {
    ScanJoins(s, first, "," + rest);
    ScanJoins(Scan(s, first), ",", rest);
    ScanQuiet(Scan(s, first), ",");
  }

  lemma {:induction false} ScanItems(s: Scanner, items: Items, named: bool)
    requires Outside(s) && ValidItems(items, named)
    ensures Scan(s, PrintItems(items)) == s.(deepest := Max(s.deepest, s.depth + DepthOfItems(items)))
    decreases items, 1
  {
    if items.Item? {
      var after := s.(deepest := Max(s.deepest, s.depth + Depth(items.value)));
      ScanFirst(s, items, named);
      if items.rest.Item? {
        var first, rest := PrintFirst(items), PrintItems(items.rest);
        ScanItems(after, items.rest, named);
        ScanAfterComma(s, first, rest);
        assert PrintItems(items) == first + ("," + rest);
      } else {
        assert PrintItems(items) == PrintFirst(items);
      }
    }
  }

  lemma {:induction false} ScanFirst(s: Scanner, items: Items, named: bool)
    requires Outside(s) && ValidItems(items, named) && items.Item?
    ensures Scan(s, PrintFirst(items)) == s.(deepest := Max(s.deepest, s.depth + Depth(items.value)))
    decreases items, 0
  {
    var name, value := PrintName(items.name), Print(items.value);
    ScanQuiet(s, items.before);
    ScanJoins(s, items.before, name);
    ScanName(s, items.name);
    ScanJoins(s, items.before + name, value);
    ScanValue(s, items.value);
    ScanJoins(s, items.before + name + value, items.after);
    ScanQuiet(Scan(s, value), items.after);
  }

  /** For every JSON text, white space around it included: the one pass finds exactly its depth,
      whatever brackets, quotes and escapes its strings hold. */
  lemma NestingIsDepth(before: string, v: Value, after: string)
    requires IsSpace(before) && IsSpace(after) && Valid(v)
    ensures Scan(START, before + Print(v) + after).deepest == Depth(v)
  {
    ScanQuiet(START, before);
    ScanJoins(START, before, Print(v));
    ScanValue(START, v);
    ScanJoins(START, before + Print(v), after);
    ScanQuiet(Scan(START, before + Print(v)), after);
  }

  /** Text that breaks off or goes on as something else never measures less than what was read: a
      parser that fails part-way was no deeper than the answer is taken to be. */
  lemma {:induction false} PrefixIsNoDeeper(s: Scanner, a: string, b: string)
    ensures Scan(s, a).deepest <= Scan(s, a + b).deepest
  {
    if b == "" {
      assert a + b == a;
    } else {
      assert (a + b)[..|a + b| - 1] == a + b[..|b| - 1];
      PrefixIsNoDeeper(s, a, b[..|b| - 1]);
    }
  }
}
