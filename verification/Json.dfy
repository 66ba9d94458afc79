/** A small concrete wire form for the values a session-log line carries.

    Every value is self-delimiting: numbers end in ';', texts in '"', lists in
    ']' and objects in '}'.  No code point is written raw, so no encoding
    contains a newline, exactly as the ASCII-only compact form of the log does.
 */
module Json {

  type byte = b: int | 0 <= b < 256

  datatype Option<+T> = None | Some(value: T)

  const NEWLINE: byte := 10
  const QUOTE: byte := 34
  const MINUS: byte := 45
  const ZERO: byte := 48
  const SEMICOLON: byte := 59
  const OPEN_LIST: byte := 91
  const CLOSE_LIST: byte := 93
  const FALSE: byte := 102
  const NULL: byte := 110
  const TRUE: byte := 116
  const OPEN_OBJECT: byte := 123
  const CLOSE_OBJECT: byte := 125

  datatype Value =
    | Null
    | Bool(flag: bool)
    | Num(n: int)
    | Str(text: string)
    | List(items: Values)
    | Dict(fields: Fields)

  datatype Values = NoItems | Item(head: Value, tail: Values)

  datatype Fields = NoFields | Field(key: string, value: Value, rest: Fields)

  /** Object lookup; a repeated key resolves to its last occurrence. */
  function Get(fields: Fields, key: string): Option<Value> {
    match fields
    case NoFields => None
    case Field(k, v, rest) =>
      var later := Get(rest, key);
      if later.Some? then later else if k == key then Some(v) else None
  }

  /** No object, at any depth, repeats a key: what an in-memory object always satisfies. */
  predicate UniqueKeys(v: Value) {
    match v
    case List(items) => ItemsUnique(items)
    case Dict(fields) => FieldsUnique(fields)
    case _ => true
  }

  predicate ItemsUnique(items: Values) {
    match items
    case NoItems => true
    case Item(head, tail) => UniqueKeys(head) && ItemsUnique(tail)
  }

  predicate FieldsUnique(fields: Fields) {
    match fields
    case NoFields => true
    case Field(key, value, rest) => Get(rest, key).None? && UniqueKeys(value) && FieldsUnique(rest)
  }

  /** The fields of an in-memory object. */
  type Object = fields: Fields | FieldsUnique(fields) witness NoFields

  // ---------------------------------------------------------------- encoding

  function Digits(n: nat): seq<byte> {
    if n < 10 then [ZERO + n] else Digits(n / 10) + [ZERO + n % 10]
  }

  function EncodeNat(n: nat): seq<byte> {
    Digits(n) + [SEMICOLON]
  }

  function EncodeChars(text: string): seq<byte> {
    if text == [] then [QUOTE] else EncodeNat(text[0] as int) + EncodeChars(text[1..])
  }

  function Encode(v: Value): seq<byte> {
    match v
    case Null => [NULL]
    case Bool(flag) => [if flag then TRUE else FALSE]
    case Num(n) => if n < 0 then [MINUS] + EncodeNat(-n) else EncodeNat(n)
    case Str(text) => [QUOTE] + EncodeChars(text)
    case List(items) => [OPEN_LIST] + EncodeItems(items)
    case Dict(fields) => [OPEN_OBJECT] + EncodeFields(fields)
  }

  function EncodeItems(items: Values): seq<byte> {
    match items
    case NoItems => [CLOSE_LIST]
    case Item(head, tail) => Encode(head) + EncodeItems(tail)
  }

  function EncodeFields(fields: Fields): seq<byte> {
    match fields
    case NoFields => [CLOSE_OBJECT]
    case Field(key, value, rest) =>
      [QUOTE] + (EncodeChars(key) + (Encode(value) + EncodeFields(rest)))
  }

  // ----------------------------------------------------------------- parsing

  /** The value at the front of the input and what follows it. */
  datatype Parsed<+T> = Bad | Parsed(value: T, rest: seq<byte>)

  predicate IsDigit(b: byte) {
    ZERO <= b < ZERO + 10
  }

  function ParseNat(bs: seq<byte>, acc: nat): (r: Parsed<nat>)
    ensures r.Parsed? ==> |r.rest| < |bs|
    decreases |bs|
  {
    if bs == [] then Bad
    else if bs[0] == SEMICOLON then Parsed(acc, bs[1..])
    else if IsDigit(bs[0]) then ParseNat(bs[1..], acc * 10 + (bs[0] - ZERO))
    else Bad
  }

  predicate IsScalar(code: int) {
    0 <= code < 0xD800 || 0xE000 <= code < 0x11_0000
  }

  function ParseChars(bs: seq<byte>): (r: Parsed<string>)
    ensures r.Parsed? ==> |r.rest| < |bs|
    decreases |bs|
  {
    if bs == [] then Bad
    else if bs[0] == QUOTE then Parsed("", bs[1..])
    else
      match ParseNat(bs, 0)
      case Bad => Bad
      case Parsed(code, rest) =>
        if !IsScalar(code) then Bad
        else
          match ParseChars(rest)
          case Bad => Bad
          case Parsed(tail, rest') => Parsed([code as char] + tail, rest')
  }

  function ParseValue(bs: seq<byte>): (r: Parsed<Value>)
    ensures r.Parsed? ==> |r.rest| < |bs|
    decreases |bs|, 0
  {
    if bs == [] then Bad
    else if bs[0] == NULL then Parsed(Null, bs[1..])
    else if bs[0] == TRUE then Parsed(Bool(true), bs[1..])
    else if bs[0] == FALSE then Parsed(Bool(false), bs[1..])
    else if bs[0] == MINUS then
      match ParseNat(bs[1..], 0) { case Bad => Bad case Parsed(n, rest) => Parsed(Num(0 - n), rest) }
    else if bs[0] == QUOTE then
      match ParseChars(bs[1..]) { case Bad => Bad case Parsed(text, rest) => Parsed(Str(text), rest) }
    else if bs[0] == OPEN_LIST then
      match ParseItems(bs[1..]) { case Bad => Bad case Parsed(items, rest) => Parsed(List(items), rest) }
    else if bs[0] == OPEN_OBJECT then
      match ParseFields(bs[1..]) { case Bad => Bad case Parsed(fields, rest) => Parsed(Dict(fields), rest) }
    else
      match ParseNat(bs, 0) { case Bad => Bad case Parsed(n, rest) => Parsed(Num(n), rest) }
  }

  function ParseItems(bs: seq<byte>): (r: Parsed<Values>)
    ensures r.Parsed? ==> |r.rest| < |bs|
    decreases |bs|, 1
  {
    if bs == [] then Bad
    else if bs[0] == CLOSE_LIST then Parsed(NoItems, bs[1..])
    else
      match ParseValue(bs)
      case Bad => Bad
      case Parsed(head, rest) =>
        match ParseItems(rest) { case Bad => Bad case Parsed(tail, rest') => Parsed(Item(head, tail), rest') }
  }

  function ParseFields(bs: seq<byte>): (r: Parsed<Fields>)
    ensures r.Parsed? ==> |r.rest| < |bs|
    decreases |bs|, 1
  {
    if bs == [] then Bad
    else if bs[0] == CLOSE_OBJECT then Parsed(NoFields, bs[1..])
    else if bs[0] != QUOTE then Bad
    else
      match ParseChars(bs[1..])
      case Bad => Bad
      case Parsed(key, rest) =>
        match ParseValue(rest)
        case Bad => Bad
        case Parsed(value, rest') =>
          match ParseFields(rest')
          case Bad => Bad
          case Parsed(more, rest'') => Parsed(Field(key, value, more), rest'')
  }

  // -------------------------------------------------------------- round trip

  lemma {:induction false} DigitsRoundTrip(n: nat, t: seq<byte>)
    ensures Digits(n) != [] && IsDigit(Digits(n)[0])
    ensures ParseNat(Digits(n) + t, 0) == ParseNat(t, n)
  {
    if n < 10 {
      assert (Digits(n) + t)[1..] == t;
    } else {
      DigitsRoundTrip(n / 10, [ZERO + n % 10] + t);
      assert Digits(n) + t == Digits(n / 10) + ([ZERO + n % 10] + t);
      assert ([ZERO + n % 10] + t)[1..] == t;
    }
  }

  lemma {:induction false} NatRoundTrip(n: nat, t: seq<byte>)
    ensures EncodeNat(n) != [] && IsDigit(EncodeNat(n)[0])
    ensures ParseNat(EncodeNat(n) + t, 0) == Parsed(n, t)
  {
    DigitsRoundTrip(n, [SEMICOLON] + t);
    assert EncodeNat(n) + t == Digits(n) + ([SEMICOLON] + t);
    assert ([SEMICOLON] + t)[1..] == t;
  }

  lemma CharStep(c: char, t: seq<byte>)
    requires ParseChars(t).Parsed?
    ensures ParseChars(EncodeNat(c as int) + t) == Parsed([c] + ParseChars(t).value, ParseChars(t).rest)
  {
    NatRoundTrip(c as int, t);
  }

  lemma {:induction false} CharsRoundTrip(text: string, t: seq<byte>)
    ensures ParseChars(EncodeChars(text) + t) == Parsed(text, t)
    decreases |text|
  {
    hide EncodeNat;
    hide ParseChars;
    if text == [] {
      NoChars(t);
    } else {
      CharsRoundTrip(text[1..], t);
      CharStep(text[0], EncodeChars(text[1..]) + t);
      assert EncodeChars(text) + t == EncodeNat(text[0] as int) + (EncodeChars(text[1..]) + t);
      assert [text[0]] + text[1..] == text;
    }
  }

  lemma NoChars(t: seq<byte>)
    ensures ParseChars([QUOTE] + t) == Parsed("", t)
  {
    assert ([QUOTE] + t)[1..] == t;
  }

  lemma Behind(mark: byte, s: seq<byte>, t: seq<byte>)
    ensures [mark] + s + t == [mark] + (s + t)
    ensures ([mark] + s + t)[0] == mark
    ensures ([mark] + s + t)[1..] == s + t
  {
  }

  /** Parsing undoes encoding and leaves whatever follows untouched. */
  lemma {:induction false} RoundTrip(v: Value, t: seq<byte>)
    ensures Encode(v) != []
    ensures Encode(v)[0] != CLOSE_LIST
    ensures ParseValue(Encode(v) + t) == Parsed(v, t)
    decreases v, 1
  {
    match v
    case Null => Behind(NULL, [], t);
    case Bool(flag) => Behind(if flag then TRUE else FALSE, [], t);
    case Num(n) => NumRoundTrip(n, t);
    case Str(text) =>
      CharsRoundTrip(text, t);
      Behind(QUOTE, EncodeChars(text), t);
    case List(items) => ListRoundTrip(items, t);
    case Dict(fields) => DictRoundTrip(fields, t);
  }

  lemma {:induction false} NumRoundTrip(n: int, t: seq<byte>)
    ensures Encode(Num(n)) != []
    ensures Encode(Num(n))[0] != CLOSE_LIST
    ensures ParseValue(Encode(Num(n)) + t) == Parsed(Num(n), t)
  {
    NatRoundTrip(if n < 0 then -n else n, t);
    if n < 0 {
      Behind(MINUS, EncodeNat(-n), t);
    }
  }

  lemma {:induction false} ListRoundTrip(items: Values, t: seq<byte>)
    ensures ParseValue(Encode(List(items)) + t) == Parsed(List(items), t)
    decreases items, 1
  {
    ItemsRoundTrip(items, t);
    Behind(OPEN_LIST, EncodeItems(items), t);
  }

  lemma {:induction false} DictRoundTrip(fields: Fields, t: seq<byte>)
    ensures ParseValue(Encode(Dict(fields)) + t) == Parsed(Dict(fields), t)
    decreases fields, 1
  {
    FieldsRoundTrip(fields, t);
    Behind(OPEN_OBJECT, EncodeFields(fields), t);
  }

  lemma {:induction false} ItemsRoundTrip(items: Values, t: seq<byte>)
    ensures ParseItems(EncodeItems(items) + t) == Parsed(items, t)
    decreases items, 0
  {
    match items
    case NoItems => assert ([CLOSE_LIST] + t)[1..] == t;
    case Item(head, tail) =>
      RoundTrip(head, EncodeItems(tail) + t);
      ItemsRoundTrip(tail, t);
      assert EncodeItems(items) + t == Encode(head) + (EncodeItems(tail) + t);
  }

  lemma {:induction false} FieldsRoundTrip(fields: Fields, t: seq<byte>)
    ensures ParseFields(EncodeFields(fields) + t) == Parsed(fields, t)
    decreases fields, 0
  {
    match fields
    case NoFields => Behind(CLOSE_OBJECT, [], t);
    case Field(key, value, rest) =>
      var afterValue := EncodeFields(rest) + t;
      var afterKey := Encode(value) + afterValue;
      CharsRoundTrip(key, afterKey);
      RoundTrip(value, afterValue);
      FieldsRoundTrip(rest, t);
      Regroup(EncodeChars(key), Encode(value), EncodeFields(rest), t);
      Behind(QUOTE, EncodeChars(key) + (Encode(value) + EncodeFields(rest)), t);
  }

  lemma Regroup(a: seq<byte>, b: seq<byte>, c: seq<byte>, t: seq<byte>)
    ensures a + (b + c) + t == a + (b + (c + t))
  {
  }

  // --------------------------------------------------------- prefix freedom

  lemma {:induction false} ParseNatExtends(bs: seq<byte>, q: seq<byte>, acc: nat)
    requires ParseNat(bs, acc).Parsed?
    ensures ParseNat(bs + q, acc) == Parsed(ParseNat(bs, acc).value, ParseNat(bs, acc).rest + q)
    decreases |bs|
  {
    assert (bs + q)[1..] == bs[1..] + q;
    if bs[0] != SEMICOLON {
      ParseNatExtends(bs[1..], q, acc * 10 + (bs[0] - ZERO));
    }
  }

  lemma {:induction false} ParseCharsExtends(bs: seq<byte>, q: seq<byte>)
    requires ParseChars(bs).Parsed?
    ensures ParseChars(bs + q) == Parsed(ParseChars(bs).value, ParseChars(bs).rest + q)
    decreases |bs|
  {
    assert (bs + q)[1..] == bs[1..] + q;
    if bs[0] != QUOTE {
      ParseNatExtends(bs, q, 0);
      ParseCharsExtends(ParseNat(bs, 0).rest, q);
    }
  }

  /** A successful parse never looks past what it consumed. */
  lemma {:induction false} ParseValueExtends(bs: seq<byte>, q: seq<byte>)
    requires ParseValue(bs).Parsed?
    ensures ParseValue(bs + q) == Parsed(ParseValue(bs).value, ParseValue(bs).rest + q)
    decreases |bs|, 0
  {
    assert (bs + q)[1..] == bs[1..] + q;
    if bs[0] in {NULL, TRUE, FALSE} {
    } else if bs[0] == MINUS {
      ParseNatExtends(bs[1..], q, 0);
    } else if bs[0] == QUOTE {
      ParseCharsExtends(bs[1..], q);
    } else if bs[0] == OPEN_LIST {
      ParseItemsExtends(bs[1..], q);
    } else if bs[0] == OPEN_OBJECT {
      ParseFieldsExtends(bs[1..], q);
    } else {
      ParseNatExtends(bs, q, 0);
    }
  }

  lemma {:induction false} ParseItemsExtends(bs: seq<byte>, q: seq<byte>)
    requires ParseItems(bs).Parsed?
    ensures ParseItems(bs + q) == Parsed(ParseItems(bs).value, ParseItems(bs).rest + q)
    decreases |bs|, 1
  {
    assert (bs + q)[1..] == bs[1..] + q;
    if bs[0] != CLOSE_LIST {
      ParseValueExtends(bs, q);
      ParseItemsExtends(ParseValue(bs).rest, q);
    }
  }

  lemma {:induction false} ParseFieldsExtends(bs: seq<byte>, q: seq<byte>)
    requires ParseFields(bs).Parsed?
    ensures ParseFields(bs + q) == Parsed(ParseFields(bs).value, ParseFields(bs).rest + q)
    decreases |bs|, 1
  {
    assert (bs + q)[1..] == bs[1..] + q;
    if bs[0] != CLOSE_OBJECT {
      ParseCharsExtends(bs[1..], q);
      var rest := ParseChars(bs[1..]).rest;
      ParseValueExtends(rest, q);
      ParseFieldsExtends(ParseValue(rest).rest, q);
    }
  }

  /** No proper prefix of an encoding is a complete value. */
  lemma {:induction false} NoProperPrefixParses(v: Value, k: nat)
    requires k < |Encode(v)|
    ensures !(ParseValue(Encode(v)[..k]).Parsed? && ParseValue(Encode(v)[..k]).rest == [])
  {
    var p, q := Encode(v)[..k], Encode(v)[k..];
    if ParseValue(p).Parsed? && ParseValue(p).rest == [] {
      assert p + q == Encode(v) + [];
      RoundTrip(v, []);
      ParseValueExtends(p, q);
    }
  }

  // -------------------------------------------------------------- no newline

  lemma {:induction false} DigitsHaveNoNewline(n: nat)
    ensures NEWLINE !in Digits(n)
  {
    if n >= 10 {
      DigitsHaveNoNewline(n / 10);
    }
  }

  lemma {:induction false} CharsHaveNoNewline(text: string)
    ensures NEWLINE !in EncodeChars(text)
    decreases |text|
  {
    if text != [] {
      DigitsHaveNoNewline(text[0] as int);
      CharsHaveNoNewline(text[1..]);
    }
  }

  /** Encodings are single lines. */
  lemma {:induction false} NoNewline(v: Value)
    ensures NEWLINE !in Encode(v)
    decreases v
  {
    match v
    case Null =>
    case Bool(_) =>
    case Num(n) => DigitsHaveNoNewline(if n < 0 then -n else n);
    case Str(text) => CharsHaveNoNewline(text);
    case List(items) => ItemsHaveNoNewline(items);
    case Dict(fields) => FieldsHaveNoNewline(fields);
  }

  lemma {:induction false} ItemsHaveNoNewline(items: Values)
    ensures NEWLINE !in EncodeItems(items)
    decreases items
  {
    match items
    case NoItems =>
    case Item(head, tail) =>
      NoNewline(head);
      ItemsHaveNoNewline(tail);
  }

  lemma {:induction false} FieldsHaveNoNewline(fields: Fields)
    ensures NEWLINE !in EncodeFields(fields)
    ensures EncodeFields(fields) != []
    ensures EncodeFields(fields)[|EncodeFields(fields)| - 1] == CLOSE_OBJECT
    decreases fields
  {
    match fields
    case NoFields =>
    case Field(key, value, rest) =>
      CharsHaveNoNewline(key);
      NoNewline(value);
      FieldsHaveNoNewline(rest);
  }
}
