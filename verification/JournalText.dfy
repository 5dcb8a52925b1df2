/**
 How the journal is written as text: JSON has no bigint, so one is written as an object with
 the single key `$batchBigInt`, and such an object is read back as one.
 */
module JournalText {
  import opened Prelude

  datatype Json =
    | Null
    | Bool(b: bool)
    | Number(n: int)
    | Text(s: string)
    | BigInt(value: int)
    | Array(items: Items)
    | Object(fields: Fields)
  datatype Items = NoItems | Item(head: Json, tail: Items)
  datatype Fields = NoFields | Field(key: string, value: Json, rest: Fields)

  const TAG := "$batchBigInt"

  predicate Tagged(f: Fields) { f.Field? && f.key == TAG && f.rest == NoFields }

  // The replacer; `digits` is String(n).
  function Encode(v: Json, digits: int -> string): Json {
    match v
    case BigInt(n) => Object(Field(TAG, Text(digits(n)), NoFields))
    case Array(items) => Array(EncodeItems(items, digits))
    case Object(fields) => Object(EncodeFields(fields, digits))
    case _ => v
  }

  function EncodeItems(items: Items, digits: int -> string): Items {
    match items
    case NoItems => NoItems
    case Item(head, tail) => Item(Encode(head, digits), EncodeItems(tail, digits))
  }

  function EncodeFields(fields: Fields, digits: int -> string): Fields {
    match fields
    case NoFields => NoFields
    case Field(key, value, rest) => Field(key, Encode(value, digits), EncodeFields(rest, digits))
  }

  // The reviver, children first; `parse` is BigInt(String(v)), which may throw.
  function Decode(v: Json, parse: Json -> Option<int>): Option<Json> {
    match v
    case Array(items) =>
      var items := DecodeItems(items, parse);
      if items.None? then None else Some(Array(items.value))
    case Object(fields) =>
      var fields := DecodeFields(fields, parse);
      if fields.None? then None
      else if Tagged(fields.value) then
        var n := parse(fields.value.value);
        if n.None? then None else Some(BigInt(n.value))
      else Some(Object(fields.value))
    case _ => Some(v)
  }

  function DecodeItems(items: Items, parse: Json -> Option<int>): Option<Items> {
    match items
    case NoItems => Some(NoItems)
    case Item(head, tail) =>
      var head, tail := Decode(head, parse), DecodeItems(tail, parse);
      if head.None? || tail.None? then None else Some(Item(head.value, tail.value))
  }

  function DecodeFields(fields: Fields, parse: Json -> Option<int>): Option<Fields> {
    match fields
    case NoFields => Some(NoFields)
    case Field(key, value, rest) =>
      var value, rest := Decode(value, parse), DecodeFields(rest, parse);
      if value.None? || rest.None? then None else Some(Field(key, value.value, rest.value))
  }

  // No object of the value looks like a written bigint.
  predicate Plain(v: Json) {
    match v
    case Array(items) => PlainItems(items)
    case Object(fields) =>
      !(fields.Field? && fields.key == "$batchBigInt" && fields.rest.NoFields?) && PlainFields(fields)
    case _ => true
  }

  predicate PlainItems(items: Items) { items.NoItems? || (Plain(items.head) && PlainItems(items.tail)) }

  predicate PlainFields(fields: Fields) { fields.NoFields? || (Plain(fields.value) && PlainFields(fields.rest)) }

  ghost predicate Inverse(digits: int -> string, parse: Json -> Option<int>) {
    forall n :: parse(Text(digits(n))) == Some(n)
  }

  // Encoding then decoding keeps the keys.
  lemma {:induction false} KeysKept(fields: Fields, digits: int -> string, parse: Json -> Option<int>)
    ensures var back := DecodeFields(EncodeFields(fields, digits), parse);
            back.Some? ==> (Tagged(back.value) <==> Tagged(fields)) && (back.value.NoFields? <==> fields.NoFields?)
  {
    if fields.Field? {
      KeysKept(fields.rest, digits, parse);
    }
  }

  /** A saved value is read back as it was exactly when it holds no object that looks like a bigint. */
  lemma {:induction false} RoundTrip(v: Json, digits: int -> string, parse: Json -> Option<int>)
    requires Inverse(digits, parse)
    ensures Decode(Encode(v, digits), parse) == Some(v) <==> Plain(v)
  {
    match v
    case BigInt(n) =>
      assert parse(Text(digits(n))) == Some(n);
      assert Decode(Text(digits(n)), parse) == Some(Text(digits(n)));
      assert DecodeFields(NoFields, parse) == Some(NoFields);
    case Array(items) => RoundTripItems(items, digits, parse);
    case Object(fields) =>
      RoundTripFields(fields, digits, parse);
      KeysKept(fields, digits, parse);
    case _ =>
  }

  lemma {:induction false} RoundTripItems(items: Items, digits: int -> string, parse: Json -> Option<int>)
    requires Inverse(digits, parse)
    ensures DecodeItems(EncodeItems(items, digits), parse) == Some(items) <==> PlainItems(items)
  {
    if items.Item? {
      RoundTrip(items.head, digits, parse);
      RoundTripItems(items.tail, digits, parse);
    }
  }

  lemma {:induction false} RoundTripFields(fields: Fields, digits: int -> string, parse: Json -> Option<int>)
    requires Inverse(digits, parse)
    ensures DecodeFields(EncodeFields(fields, digits), parse) == Some(fields) <==> PlainFields(fields)
  {
    if fields.Field? {
      RoundTrip(fields.value, digits, parse);
      RoundTripFields(fields.rest, digits, parse);
    }
  }
}
