/** A JSON value as the serializer sees it (a JToken), and the field-level
    decoding and encoding rules every record of the sync API shares: a key
    that is missing or holds null is "no value", a present key is decoded by
    the field's own decoder, and a record writes every one of its fields,
    writing null for a field that has no value. */
module Json {
  import opened Wrappers

  /** Numbers are kept as written: integers exactly, anything else as its
      text, never interpreted. */
  datatype Json =
    | JNull
    | JBool(b: bool)
    | JInt(i: int)
    | JFloat(text: string)
    | JString(s: string)
    | JArray(items: seq<Json>)
    | JObject(fields: map<string, Json>)

  type Object = map<string, Json>

  /** Why a value could not be decoded: a required key is missing (or null),
      or a value has the wrong shape for its field. */
  datatype DecodeError = MissingField(key: string) | Mistyped(expected: string)

  type Decoder<T> = Json -> Result<T, DecodeError>

  /** C#'s `int` and `long`. */
  type Int32 = x: int | -0x8000_0000 <= x < 0x8000_0000
  type Int64 = x: int | -0x8000_0000_0000_0000 <= x < 0x8000_0000_0000_0000

  function DecodeString(j: Json): (r: Result<string, DecodeError>)
    ensures r.Success? <==> j.JString?
    ensures r.Success? ==> JString(r.value) == j
  {
    if j.JString? then Success(j.s) else Failure(Mistyped("string"))
  }

  function DecodeBool(j: Json): (r: Result<bool, DecodeError>)
    ensures r.Success? <==> j.JBool?
    ensures r.Success? ==> JBool(r.value) == j
  {
    if j.JBool? then Success(j.b) else Failure(Mistyped("boolean"))
  }

  /** An integer that does not fit in 32 bits is an error, not a wrap-around. */
  function DecodeInt32(j: Json): (r: Result<Int32, DecodeError>)
    ensures r.Success? <==> j.JInt? && -0x8000_0000 <= j.i < 0x8000_0000
    ensures r.Success? ==> JInt(r.value) == j
  {
    if j.JInt? && -0x8000_0000 <= j.i < 0x8000_0000 then Success(j.i) else Failure(Mistyped("int"))
  }

  function DecodeInt64(j: Json): (r: Result<Int64, DecodeError>)
    ensures r.Success? <==> j.JInt? && -0x8000_0000_0000_0000 <= j.i < 0x8000_0000_0000_0000
    ensures r.Success? ==> JInt(r.value) == j
  {
    if j.JInt? && -0x8000_0000_0000_0000 <= j.i < 0x8000_0000_0000_0000 then Success(j.i) else Failure(Mistyped("long"))
  }

  /** A `JObject` field: any JSON object, kept as it is. */
  function DecodeObject(j: Json): (r: Result<Object, DecodeError>)
    ensures r.Success? <==> j.JObject?
    ensures r.Success? ==> JObject(r.value) == j
  {
    if j.JObject? then Success(j.fields) else Failure(Mistyped("object"))
  }

  predicate Present(obj: Object, key: string) {
    key in obj && !obj[key].JNull?
  }

  /** A field the record cannot do without. */
  function Required<T>(obj: Object, key: string, dec: Decoder<T>): (r: Result<T, DecodeError>)
    ensures Present(obj, key) ==> r == dec(obj[key])
    ensures !Present(obj, key) ==> r == Failure(MissingField(key))
  {
    if Present(obj, key) then dec(obj[key]) else Failure(MissingField(key))
  }

  /** A nullable field: a missing key and a null both give None, anything else
      must decode. */
  function Optional<T>(obj: Object, key: string, dec: Decoder<T>): (r: Result<Option<T>, DecodeError>)
    ensures r == Success(None) <==> !Present(obj, key)
    ensures r.Success? && r.value.Some? ==> dec(obj[key]) == Success(r.value.value)
    ensures r.Failure? ==> Present(obj, key) && dec(obj[key]).Failure?
  {
    if !Present(obj, key) then Success(None)
    else match dec(obj[key])
      case Success(v) => Success(Some(v))
      case Failure(e) => Failure(e)
  }

  /** A collection field: every element must decode; the first error wins. */
  function DecodeItems<T>(items: seq<Json>, dec: Decoder<T>): (r: Result<seq<T>, DecodeError>)
    ensures r.Success? ==> |r.value| == |items|
    ensures r.Success? <==> forall i :: 0 <= i < |items| ==> dec(items[i]).Success?
    ensures r.Success? ==> forall i :: 0 <= i < |items| ==> r.value[i] == dec(items[i]).value
  {
    if items == [] then Success([])
    else match dec(items[0])
      case Failure(e) => Failure(e)
      case Success(x) =>
        match DecodeItems(items[1..], dec)
        case Failure(e) => Failure(e)
        case Success(xs) => Success([x] + xs)
  }

  function DecodeArray<T>(j: Json, dec: Decoder<T>): Result<seq<T>, DecodeError> {
    if j.JArray? then DecodeItems(j.items, dec) else Failure(Mistyped("array"))
  }

  /** A dictionary field (room id to room): a JSON object whose every value
      decodes. */
  function DecodeDict<T>(j: Json, dec: Decoder<T>): (r: Result<map<string, T>, DecodeError>)
    ensures r.Success? <==> j.JObject? && forall k :: k in j.fields ==> dec(j.fields[k]).Success?
    ensures r.Success? ==> r.value.Keys == j.fields.Keys
    ensures r.Success? ==> forall k :: k in r.value ==> dec(j.fields[k]) == Success(r.value[k])
  {
    if !j.JObject? then Failure(Mistyped("object"))
    else if forall k :: k in j.fields ==> dec(j.fields[k]).Success? then
      Success(map k | k in j.fields :: dec(j.fields[k]).value)
    else Failure(Mistyped("dictionary of records"))
  }

  function EncodeOption<T>(o: Option<T>, enc: T -> Json): Json {
    match o
    case None => JNull
    case Some(v) => enc(v)
  }

  function EncodeItems<T>(xs: seq<T>, enc: T -> Json): (r: seq<Json>)
    ensures |r| == |xs|
    ensures forall i :: 0 <= i < |xs| ==> r[i] == enc(xs[i])
  {
    if xs == [] then [] else [enc(xs[0])] + EncodeItems(xs[1..], enc)
  }

  function EncodeDict<T>(m: map<string, T>, enc: T -> Json): (r: Json)
    ensures r.JObject? && r.fields.Keys == m.Keys
    ensures forall k :: k in m ==> r.fields[k] == enc(m[k])
  {
    JObject(map k | k in m :: enc(m[k]))
  }

  /** Encoding each element and decoding it again gives it back, so the
      same holds for a whole collection. */
  lemma {:induction false} ItemsRoundTrip<T>(xs: seq<T>, enc: T -> Json, dec: Decoder<T>)
    requires forall i :: 0 <= i < |xs| ==> dec(enc(xs[i])) == Success(xs[i])
    ensures DecodeItems(EncodeItems(xs, enc), dec) == Success(xs)
  {
    if xs != [] {
      assert dec(EncodeItems(xs, enc)[0]) == Success(xs[0]);
      assert EncodeItems(xs, enc)[1..] == EncodeItems(xs[1..], enc);
      ItemsRoundTrip(xs[1..], enc, dec);
      assert [xs[0]] + xs[1..] == xs;
    }
  }

  lemma DictRoundTrip<T>(m: map<string, T>, enc: T -> Json, dec: Decoder<T>)
    requires forall k :: k in m ==> dec(enc(m[k])) == Success(m[k])
    ensures DecodeDict(EncodeDict(m, enc), dec) == Success(m)
  {
    var r := DecodeDict(EncodeDict(m, enc), dec);
    assert r.Success?;
    assert r.value.Keys == m.Keys;
    forall k | k in m ensures r.value[k] == m[k] {
      assert EncodeDict(m, enc).fields[k] == enc(m[k]);
    }
    assert r.value == m;
  }

  lemma OptionRoundTrip<T>(obj: Object, key: string, o: Option<T>, enc: T -> Json, dec: Decoder<T>)
    requires key in obj && obj[key] == EncodeOption(o, enc)
    requires o.Some? ==> dec(enc(o.value)) == Success(o.value) && enc(o.value) != JNull
    ensures Optional(obj, key, dec) == Success(o)
  {
  }
}
