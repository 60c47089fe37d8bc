/** What `#[derive(Deserialize)]` does with a JSON object or array, field by
    field, and the primitive conversions serde_json applies to leaf values.
    In an object unknown keys are ignored, a repeated known key is an error,
    a missing plain field is an error and a missing `Option` field is None;
    an array is read by position. */
module Serde {
  import opened Wrappers
  import opened Json
  import Numeric

  type Decoder<T> = Json -> Result<T, string>

  function AsString(j: Json): (r: Result<string, string>)
    ensures r.Ok? <==> j.JString?
    ensures r.Ok? ==> r.value == j.s
  {
    if j.JString? then Ok(j.s) else Err("invalid type: expected a string")
  }

  function AsU32(j: Json): (r: Result<Numeric.u32, string>)
    ensures r.Ok? <==> j.JNumber? && 0 <= j.n < 0x1_0000_0000
    ensures r.Ok? ==> r.value == j.n
  {
    if j.JNumber? && 0 <= j.n < 0x1_0000_0000 then Ok(j.n as Numeric.u32)
    else Err("invalid value: expected u32")
  }

  function AsU64(j: Json): (r: Result<Numeric.u64, string>)
    ensures r.Ok? <==> j.JNumber? && 0 <= j.n < 0x1_0000_0000_0000_0000
    ensures r.Ok? ==> r.value == j.n
  {
    if j.JNumber? && 0 <= j.n < 0x1_0000_0000_0000_0000 then Ok(j.n as Numeric.u64)
    else Err("invalid value: expected u64")
  }

  /** `chrono::serde::ts_seconds_option`'s reading of a present value: whole
      epoch seconds as an i64. */
  function AsEpochSeconds(j: Json): (r: Result<Numeric.i64, string>)
    ensures r.Ok? <==> j.JNumber? && -0x8000_0000_0000_0000 <= j.n < 0x8000_0000_0000_0000
    ensures r.Ok? ==> r.value == j.n
  {
    if j.JNumber? && -0x8000_0000_0000_0000 <= j.n < 0x8000_0000_0000_0000 then Ok(j.n as Numeric.i64)
    else Err("invalid type: expected a unix timestamp")
  }

  /** serde_json hands a derived struct decoder either an object, read by
      key (`visit_map`), or an array, read by position (`visit_seq`), which
      must hold exactly one element per field; anything else is an error. */
  predicate StructForm(j: Json, fields: nat) {
    j.JObject? || (j.JArray? && |j.items| == fields)
  }

  /** What the derived decoder reads for the field with wire name `k`
      declared at index `i`: the value under `k` in an object, the `i`th
      element of an array. In an array the element is always there, so an
      `Option` field read by position is None only when it is `null`. */
  function Slot(j: Json, k: string, i: nat): Field
    requires j.JObject? || (j.JArray? && i < |j.items|)
  {
    if j.JObject? then Lookup(j.members, k) else Present(j.items[i])
  }

  /** The element an array in declaration order holds for an `Option`
      field: its value, or `null` for None. */
  function OrNull(v: Option<Json>): Json {
    if v.Some? then v.value else JNull
  }

  /** A field without `Option`: it must occur exactly once. `f` is what
      `Slot` reads for the field's key `k`. */
  function Required<T>(f: Field, k: string, decode: Decoder<T>): (r: Result<T, string>)
    ensures r.Ok? <==> f.Present? && decode(f.value).Ok?
    ensures r.Ok? ==> r.value == decode(f.value).value
  {
    match f
    case Absent => Err("missing field `" + k + "`")
    case Duplicate => Err("duplicate field `" + k + "`")
    case Present(v) => decode(v)
  }

  /** An `Option` field: missing or `null` is None. */
  function Optional<T>(f: Field, k: string, decode: Decoder<T>): (r: Result<Option<T>, string>)
    ensures f == Absent || f == Present(JNull) ==> r == Ok(None)
    ensures f.Duplicate? ==> r.Err?
    ensures f.Present? && f.value != JNull ==>
      (r.Ok? <==> decode(f.value).Ok?) &&
      (r.Ok? ==> r.value == Some(decode(f.value).value))
  {
    match f
    case Absent => Ok(None)
    case Duplicate => Err("duplicate field `" + k + "`")
    case Present(v) =>
      if v == JNull then Ok(None)
      else
        var x :- decode(v);
        Ok(Some(x))
  }

  /** An `Option` field that also carries `with = "..."`: serde derive then
      treats a missing key as the error `missing field`, not as None; an
      explicit `null` is still None. */
  function OptionalWith<T>(f: Field, k: string, decode: Decoder<T>): (r: Result<Option<T>, string>)
    ensures f == Absent ==> r.Err?
    ensures f != Absent ==> r == Optional(f, k, decode)
  {
    if f == Absent then Err("missing field `" + k + "`")
    else Optional(f, k, decode)
  }

  /** Which reading of a missing key a `ts_seconds_option` field gets:
      `MissingIsError` is the derived code as written, `MissingIsNone` the
      reading the field's `Option` type promises (`#[serde(default)]`). */
  datatype MissingTimestamp = MissingIsError | MissingIsNone

  /** An `Option<DateTime<Utc>>` field read with `ts_seconds_option`. */
  function EpochSecondsOption(f: Field, k: string, missing: MissingTimestamp): (r: Result<Option<Numeric.i64>, string>)
    ensures missing == MissingIsError ==> r == OptionalWith(f, k, AsEpochSeconds)
    ensures missing == MissingIsNone ==> r == Optional(f, k, AsEpochSeconds)
  {
    match missing
    case MissingIsError => OptionalWith(f, k, AsEpochSeconds)
    case MissingIsNone => Optional(f, k, AsEpochSeconds)
  }

  /** The serialised form of an `Option` field under
      `skip_serializing_if = "Option::is_none"`: None writes nothing. */
  function Emit<T>(o: Option<T>, encode: T -> Json): (v: Option<Json>)
    ensures v.None? <==> o.None?
    ensures o.Some? ==> v == Some(encode(o.value))
  {
    match o
    case None => None
    case Some(x) => Some(encode(x))
  }

  function StringToJson(s: string): Json {
    JString(s)
  }

  function U32ToJson(n: Numeric.u32): Json {
    JNumber(n)
  }

  function U64ToJson(n: Numeric.u64): Json {
    JNumber(n)
  }

  /** `ts_seconds_option`'s writing of a present value: its epoch second. */
  function EpochSecondsToJson(n: Numeric.i64): Json {
    JNumber(n)
  }

  /** Each leaf reader inverts its writer: a string, a `u32`, a `u64` and
      an epoch second read back as written. */
  lemma LeafRoundTrips(s: string, a: Numeric.u32, b: Numeric.u64, t: Numeric.i64)
    ensures AsString(StringToJson(s)) == Ok(s)
    ensures AsU32(U32ToJson(a)) == Ok(a)
    ensures AsU64(U64ToJson(b)) == Ok(b)
    ensures AsEpochSeconds(EpochSecondsToJson(t)) == Ok(t)
  {
  }

  /** A plain field reads back what its encoder wrote. */
  lemma RequiredRoundTrip<T>(x: T, k: string, encode: T -> Json, decode: Decoder<T>)
    requires decode(encode(x)) == Ok(x)
    ensures Required(Present(encode(x)), k, decode) == Ok(x)
  {
  }

  /** An `Option` field reads back what `Emit` wrote, when the encoder
      never writes `null` and the decoder inverts it. */
  lemma OptionalRoundTrip<T>(o: Option<T>, k: string, encode: T -> Json, decode: Decoder<T>)
    requires o.Some? ==> encode(o.value) != JNull && decode(encode(o.value)) == Ok(o.value)
    ensures Optional(FieldOf(Emit(o, encode)), k, decode) == Ok(o)
  {
  }

  /** An `Option` field read by position reads back what was written,
      None as `null`. */
  lemma OptionalPositional<T>(o: Option<T>, k: string, encode: T -> Json, decode: Decoder<T>)
    requires o.Some? ==> encode(o.value) != JNull && decode(encode(o.value)) == Ok(o.value)
    ensures Optional(Present(OrNull(Emit(o, encode))), k, decode) == Ok(o)
  {
  }

  /** A `Vec<T>`: a JSON array decoded element by element, the first failure
      ending the decoding. */
  function ArrayOf<T>(j: Json, decode: Decoder<T>): (r: Result<seq<T>, string>)
    ensures r.Ok? ==> j.JArray? && |r.value| == |j.items|
    ensures r.Ok? ==> forall i | 0 <= i < |j.items| :: decode(j.items[i]) == Ok(r.value[i])
  {
    if j.JArray? then Elements(j.items, decode) else Err("invalid type: expected a sequence")
  }

  function Elements<T>(items: seq<Json>, decode: Decoder<T>): (r: Result<seq<T>, string>)
    ensures r.Ok? ==> |r.value| == |items|
    ensures r.Ok? ==> forall i | 0 <= i < |items| :: decode(items[i]) == Ok(r.value[i])
    ensures r.Err? ==> exists i | 0 <= i < |items| :: decode(items[i]).Err?
  {
    if items == [] then Ok([])
    else
      var x :- decode(items[0]);
      var xs :- Elements(items[1..], decode);
      assert forall i | 1 <= i < |items| :: items[i] == items[1..][i - 1];
      Ok([x] + xs)
  }

  /** Encoding a sequence element by element and decoding it back returns the
      sequence, when the element decoder inverts the element encoder. */
  lemma {:induction false} ElementsRoundTrip<T>(xs: seq<T>, encode: T -> Json, decode: Decoder<T>)
    requires forall i | 0 <= i < |xs| :: decode(encode(xs[i])) == Ok(xs[i])
    ensures Elements(seq(|xs|, i requires 0 <= i < |xs| => encode(xs[i])), decode) == Ok(xs)
  {
    if xs != [] {
      var items := seq(|xs|, i requires 0 <= i < |xs| => encode(xs[i]));
      var tail := xs[1..];
      assert items[1..] == seq(|tail|, i requires 0 <= i < |tail| => encode(tail[i]));
      ElementsRoundTrip(tail, encode, decode);
      assert [xs[0]] + tail == xs;
    }
  }

  /** The serialised form of a `Vec<T>`: an array of the encoded elements
      in sequence order. */
  function ArrayToJson<T>(xs: seq<T>, encode: T -> Json): (j: Json)
    ensures j.JArray? && |j.items| == |xs|
    ensures forall i | 0 <= i < |xs| :: j.items[i] == encode(xs[i])
  {
    JArray(seq(|xs|, i requires 0 <= i < |xs| => encode(xs[i])))
  }

  /** An array written element by element reads back element by element. */
  lemma ArrayRoundTrip<T>(xs: seq<T>, encode: T -> Json, decode: Decoder<T>)
    requires forall i | 0 <= i < |xs| :: decode(encode(xs[i])) == Ok(xs[i])
    ensures ArrayOf(ArrayToJson(xs, encode), decode) == Ok(xs)
  {
    ElementsRoundTrip(xs, encode, decode);
  }

  /** `serde_json::from_str::<T>`: the text parser (not modelled, given as
      `parse`) followed by the derived decoder of `T`. */
  function FromText<T>(parse: string -> Result<Json, string>, decode: Decoder<T>): (f: string -> Result<T, string>)
    ensures forall text :: parse(text).Err? ==> f(text).Err?
    ensures forall text :: parse(text).Ok? ==> f(text) == decode(parse(text).value)
  {
    text => match parse(text) case Err(e) => Err(e) case Ok(j) => decode(j)
  }

  /** `()` deserialises from `null` only. */
  function UnitFromJson(j: Json): (r: Result<(), string>)
    ensures r.Ok? <==> j == JNull
  {
    if j == JNull then Ok(()) else Err("invalid type: expected unit")
  }
}
