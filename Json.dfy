/** JSON values and the two conversions the translation layer calls:
    `JSON.stringify` (total on the values modelled here) and `JSON.parse`
    (which may throw, modelled as `None`). Their internals are not part of
    this model: a codec is a pair of functions handed to every operation that
    needs one, and a round-trip fact is stated where it is needed as a
    `requires` on the codec. */
module Json {
  import opened Wrappers

  datatype Json =
    | JNull
    | JBool(b: bool)
    | JNumber(n: int)
    | JString(s: string)
    | JArray(items: seq<Json>)
    | JObject(members: seq<(string, Json)>)

  /** The `{}` that stands in for absent function-call arguments and responses. */
  const EmptyObject: Json := JObject([])

  /** The JSON values JavaScript treats as false: null, false, 0 and "". */
  predicate IsFalsy(v: Json) {
    v == JNull || v == JBool(false) || v == JNumber(0) || v == JString("")
  }

  /** `value || {}`: an absent or falsy value is replaced by `{}`, any other
      value is kept. */
  function OrEmptyObject(value: Option<Json>): (r: Json)
    ensures !IsFalsy(r)
    ensures value.None? || IsFalsy(value.value) ==> r == EmptyObject
    ensures value.Some? && !IsFalsy(value.value) ==> r == value.value
  {
    if value.None? || IsFalsy(value.value) then EmptyObject else value.value
  }

  datatype JsonCodec = JsonCodec(stringify: Json -> string, parse: string -> Option<Json>)
}
