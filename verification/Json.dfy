// JSON values as the monitor sees them after parsing, and the lookups it performs.
module Json {
  import opened Wrappers

  datatype Json =
    | Null
    | Bool(truth: bool)
    | Integer(number: int)  // a number the parser kept as an integer
    | Fraction              // any other number
    | Str(text: string)
    | Array(items: seq<Json>)
    | Object(fields: map<string, Json>)

  function Get(v: Json, key: string): Option<Json> {
    if v.Object? && key in v.fields then Some(v.fields[key]) else None
  }

  function Get2(v: Json, first: string, second: string): Option<Json> {
    var inner := Get(v, first);
    if inner.Some? then Get(inner.value, second) else None
  }

  function Get3(v: Json, first: string, second: string, third: string): Option<Json> {
    var inner := Get2(v, first, second);
    if inner.Some? then Get(inner.value, third) else None
  }

  predicate Has(v: Json, key: string) {
    Get(v, key).Some?
  }

  function AsText(v: Option<Json>): Option<string> {
    if v.Some? && v.value.Str? then Some(v.value.text) else None
  }

  function AsI64(v: Option<Json>): Option<int> {
    if v.Some? && v.value.Integer? && -0x8000_0000_0000_0000 <= v.value.number < 0x8000_0000_0000_0000
    then Some(v.value.number)
    else None
  }

  function OrNull(v: Option<Json>): Json {
    if v.Some? then v.value else Null
  }
}
