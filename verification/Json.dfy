/** JSON values as the driver handles them. A number is an integer, or it has a fraction and a whole
    part. */
module Json {
  import opened Options

  datatype Json =
    | Null
    | Bool(b: bool)
    | Integer(n: int)
    | Fraction(whole: int)
    | Str(s: string)
    | Arr(items: seq<Json>)
    | Obj(members: map<string, Json>)

  function GetString(members: map<string, Json>, key: string): Option<string> {
    if key in members && members[key].Str? then Some(members[key].s) else None
  }

  function GetArray(members: map<string, Json>, key: string): Option<seq<Json>> {
    if key in members && members[key].Arr? then Some(members[key].items) else None
  }

  function With(members: map<string, Json>, key: string, v: Option<Json>): map<string, Json> {
    if v.Some? then members[key := v.value] else members
  }

  function WriteNumber(n: Option<int>): Option<Json> { if n.Some? then Some(Integer(n.value)) else None }

  const MAX_SAFE_INTEGER := 9007199254740991

  /** `unsignedValue`: an integer from 0 to the largest safe one. */
  function UnsignedValue(v: Json): (r: Option<nat>)
    ensures r.Some? ==> r.value <= MAX_SAFE_INTEGER
  {
    if v.Integer? && 0 <= v.n <= MAX_SAFE_INTEGER then Some(v.n) else None
  }

  /** `valueAsNumberInRange`, with the number cut to an integer as its callers do. */
  function NumberInRange(v: Json, low: int, high: int): (r: Option<int>)
    ensures r.Some? ==> low <= r.value <= high
  {
    var n := if v.Integer? then v.n else if v.Fraction? then v.whole else high + 1;
    if low <= n <= high then Some(n) else None
  }
}
