/** Parsed JSON as the Python programs see it: dict.get, isinstance and ==. */
module Json {
  datatype Json =
    | Null
    | Bool(value: bool)
    | Num(number: real)
    | Str(text: string)
    | Arr(items: seq<Json>)
    | Obj(fields: map<string, Json>)

  type Dict = map<string, Json>

  /** dict.get(key): a missing key reads as None. */
  function Get(d: Dict, key: string): Json {
    if key in d then d[key] else Null
  }

  /** `j == n` for an int n: True equals 1 and False equals 0. */
  predicate EqualsInt(j: Json, n: int) {
    match j
    case Num(x) => x == n as real
    case Bool(b) => n == if b then 1 else 0
    case _ => false
  }

  /** `j == [...]` for a list of strings. */
  predicate EqualsStrings(j: Json, xs: seq<string>) {
    j.Arr? && |j.items| == |xs| && forall i :: 0 <= i < |xs| ==> j.items[i] == Str(xs[i])
  }

  function Strings(xs: seq<string>): (j: Json)
    ensures EqualsStrings(j, xs)
  {
    Arr(seq(|xs|, i requires 0 <= i < |xs| => Str(xs[i])))
  }

  /** A list, or nothing when the value is not one. */
  function Items(j: Json): seq<Json> {
    if j.Arr? then j.items else []
  }

  predicate StartsWith(s: string, prefix: string) {
    |prefix| <= |s| && s[..|prefix|] == prefix
  }
}
