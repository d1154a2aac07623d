/** JSON values as Python's `json` module produces and consumes them: `None`, `bool`, `int`,
    `str`, `list` and `dict` (floating-point numbers are not modelled). */
module Json {
  import opened Wrappers

  datatype Json =
    | Null
    | Bool(b: bool)
    | Num(n: int)
    | Str(s: string)
    | Arr(items: seq<Json>)
    | Obj(fields: map<string, Json>)

  /** Python's `d.get(key, default)` on a dict. */
  function Get(fields: map<string, Json>, key: string, default: Json): Json
  {
    if key in fields then fields[key] else default
  }

  /** Python's truth value of a JSON value, as tested by `if value:`. */
  predicate Truthy(j: Json)
  {
    match j
    case Null => false
    case Bool(b) => b
    case Num(n) => n != 0
    case Str(s) => s != ""
    case Arr(xs) => xs != []
    case Obj(m) => m != map[]
  }

  /** A list of strings. */
  function StringsToJson(xs: seq<string>): (j: Json)
    ensures j.Arr? && |j.items| == |xs|
    ensures forall i :: 0 <= i < |xs| ==> j.items[i] == Str(xs[i])
  {
    Arr(StrItems(xs))
  }

  function StrItems(xs: seq<string>): (items: seq<Json>)
    ensures |items| == |xs|
    ensures forall i :: 0 <= i < |xs| ==> items[i] == Str(xs[i])
  {
    if xs == [] then [] else [Str(xs[0])] + StrItems(xs[1..])
  }

  /** The strings of a list whose items are all strings. */
  function StringsFromItems(items: seq<Json>): Option<seq<string>>
    decreases |items|
  {
    if items == [] then Some([])
    else if items[0].Str? then
      match StringsFromItems(items[1..])
      case Some(xs) => Some([items[0].s] + xs)
      case None => None
    else None
  }

  function StringsFromJson(j: Json): Option<seq<string>>
  {
    if j.Arr? then StringsFromItems(j.items) else None
  }

  lemma {:induction false} StringsRoundTrip(xs: seq<string>)
    ensures StringsFromJson(StringsToJson(xs)) == Some(xs)
    decreases |xs|
  {
    if xs != [] {
      StringsRoundTrip(xs[1..]);
      assert StringsToJson(xs).items[1..] == StringsToJson(xs[1..]).items;
      assert [xs[0]] + xs[1..] == xs;
    }
  }
}
