/**
 * Decoded JSON values as the adapter receives them from the feed API and
 * from the tool runtime, with Python's truthiness and `dict.get` lookups.
 * Floating-point numbers are not represented.
 */
module Json {
  import opened Wrappers

  datatype Value =
    | JNull
    | JBool(b: bool)
    | JInt(i: int)
    | JStr(s: string)
    | JArray(items: seq<Value>)
    | JObject(fields: map<string, Value>)

  /** Python's `bool(v)` for the decoded value. */
  predicate Truthy(v: Value)
  {
    match v
    case JNull => false
    case JBool(b) => b
    case JInt(i) => i != 0
    case JStr(s) => s != ""
    case JArray(xs) => xs != []
    case JObject(m) => m != map[]
  }

  /** Python's `bool(x)` for an optional string. */
  predicate TruthyStr(x: Option<string>)
  {
    x.Some? && x.value != ""
  }

  /** The fields of an object; any other value has none. */
  function FieldsOf(v: Value): map<string, Value>
  {
    if v.JObject? then v.fields else map[]
  }

  /** The string stored under `key`, if the key is present and holds a string. */
  function GetStr(obj: map<string, Value>, key: string): Option<string>
  {
    if key in obj && obj[key].JStr? then Some(obj[key].s) else None
  }

  /** The integer stored under `key`, if the key is present and holds an integer. */
  function GetInt(obj: map<string, Value>, key: string): Option<int>
  {
    if key in obj && obj[key].JInt? then Some(obj[key].i) else None
  }

  /** The boolean stored under `key`, if the key is present and holds a boolean. */
  function GetBool(obj: map<string, Value>, key: string): Option<bool>
  {
    if key in obj && obj[key].JBool? then Some(obj[key].b) else None
  }

  /** The list stored under `key`, if the key is present and holds a list. */
  function GetArray(obj: map<string, Value>, key: string): Option<seq<Value>>
  {
    if key in obj && obj[key].JArray? then Some(obj[key].items) else None
  }

  /** A list of strings as a JSON list. */
  function FromStrings(xs: seq<string>): (r: seq<Value>)
    ensures |r| == |xs|
    ensures forall i :: 0 <= i < |xs| ==> r[i] == JStr(xs[i])
  {
    seq(|xs|, i requires 0 <= i < |xs| => JStr(xs[i]))
  }

  /** A JSON list read as a list of strings; fails if any element is not a string. */
  function ToStrings(vs: seq<Value>): (r: Option<seq<string>>)
    ensures r.Some? <==> forall i :: 0 <= i < |vs| ==> vs[i].JStr?
    ensures r.Some? ==> |r.value| == |vs|
  {
    if vs == [] then Some([])
    else if !vs[0].JStr? then None
    else match ToStrings(vs[1..])
      case None => None
      case Some(rest) => Some([vs[0].s] + rest)
  }

  /** Encoding a list of strings and reading it back gives the same list. */
  lemma {:induction false} ToStringsFromStrings(xs: seq<string>)
    ensures ToStrings(FromStrings(xs)) == Some(xs)
  {
    if xs != [] {
      assert FromStrings(xs)[1..] == FromStrings(xs[1..]);
      ToStringsFromStrings(xs[1..]);
      assert [xs[0]] + xs[1..] == xs;
    }
  }
}
