/**
 * JSON values as the registry's Python code sees them after decoding:
 * dictionaries keep their key order, and subscripting, iterating, `len`
 * and `str()` behave as Python's do on the decoded objects.
 */
module Json {

  datatype Option<+T> = None | Some(value: T)

  datatype Result<+T, +E> = Ok(value: T) | Err(error: E)

  /** The Python exceptions the modelled code can raise. */
  datatype PyError = KeyError | TypeError | AttributeError

  /** A decoded JSON document.  Numbers are integers only. */
  datatype Json =
    | JNull
    | JBool(b: bool)
    | JNum(n: int)
    | JStr(s: string)
    | JArr(items: seq<Json>)
    | JObj(fields: seq<(string, Json)>)

  /** The outcome of the Python expression `value[key]` with a string key. */
  datatype Lookup = Found(value: Json) | Missing | NotSubscriptable

  /** The value stored under `key` in the fields of an object (the first one if the key repeats). */
  function Field(fields: seq<(string, Json)>, key: string): (r: Option<Json>)
    ensures r.Some? <==> exists i :: 0 <= i < |fields| && fields[i].0 == key
    ensures r.Some? ==> exists i :: 0 <= i < |fields| && fields[i] == (key, r.value)
  {
    if fields == [] then None
    else if fields[0].0 == key then Some(fields[0].1)
    else
      var r := Field(fields[1..], key);
      assert forall i :: 0 < i < |fields| ==> fields[i] == fields[1..][i - 1];
      r
  }

  /**
   * `j[key]`: a dictionary yields the value or raises KeyError; every other
   * JSON value (list, string, number, boolean, None) raises TypeError.
   */
  function Get(j: Json, key: string): (r: Lookup)
    ensures r.NotSubscriptable? <==> !j.JObj?
  {
    match j
    case JObj(fields) => (match Field(fields, key) case Some(v) => Found(v) case None => Missing)
    case _ => NotSubscriptable
  }

  /** `j[k0][k1]...`: the first subscript that fails decides the outcome. */
  function Dig(j: Json, keys: seq<string>): (r: Lookup)
    ensures keys == [] ==> r == Found(j)
    ensures |keys| == 1 ==> r == Get(j, keys[0])
  {
    if keys == [] then Found(j)
    else match Get(j, keys[0])
      case Found(v) => Dig(v, keys[1..])
      case Missing => Missing
      case NotSubscriptable => NotSubscriptable
  }

  /** The exception Python raises for a failed subscript. */
  function Raised(l: Lookup): PyError
    requires !l.Found?
  {
    if l.Missing? then KeyError else TypeError
  }

  /** The keys of a dictionary, in order, as Python's `d.keys()` lists them. */
  function Keys(fields: seq<(string, Json)>): (r: seq<string>)
  {
    seq(|fields|, i requires 0 <= i < |fields| => fields[i].0)
  }

  /**
   * `for x in j`: a list yields its items, a dictionary its keys and a string
   * its characters; numbers, booleans and None are not iterable (TypeError).
   */
  function Iter(j: Json): (r: Option<seq<Json>>)
    ensures r.None? <==> j.JNull? || j.JBool? || j.JNum?
    ensures j.JArr? ==> r == Some(j.items)
    ensures r.Some? ==> |r.value| == Len(j)
  {
    match j
    case JArr(items) => Some(items)
    case JObj(fields) => Some(seq(|fields|, i requires 0 <= i < |fields| => JStr(fields[i].0)))
    case JStr(s) => Some(seq(|s|, i requires 0 <= i < |s| => JStr([s[i]])))
    case _ => None
  }

  /** `len(j)` for the values it is defined on; zero elsewhere (never used there). */
  function Len(j: Json): nat
  {
    match j
    case JArr(items) => |items|
    case JObj(fields) => |fields|
    case JStr(s) => |s|
    case _ => 0
  }

  /** Hashable values may be dictionary keys; lists and dictionaries may not. */
  predicate Hashable(j: Json)
  {
    !j.JArr? && !j.JObj?
  }

  function DigitChar(d: nat): char
    requires d < 10
  {
    "0123456789"[d]
  }

  /** Decimal digits of a natural number, as `str(n)` writes them. */
  function NatToString(n: nat): (r: string)
    ensures |r| >= 1
    decreases n
  {
    if n < 10 then [DigitChar(n)] else NatToString(n / 10) + [DigitChar(n % 10)]
  }

  function IntToString(n: int): string
  {
    if n < 0 then "-" + NatToString(-n) else NatToString(n)
  }

  /** `str(j)`, as an f-string renders a value: strings appear without quotes. */
  function Str(j: Json): (r: string)
    ensures j.JStr? ==> r == j.s
  {
    match j
    case JStr(s) => s
    case _ => Repr(j)
  }

  /**
   * `repr(j)`: strings in single quotes, containers with their elements'
   * representations separated by ", ".
   */
  function Repr(j: Json): string
    decreases j, 1
  {
    match j
    case JNull => "None"
    case JBool(b) => if b then "True" else "False"
    case JNum(n) => IntToString(n)
    case JStr(s) => "'" + s + "'"
    case JArr(items) => "[" + ReprItems(j, items) + "]"
    case JObj(fields) => "{" + ReprFields(j, fields) + "}"
  }

  function ReprItems(ghost whole: Json, items: seq<Json>): string
    requires forall i :: 0 <= i < |items| ==> items[i] < whole
    decreases whole, 0, |items|
  {
    if items == [] then ""
    else Repr(items[0]) + (if |items| == 1 then "" else ", " + ReprItems(whole, items[1..]))
  }

  function ReprFields(ghost whole: Json, fields: seq<(string, Json)>): string
    requires forall i :: 0 <= i < |fields| ==> fields[i].1 < whole
    decreases whole, 0, |fields|
  {
    if fields == [] then ""
    else
      "'" + fields[0].0 + "': " + Repr(fields[0].1)
        + (if |fields| == 1 then "" else ", " + ReprFields(whole, fields[1..]))
  }

  predicate StartsWith(s: string, prefix: string)
  {
    |prefix| <= |s| && s[..|prefix|] == prefix
  }

  predicate EndsWith(s: string, suffix: string)
  {
    |suffix| <= |s| && s[|s| - |suffix|..] == suffix
  }
}
