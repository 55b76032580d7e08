/** The value `json.loads` hands back to the application, and the few Python
    operations the presenter applies to it: `dict.get` with a default,
    `d[key]`, truthiness in an `if`, iteration in a `for`, and `str()` as
    used by an f-string. */
module JsonValue {
  import opened Wrappers

  /** A decoded JSON document. An object keeps its members in insertion
      order, as a Python dict does; `json.loads` never produces two members
      with the same key, and lookups take the first. */
  datatype Json =
    | Null
    | Bool(b: bool)
    | Int(i: int)
    | Str(s: string)
    | Arr(items: seq<Json>)
    | Obj(fields: seq<(string, Json)>)

  /** The value bound to `key`, if any. */
  function Lookup(fields: seq<(string, Json)>, key: string): (r: Option<Json>)
    ensures r.Some? <==> exists i :: 0 <= i < |fields| && fields[i].0 == key
    ensures r.Some? ==> (key, r.value) in fields
  {
    if fields == [] then None
    else if fields[0].0 == key then Some(fields[0].1)
    else Lookup(fields[1..], key)
  }

  /** The object has a member named `key`. */
  predicate HasKey(obj: Json, key: string)
  {
    obj.Obj? && Lookup(obj.fields, key).Some?
  }

  /** The object has every key in `keys`, so `obj[k]` raises no KeyError. */
  predicate HasKeys(obj: Json, keys: seq<string>)
  {
    obj.Obj? && forall c :: 0 <= c < |keys| ==> HasKey(obj, keys[c])
  }

  /** Python's `obj.get(key, default)` on a dict. */
  function Get(obj: Json, key: string, default: Json): (r: Json)
    requires obj.Obj?
    ensures HasKey(obj, key) ==> (key, r) in obj.fields
    ensures !HasKey(obj, key) ==> r == default
  {
    match Lookup(obj.fields, key)
    case Some(v) => v
    case None => default
  }

  /** Python's `obj[key]` on a dict that has the key. */
  function Subscript(obj: Json, key: string): (r: Json)
    requires HasKey(obj, key)
    ensures (key, r) in obj.fields
  {
    Lookup(obj.fields, key).value
  }

  /** Python truthiness: `None`, `False`, `0`, `""`, `[]` and `{}` are false. */
  predicate Truthy(j: Json)
    ensures Truthy(j) <==> j !in {Null, Bool(false), Int(0), Str(""), Arr([]), Obj([])}
  {
    match j
    case Null => false
    case Bool(b) => b
    case Int(i) => i != 0
    case Str(s) => s != ""
    case Arr(items) => items != []
    case Obj(fields) => fields != []
  }

  /** What a Python `for` loop visits: the items of a list, the characters
      of a string, the keys of a dict; `None`, booleans and numbers are not
      iterable (the loop raises TypeError). */
  function Iterate(j: Json): (r: Option<seq<Json>>)
    ensures r.Some? <==> (j.Arr? || j.Str? || j.Obj?)
    ensures j.Arr? ==> r == Some(j.items)
    ensures j.Str? ==> |r.value| == |j.s| && forall i :: 0 <= i < |j.s| ==> r.value[i] == Str([j.s[i]])
    ensures j.Obj? ==> |r.value| == |j.fields| && forall i :: 0 <= i < |j.fields| ==> r.value[i] == Str(j.fields[i].0)
  {
    match j
    case Arr(items) => Some(items)
    case Str(s) => Some(seq(|s|, i requires 0 <= i < |s| => Str([s[i]])))
    case Obj(fields) => Some(seq(|fields|, i requires 0 <= i < |fields| => Str(fields[i].0)))
    case _ => None
  }

  /** The character for a decimal digit. */
  function Digit(d: nat): (c: char)
    requires d < 10
    ensures '0' <= c <= '9'
  {
    "0123456789"[d]
  }

  /** Decimal numeral of a natural number, without leading zeros. */
  function NatToDecimal(n: nat): (r: string)
    ensures |r| >= 1 && forall k :: 0 <= k < |r| ==> '0' <= r[k] <= '9'
    ensures n > 0 ==> r[0] != '0'
    decreases n
  {
    if n < 10 then [Digit(n)] else NatToDecimal(n / 10) + [Digit(n % 10)]
  }

  /** Python's `str()` of an int. */
  function IntToDecimal(i: int): (r: string)
  {
    if i < 0 then "-" + NatToDecimal(-i) else NatToDecimal(i)
  }

  /** Strings joined with a separator between consecutive ones. */
  function Join(sep: string, parts: seq<string>): (r: string)
  {
    if |parts| == 0 then ""
    else if |parts| == 1 then parts[0]
    else parts[0] + sep + Join(sep, parts[1..])
  }

  /** Python's `str()` of a decoded value, as an f-string inserts it. */
  function Show(j: Json): (r: string)
    ensures j.Str? ==> r == j.s
    ensures j.Null? ==> r == "None"
    ensures j.Int? ==> |r| >= 1 && (j.i < 0 <==> r[0] == '-')
    ensures j.Arr? ==> |r| >= 2 && r[0] == '[' && r[|r| - 1] == ']'
    ensures j.Obj? ==> |r| >= 2 && r[0] == '{' && r[|r| - 1] == '}'
    decreases j, 0
  {
    match j
    case Null => "None"
    case Bool(b) => if b then "True" else "False"
    case Int(i) => IntToDecimal(i)
    case Str(s) => s
    case Arr(items) =>
      "[" + Join(", ", seq(|items|, k requires 0 <= k < |items| => Repr(items[k]))) + "]"
    case Obj(fields) =>
      "{" + Join(", ", seq(|fields|, k requires 0 <= k < |fields| =>
                             Quote(fields[k].0) + ": " + Repr(fields[k].1))) + "}"
  }

  /** Python's `repr()` of a value nested inside a list or dict: strings
      are quoted, everything else reads as `str()`. */
  function Repr(j: Json): (r: string)
    decreases j, 1
  {
    if j.Str? then Quote(j.s) else Show(j)
  }

  /** A string as `repr()` writes it inside a container (single quotes; no
      escapes are modelled). */
  function Quote(s: string): (r: string)
  {
    "'" + s + "'"
  }
}
