/** The Python value `response.json()` hands back, and the few Python
    operations the front end applies to it: `dict.get`, truthiness, `str()`
    and the type name quoted in an `AttributeError`. */
module Json {
  import opened PyText

  datatype Option<+T> = None | Some(value: T)

  /** A decoded JSON document. An object is a Python dict: its entries in
      insertion order, each key once (the decoder has already merged
      duplicate keys). Numbers are integers only. */
  datatype Json =
    | JNull
    | JBool(b: bool)
    | JInt(n: int)
    | JString(s: string)
    | JArray(items: seq<Json>)
    | JObject(fields: seq<(string, Json)>)

  /** `d.get(key)` on a dict: the value stored under `key`, or None when the
      key is absent. Keys are taken to be unique; if the same key were
      listed twice this returns the first entry, whereas Python's decoder
      keeps the last. */
  function Get(fields: seq<(string, Json)>, key: string): (r: Option<Json>)
    ensures r.None? <==> forall i :: 0 <= i < |fields| ==> fields[i].0 != key
    ensures r.Some? ==> (key, r.value) in fields
  {
    if fields == [] then None
    else if fields[0].0 == key then Some(fields[0].1)
    else Get(fields[1..], key)
  }

  /** `d.get(key, default)`. */
  function GetOr(fields: seq<(string, Json)>, key: string, default: Json): (r: Json)
    ensures (forall i :: 0 <= i < |fields| ==> fields[i].0 != key) ==> r == default
    ensures (exists i :: 0 <= i < |fields| && fields[i].0 == key) ==> (key, r) in fields
  {
    match Get(fields, key)
    case Some(v) => v
    case None => default
  }

  /** Python's `bool(v)`: None, False, 0 and empty strings, lists and dicts
      are false, everything else is true. */
  predicate Truthy(v: Json)
  {
    match v
    case JNull => false
    case JBool(b) => b
    case JInt(n) => n != 0
    case JString(s) => s != []
    case JArray(items) => items != []
    case JObject(fields) => fields != []
  }

  /** `type(v).__name__`. */
  function TypeName(v: Json): string
  {
    match v
    case JNull => "NoneType"
    case JBool(_) => "bool"
    case JInt(_) => "int"
    case JString(_) => "str"
    case JArray(_) => "list"
    case JObject(_) => "dict"
  }

  /** `str(v)`, which is what an f-string inserts: a string as it is, every
      other value as its `repr`. */
  function PyStr(v: Json): (r: string)
    ensures v.JString? ==> r == v.s
    ensures v.JNull? ==> r == "None"
    ensures v.JBool? ==> r == (if v.b then "True" else "False")
    ensures v.JInt? ==> r == IntStr(v.n)
    ensures v.JArray? || v.JObject? ==> |r| >= 2
    ensures v.JArray? ==> r[0] == '[' && r[|r| - 1] == ']'
    ensures v.JObject? ==> r[0] == '{' && r[|r| - 1] == '}'
  {
    if v.JString? then v.s else Repr(v)
  }

  /** `repr(v)`. */
  function Repr(v: Json): (r: string)
    ensures |r| >= 2 || v.JInt?
    ensures v.JArray? ==> r[0] == '[' && r[|r| - 1] == ']'
    ensures v.JObject? ==> r[0] == '{' && r[|r| - 1] == '}'
    decreases v, 1
  {
    match v
    case JNull => "None"
    case JBool(b) => if b then "True" else "False"
    case JInt(n) => IntStr(n)
    case JString(s) => StrRepr(s)
    case JArray(items) => "[" + ReprItems(items) + "]"
    case JObject(fields) => "{" + ReprFields(fields) + "}"
  }

  /** The reprs of a list's items, separated by ", ". */
  function ReprItems(items: seq<Json>): string
    decreases items, 0
  {
    if items == [] then ""
    else if |items| == 1 then Repr(items[0])
    else Repr(items[0]) + ", " + ReprItems(items[1..])
  }

  /** The `key: value` reprs of a dict's entries, separated by ", ". */
  function ReprFields(fields: seq<(string, Json)>): string
    decreases fields, 0
  {
    if fields == [] then ""
    else
      var (key, value) := fields[0];
      assert value < fields[0];
      var entry := StrRepr(key) + ": " + Repr(value);
      if |fields| == 1 then entry else entry + ", " + ReprFields(fields[1..])
  }

  /** `repr(s)` for a string: single quotes, or double quotes when `s` holds
      a single quote and no double quote. */
  function StrRepr(s: string): (r: string)
    ensures |r| >= 2 && r[0] == r[|r| - 1] && (r[0] == '\'' || r[0] == '"')
  {
    var q := if '\'' in s && '"' !in s then '"' else '\'';
    [q] + Escape(s, q) + [q]
  }

  /** The body of a string repr: backslashes, the chosen quote and the
      common control characters escaped. */
  function Escape(s: string, q: char): string
  {
    if s == [] then ""
    else
      var c := s[0];
      var e :=
        if c == '\\' then "\\\\"
        else if c == q then ['\\', q]
        else if c == '\n' then "\\n"
        else if c == '\r' then "\\r"
        else if c == '\t' then "\\t"
        else [c];
      e + Escape(s[1..], q)
  }
}
