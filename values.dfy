// The decoded packet tree as the dissector hands it over: every layer is a
// dictionary from field name to value, and a value is a string, a list of
// values, or a nested dictionary (kept as its entries in insertion order).
// Python's truthiness, `dict.get`, hashability and `str()` of these values
// are defined here once for all the engines.

module PyValues {
  import opened Text

  datatype Option<T> = None | Some(value: T)

  /** The outcome of a Python statement that may raise: a value, or an exception. */
  datatype Result<T> = Ok(value: T) | Raised

  datatype Value =
    | Str(s: string)
    | List(items: seq<Value>)
    | Obj(entries: seq<(string, Value)>)

  /** One dissected layer (`layers['tcp']`, `layers['tls']`, ...). */
  type Layer = map<string, Value>

  /** The `layers` dictionary of one packet, keyed by layer name. */
  type Layers = map<string, Layer>

  /** Python's `bool(v)`: empty strings, lists and dictionaries are false. */
  predicate Truthy(v: Value)
  {
    match v
    case Str(s) => s != ""
    case List(items) => items != []
    case Obj(entries) => entries != []
  }

  /** Truthiness of a `dict.get` result, where `None` stands for an absent key. */
  predicate Present(o: Option<Value>)
  {
    o.Some? && Truthy(o.value)
  }

  /** Only strings can be dictionary keys or set members; lists and dicts raise TypeError. */
  predicate Hashable(v: Value)
  {
    v.Str?
  }

  /** `layer.get(key, default)`. */
  function GetOr(layer: Layer, key: string, default: Value): (r: Value)
    ensures key in layer ==> r == layer[key]
    ensures key !in layer ==> r == default
  {
    if key in layer then layer[key] else default
  }

  /** `layers.get(name, {}).get(key)`: `None` when the layer or the field is absent. */
  function Field(layers: Layers, name: string, key: string): (r: Option<Value>)
    ensures r.Some? <==> name in layers && key in layers[name]
    ensures r.Some? ==> r.value == layers[name][key]
  {
    if name in layers && key in layers[name] then Some(layers[name][key]) else None
  }

  /** `key in d` for a nested dictionary. */
  predicate HasKey(entries: seq<(string, Value)>, key: string)
  {
    exists k | 0 <= k < |entries| :: entries[k].0 == key
  }

  /** `d[key]` for a nested dictionary whose key is present: the first entry with that key. */
  function Lookup(entries: seq<(string, Value)>, key: string): (r: Value)
    requires HasKey(entries, key)
    ensures exists k :: 0 <= k < |entries| && entries[k] == (key, r)
  {
    if entries[0].0 == key then entries[0].1
    else
      assert HasKey(entries[1..], key) by {
        var k :| 0 <= k < |entries| && entries[k].0 == key;
        assert entries[1..][k - 1].0 == key;
      }
      Lookup(entries[1..], key)
  }

  /** Python's `key in v`: a substring, a list element, or a dictionary key. */
  predicate Mentions(v: Value, key: string)
  {
    match v
    case Str(s) => Contains(s, key)
    case List(items) => Str(key) in items
    case Obj(entries) => HasKey(entries, key)
  }

  /** `d.get(key, default)` for a nested dictionary. */
  function LookupOr(entries: seq<(string, Value)>, key: string, default: Value): Value
  {
    if HasKey(entries, key) then Lookup(entries, key) else default
  }

  /** `len(v)` for a string, list or dictionary. */
  function Len(v: Value): nat
  {
    match v
    case Str(s) => |s|
    case List(items) => |items|
    case Obj(entries) => |entries|
  }

  /**
   * Python's `str(v)` (quoted = false) and `repr(v)` (quoted = true): lists and
   * dictionaries print their elements with `repr`, separated by ", ".
   */
  function Render(v: Value, quoted: bool): string
    decreases v
  {
    match v
    case Str(s) => if quoted then "'" + s + "'" else s
    case List(items) =>
      "[" + Join(", ", seq(|items|, k requires 0 <= k < |items| => Render(items[k], true))) + "]"
    case Obj(entries) =>
      "{" + Join(", ", seq(|entries|, k requires 0 <= k < |entries| =>
                            "'" + entries[k].0 + "': " + Render(entries[k].1, true))) + "}"
  }

  /** `str(v)`, also what an f-string interpolation `{v}` produces. */
  function PyStr(v: Value): (r: string)
    ensures v.Str? ==> r == v.s
  {
    Render(v, false)
  }

  /** `str(o)` where `o` may be `None`. */
  function OptStr(o: Option<Value>): string
  {
    match o
    case None => "None"
    case Some(v) => PyStr(v)
  }

  /** `int(x)` of a score kept as `h` half-points (x = h / 2): truncation toward zero. */
  function TruncHalf(h: int): (r: int)
    ensures 0 <= h ==> 0 <= h - 2 * r <= 1
    ensures h < 0 ==> 0 <= 2 * r - h <= 1
  {
    if h >= 0 then h / 2 else -((-h) / 2)
  }

  /** `if isinstance(v, list): v = v[0]` — raises IndexError on an empty list. */
  function FirstIfList(v: Value): (r: Result<Value>)
    ensures r.Raised? <==> v == List([])
    ensures r.Ok? && v.List? ==> r.value == v.items[0]
    ensures !v.List? ==> r == Ok(v)
  {
    if v.List? then (if v.items == [] then Raised else Ok(v.items[0])) else Ok(v)
  }
}
