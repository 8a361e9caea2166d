/** The JavaScript values a client sees after `response.json()`, and the few
    language operations api.js applies to them: truthiness, property reads,
    conversion to a string inside a template literal, and object spread. */
module Json {
  import opened Decimal

  /** A value produced by `JSON.parse`. A number is a real; literals out of
      the double range, which parse to Infinity, are not modelled, and
      neither is rounding to a double. An object keeps the last of duplicate
      keys. */
  datatype Json =
    | JNull
    | JBool(b: bool)
    | JNumber(n: real)
    | JString(s: string)
    | JArray(items: seq<Json>)
    | JObject(fields: map<string, Json>)

  /** The result of a property read: `undefined`, or a JSON value. */
  datatype JsValue = Undefined | Defined(json: Json)

  function Num(i: int): Json {
    JNumber(i as real)
  }

  /** JavaScript's ToBoolean on the values above: everything is truthy
      except the five falsy values a parsed body can produce. */
  function Truthy(v: JsValue): (t: bool)
    ensures t <==> v !in {Undefined, Defined(JNull), Defined(JBool(false)), Defined(JNumber(0.0)), Defined(JString(""))}
  {
    match v
    case Undefined => false
    case Defined(JNull) => false
    case Defined(JBool(b)) => b
    case Defined(JNumber(n)) => n != 0.0
    case Defined(JString(s)) => |s| > 0
    case Defined(JArray(_)) => true
    case Defined(JObject(_)) => true
  }

  /** Whether a string, as a property key, names one of the first `n` indices. */
  predicate IsIndexKey(key: string, n: nat) {
    exists i :: 0 <= i < n && Render(i) == key
  }

  /** `j[key]` on a non-null value: an object's own field, otherwise
      `undefined`. */
  function Member(j: Json, key: string): (v: JsValue)
    ensures v.Defined? <==> j.JObject? && key in j.fields
    ensures v.Defined? ==> v.json == j.fields[key]
  {
    if j.JObject? && key in j.fields then Defined(j.fields[key]) else Undefined
  }

  /** `j?.[key]`: optional chaining yields `undefined` on a nullish value. */
  function OptionalMember(v: JsValue, key: string): (r: JsValue)
    ensures r.Defined? <==> v.Defined? && v.json.JObject? && key in v.json.fields
    ensures r.Defined? ==> r.json == v.json.fields[key]
  {
    match v
    case Undefined => Undefined
    case Defined(JNull) => Undefined
    case Defined(j) => Member(j, key)
  }

  /** Whether ToString throws a TypeError on `j`. An object converts through
      its `toString` method, and a parsed object whose own `toString` field
      holds data shadows the inherited method; `valueOf` then hands back the
      object itself, which is not a primitive. An array converts by joining
      its elements, so it throws when one of its elements does. Primitives
      never throw. */
  function ToStringThrows(j: Json): (throws: bool)
    decreases j
    ensures throws ==> j.JObject? || j.JArray?
    ensures j.JArray? && |j.items| == 0 ==> !throws
    ensures j.JArray? && (exists i :: 0 <= i < |j.items| && j.items[i].JObject? && "toString" in j.items[i].fields) ==> throws
  {
    match j
    case JObject(m) => "toString" in m
    case JArray(items) => exists i :: 0 <= i < |items| && ToStringThrows(items[i])
    case _ => false
  }

  /** The same for a property read result: `undefined` converts to
      "undefined". */
  predicate ToStringThrowsValue(v: JsValue) {
    v.Defined? && ToStringThrows(v.json)
  }

  /** One property per index, keyed by the index's decimal rendering. */
  function IndexedProperties(values: seq<Json>): (props: map<string, Json>)
    ensures forall key :: key in props <==> IsIndexKey(key, |values|)
    ensures forall i :: 0 <= i < |values| ==> Render(i) in props && props[Render(i)] == values[i]
  {
    RenderInjective();
    map i | 0 <= i < |values| :: Render(i) := values[i]
  }

  /** A string's characters, each as a one-character string. Dafny strings
      are sequences of Unicode scalar values, so a character outside the
      Basic Multilingual Plane is one element here where JavaScript has two
      UTF-16 code units. */
  function Characters(s: string): (cs: seq<Json>)
    ensures |cs| == |s|
    ensures forall i :: 0 <= i < |s| ==> cs[i] == JString([s[i]])
  {
    seq(|s|, i requires 0 <= i < |s| => JString([s[i]]))
  }

  /** The own enumerable properties that `{...j}` copies: an object's fields;
      one key per index for an array or a string (one-character strings for
      the latter); nothing for `null`, booleans and numbers. */
  function SpreadProperties(j: Json): (props: map<string, Json>)
    ensures j.JObject? ==> props == j.fields
    ensures j.JArray? ==> forall key :: key in props <==> IsIndexKey(key, |j.items|)
    ensures j.JArray? ==> forall i :: 0 <= i < |j.items| ==> Render(i) in props && props[Render(i)] == j.items[i]
    ensures j.JString? ==> forall key :: key in props <==> IsIndexKey(key, |j.s|)
    ensures j.JString? ==> forall i :: 0 <= i < |j.s| ==> Render(i) in props && props[Render(i)] == JString([j.s[i]])
    ensures j.JNull? || j.JBool? || j.JNumber? ==> props == map[]
  {
    match j
    case JObject(m) => m
    case JArray(items) => IndexedProperties(items)
    case JString(s) => IndexedProperties(Characters(s))
    case _ => map[]
  }
}
