/** JavaScript values as the forms and panels handle them, and the parts of
    the language's semantics the rules rely on: truthiness, the comparison
    `v <= 0`, optional property access, spreading into an array literal,
    property assignment in strict mode, and what a JSON round trip keeps. */
module JsValue {
  import opened Results

  datatype Value =
    | Undefined
    | Null
    | Str(s: string)
    | Num(x: real)
    | NaN
    | Bool(b: bool)
    | Arr(items: seq<Value>)
    | Obj(fields: map<string, Value>)

  /** JavaScript truthiness: `undefined`, `null`, `""`, `0`, `NaN` and
      `false` are falsy, every array and object is truthy. */
  predicate Truthy(v: Value)
  {
    match v
    case Undefined => false
    case Null => false
    case Str(s) => s != ""
    case Num(x) => x != 0.0
    case NaN => false
    case Bool(b) => b
    case Arr(_) => true
    case Obj(_) => true
  }

  /** `v <= 0`. The operand is converted to a number first: `null`, `false`
      and `""` become 0, `true` becomes 1, `undefined`, `NaN` and plain
      objects become NaN, which compares false. Non-empty text and arrays
      are taken as not `<= 0` (their numeric conversion is not modelled). */
  predicate LeqZero(v: Value)
  {
    match v
    case Num(x) => x <= 0.0
    case Bool(b) => !b
    case Null => true
    case Str(s) => s == ""
    case _ => false
  }

  /** A field that the forms reject: `!v || v <= 0`. */
  predicate NotPositive(v: Value)
  {
    !Truthy(v) || LeqZero(v)
  }

  /** For the values number inputs produce (a number or NaN from parseFloat,
      or the blank default), `!v || v <= 0` is "not a positive number". */
  lemma NotPositiveOnNumbers(v: Value)
    requires v.Num? || v == NaN || v == Str("")
    ensures NotPositive(v) <==> !(v.Num? && v.x > 0.0)
  {
  }

  /** Optional property access `v?.k`: only objects have own properties. */
  function Prop(v: Value, k: string): (r: Value)
    ensures r != Undefined ==> v.Obj? && k in v.fields && r == v.fields[k]
    ensures v.Obj? && k in v.fields ==> r == v.fields[k]
  {
    if v.Obj? && k in v.fields then v.fields[k] else Undefined
  }

  /** `[...v]`: an array yields its elements and a string its characters
      (one per code point); any other value is not iterable. */
  function Spread(v: Value): (r: Outcome<seq<Value>>)
    ensures r.Ok? <==> v.Arr? || v.Str?
    ensures v.Arr? ==> r == Ok(v.items)
    ensures v.Str? ==> r.Ok? && |r.value| == |v.s|
  {
    match v
    case Arr(items) => Ok(items)
    case Str(s) => Ok(seq(|s|, i requires 0 <= i < |s| => Str([s[i]])))
    case _ => TypeError
  }

  /** `[...(v || [])]`: a falsy value spreads as the empty array. */
  function SpreadOrEmpty(v: Value): (r: Outcome<seq<Value>>)
    ensures !Truthy(v) ==> r == Ok([])
    ensures v.Arr? ==> r == Ok(v.items)
    ensures r.TypeError? <==> Truthy(v) && !v.Arr? && !v.Str?
  {
    if Truthy(v) then Spread(v) else Ok([])
  }

  /** `v[k] = x` in strict-mode code. Objects get the property; a named
      property on an array is not an element, so the model keeps the array
      as it was; writing to `undefined`, `null` or a primitive throws. */
  function SetProp(v: Value, k: string, x: Value): (r: Outcome<Value>)
    ensures r.Ok? <==> v.Obj? || v.Arr?
    ensures v.Obj? ==> r == Ok(Obj(v.fields[k := x])) && Prop(r.value, k) == x
  {
    match v
    case Obj(f) => Ok(Obj(f[k := x]))
    case Arr(_) => Ok(v)
    case _ => TypeError
  }

  /** What `JSON.parse(JSON.stringify(v))` gives back: `NaN` and array holes
      (`undefined`) become `null`, and object properties holding `undefined`
      are dropped. */
  function Normalize(v: Value): Value
  {
    match v
    case Undefined => Null
    case NaN => Null
    case Arr(items) => Arr(seq(|items|, i requires 0 <= i < |items| => Normalize(items[i])))
    case Obj(f) => Obj(map k | k in f && f[k] != Undefined :: Normalize(f[k]))
    case _ => v
  }

  /** The JSON form of an object's properties. */
  function NormalizeFields(f: map<string, Value>): (g: map<string, Value>)
    ensures g.Keys == set k | k in f && f[k] != Undefined
    ensures forall k :: k in g ==> g[k] == Normalize(f[k])
  {
    Normalize(Obj(f)).fields
  }

  /** The JSON form of a property that was read with `Prop`: an absent or
      `undefined` property stays absent. */
  function NormalizeProp(v: Value): Value
  {
    if v == Undefined then Undefined else Normalize(v)
  }

  /** A JSON round trip keeps truthiness. */
  lemma NormalizeKeepsTruthy(v: Value)
    ensures Truthy(Normalize(v)) == Truthy(v)
    ensures Truthy(NormalizeProp(v)) == Truthy(v)
  {
  }

  /** A JSON round trip keeps the outcome of `!v || v <= 0`. */
  lemma NormalizeKeepsNotPositive(v: Value)
    ensures NotPositive(Normalize(v)) == NotPositive(v)
    ensures NotPositive(NormalizeProp(v)) == NotPositive(v)
  {
  }

  /** Reading a property of the JSON form is the JSON form of the property. */
  lemma PropOfNormalize(v: Value, k: string)
    ensures Prop(Normalize(v), k) == NormalizeProp(Prop(v, k))
  {
  }

  /** Serialising what was parsed changes nothing: a second JSON round trip
      is the identity. */
  lemma {:induction false} NormalizeIdempotent(v: Value)
    ensures Normalize(Normalize(v)) == Normalize(v)
    decreases v
  {
    match v
    case Arr(items) =>
      var once := Normalize(v).items;
      var twice := Normalize(Normalize(v)).items;
      assert |twice| == |once| == |items|;
      forall i | 0 <= i < |items|
        ensures twice[i] == once[i]
      {
        NormalizeIdempotent(items[i]);
      }
      assert twice == once;
    case Obj(f) =>
      var once := Normalize(v).fields;
      var twice := Normalize(Normalize(v)).fields;
      forall k | k in once
        ensures once[k] != Undefined
      {
        NormalizeNeverUndefined(f[k]);
      }
      assert twice.Keys == once.Keys;
      forall k | k in once
        ensures twice[k] == once[k]
      {
        NormalizeIdempotent(f[k]);
      }
      assert twice == once;
    case _ =>
  }

  lemma NormalizeNeverUndefined(v: Value)
    ensures Normalize(v) != Undefined
  {
  }
}
