/** JSON values as the index files hold them, and the few JavaScript
    operations the scripts apply to them: optional-chained property reads,
    truthiness, `??`, `String(v)` and object spread. Objects are maps, so
    the order of keys is not part of the model. */
module JsonValues {
  import opened Wrappers
  import opened Strings

  datatype Json =
    | Null
    | Bool(b: bool)
    | Num(n: int)
    | Str(s: string)
    | Arr(items: seq<Json>)
    | Obj(fields: map<string, Json>)

  /** `v?.key`: the property of an object; anything else has none. */
  function Get(v: Json, key: string): (r: Option<Json>)
    ensures r.Some? <==> v.Obj? && key in v.fields
  {
    if v.Obj? && key in v.fields then Some(v.fields[key]) else None
  }

  /** `o?.[k1]?.[k2]`. */
  function Get2(v: Json, k1: string, k2: string): Option<Json>
  {
    match Get(v, k1)
    case None => None
    case Some(inner) => Get(inner, k2)
  }

  /** JavaScript truthiness, with `None` standing for `undefined`. */
  predicate Truthy(v: Option<Json>)
  {
    match v
    case None => false
    case Some(Null) => false
    case Some(Bool(b)) => b
    case Some(Num(n)) => n != 0
    case Some(Str(s)) => s != ""
    case Some(_) => true
  }

  /** `v ?? d`: `undefined` and `null` give the default. */
  function OrElse(v: Option<Json>, d: Json): (r: Json)
    ensures v.Some? && v.value != Null ==> r == v.value
    ensures (v.None? || v.value == Null) ==> r == d
  {
    if v.Some? && v.value != Null then v.value else d
  }

  /** A non-empty string value (`typeof x === 'string' && x`). */
  predicate NonEmptyStr(v: Option<Json>)
  {
    v.Some? && v.value.Str? && v.value.s != ""
  }

  /** `String(v)`; inside an array `null` prints as nothing. */
  function ToStr(v: Json): string
    decreases v
  {
    match v
    case Null => "null"
    case Bool(b) => if b then "true" else "false"
    case Num(n) => IntToString(n)
    case Str(s) => s
    case Arr(items) => Join(ElemStrs(items), ",")
    case Obj(_) => "[object Object]"
  }

  function ElemStrs(items: seq<Json>): seq<string>
    decreases items
  {
    if |items| == 0 then []
    else [if items[0] == Null then "" else ToStr(items[0])] + ElemStrs(items[1..])
  }

  /** `typeof v === 'object' && v` — arrays are objects too. */
  predicate IsObject(v: Json)
  {
    v.Obj? || v.Arr?
  }

  /** The keys and values `{...v}` copies: an array spreads into its
      indices. */
  function Spread(v: Json): map<string, Json>
  {
    match v
    case Obj(f) => f
    case Arr(items) => Indexed(items)
    case _ => map[]
  }

  function Indexed(items: seq<Json>): map<string, Json>
  {
    if |items| == 0 then map[]
    else Indexed(items[..|items| - 1])[NatToString(|items| - 1) := items[|items| - 1]]
  }

  /** A literal with some properties possibly `undefined` (`None`): once
      written out, an `undefined` property is not there. */
  type Patch = map<string, Option<Json>>

  /** `{...base, ...patch}` as it is written out: the patch wins, and its
      `undefined` properties drop the key. */
  function Apply(base: map<string, Json>, patch: Patch): (r: map<string, Json>)
    ensures forall k :: k in r <==> (k in patch && patch[k].Some?) || (k !in patch && k in base)
    ensures forall k :: k in r ==> r[k] == if k in patch then patch[k].value else base[k]
  {
    map k | k in base.Keys + patch.Keys && (k !in patch || patch[k].Some?)
      :: if k in patch then patch[k].value else base[k]
  }

  /** A literal with no `undefined` properties left. */
  function Written(patch: Patch): map<string, Json>
  {
    Apply(map[], patch)
  }

  /** `Number.isFinite(x)` for the optional sizes a metadata read gives. */
  function OptNum(x: Option<nat>): Option<Json>
  {
    match x
    case None => None
    case Some(n) => Some(Num(n))
  }
}
