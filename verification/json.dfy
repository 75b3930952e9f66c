/** A JSON-like value with the JavaScript notions the modelled code relies on:
    `undefined` next to `null`, truthiness, and property reads that throw on a
    nullish receiver. Numbers are exact reals; object key order is not kept. */
module Json {
  import opened Wrappers

  datatype Value =
    | Undefined
    | Null
    | Bool(b: bool)
    | Num(n: real)
    | Str(s: string)
    | Arr(items: seq<Value>)
    | Obj(fields: map<string, Value>)

  /** `v == null`, i.e. `null` or `undefined`. */
  predicate Nullish(v: Value) {
    v.Undefined? || v.Null?
  }

  /** JavaScript truthiness: everything except `undefined`, `null`, `false`,
      `0` and `""` is truthy (every object and array included). */
  predicate Truthy(v: Value) {
    match v
    case Undefined => false
    case Null => false
    case Bool(b) => b
    case Num(n) => n != 0.0
    case Str(s) => s != ""
    case Arr(_) => true
    case Obj(_) => true
  }

  /** `v[k]` on a receiver known not to be nullish: an object's own field,
      or `undefined` when the key is absent or the receiver is a primitive. */
  function Member(v: Value, k: string): (r: Value)
    ensures v.Obj? && k in v.fields ==> r == v.fields[k]
    ensures !(v.Obj? && k in v.fields) ==> r == Undefined
  {
    if v.Obj? && k in v.fields then v.fields[k] else Undefined
  }

  /** `v[k]`, which throws a TypeError when `v` is nullish. */
  function Get(v: Value, k: string): (r: Result<Value>)
    ensures r.Err? <==> Nullish(v)
    ensures r.Err? ==> r.error == TypeError
    ensures r.Ok? ==> r.value == Member(v, k)
  {
    if Nullish(v) then Err(TypeError) else Ok(Member(v, k))
  }

  /** `v?.[k]`: `undefined` when `v` is nullish instead of throwing. */
  function OptionalGet(v: Value, k: string): (r: Value)
    ensures Nullish(v) ==> r == Undefined
    ensures !Nullish(v) ==> r == Member(v, k)
  {
    if Nullish(v) then Undefined else Member(v, k)
  }

  /** `v[0]`, which throws when `v` is nullish. Arrays and strings yield their
      first element (or `undefined` when empty), objects their field "0". */
  function First(v: Value): (r: Result<Value>)
    ensures r.Err? <==> Nullish(v)
    ensures r.Err? ==> r.error == TypeError
    ensures v.Arr? && |v.items| > 0 ==> r == Ok(v.items[0])
    ensures v.Arr? && |v.items| == 0 ==> r == Ok(Undefined)
  {
    match v
    case Undefined => Err(TypeError)
    case Null => Err(TypeError)
    case Arr(items) => Ok(if |items| > 0 then items[0] else Undefined)
    case Str(s) => Ok(if |s| > 0 then Str([s[0]]) else Undefined)
    case Obj(_) => Ok(Member(v, "0"))
    case _ => Ok(Undefined)
  }

  /** One step of a property path: a named key or the index 0. */
  datatype Step = Key(k: string) | Index0

  /** Reads a path of strict property accesses, throwing at the first nullish
      receiver. The getters of the model are stated against this reference. */
  function ReadPath(v: Value, path: seq<Step>): (r: Result<Value>)
    ensures r.Err? ==> r.error == TypeError
    decreases |path|
  {
    if |path| == 0 then Ok(v)
    else
      var next :- (match path[0]
                   case Key(k) => Get(v, k)
                   case Index0 => First(v));
      ReadPath(next, path[1..])
  }

  /** Reading a path in two parts is reading the whole path. */
  lemma {:induction false} ReadPathAppend(v: Value, p: seq<Step>, q: seq<Step>)
    ensures ReadPath(v, p + q) ==
            (match ReadPath(v, p)
             case Ok(w) => ReadPath(w, q)
             case Err(e) => Err(e))
    decreases |p|
  {
    if |p| == 0 {
      assert p + q == q;
    } else {
      assert (p + q)[0] == p[0];
      assert (p + q)[1..] == p[1..] + q;
      var next := match p[0]
                  case Key(k) => Get(v, k)
                  case Index0 => First(v);
      if next.Ok? {
        ReadPathAppend(next.value, p[1..], q);
      }
    }
  }
}
