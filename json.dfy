/**
 * Parsed JSON values as the skill tool sees them after `require`, together
 * with the few pieces of JavaScript semantics the tool applies to them:
 * truthiness (`!x`), strict equality (`===`), property access (`x.key`) and
 * indexing (`x[0]`).
 */
module JsonValues {
  import opened Wrappers

  /** A JSON document. Numbers are held as the exact value written in the
      document; JavaScript rounds them to IEEE doubles while parsing, which
      this model does not do. */
  datatype Json =
    | JNull
    | JBool(b: bool)
    | JNum(n: real)
    | JStr(s: string)
    | JArr(items: seq<Json>)
    | JObj(fields: map<string, Json>)

  /** JavaScript truthiness of a possibly `undefined` value: `undefined`,
      `null`, `false`, `0` and `""` are falsy; every array and object, even
      an empty one, is truthy. */
  predicate Truthy(v: Option<Json>)
  {
    match v
    case None => false
    case Some(JNull) => false
    case Some(JBool(b)) => b
    case Some(JNum(n)) => n != 0.0
    case Some(JStr(s)) => s != ""
    case Some(JArr(_)) => true
    case Some(JObj(_)) => true
  }

  /** JavaScript `a === b` on values taken from two separately parsed
      documents: primitives compare by value, `undefined === undefined`, and
      two arrays or objects are never the same object. */
  predicate StrictEquals(a: Option<Json>, b: Option<Json>)
  {
    match (a, b)
    case (None, None) => true
    case (Some(JNull), Some(JNull)) => true
    case (Some(JBool(x)), Some(JBool(y))) => x == y
    case (Some(JNum(x)), Some(JNum(y))) => x == y
    case (Some(JStr(x)), Some(JStr(y))) => x == y
    case _ => false
  }

  /** `v.key` for a non-null value: an object's own member, `undefined` for
      every primitive and array (none of the keys the tool reads exists on
      their prototypes). Reading a property of `null` throws; callers model
      that case before asking. */
  function Property(v: Json, key: string): Option<Json>
  {
    match v
    case JObj(fields) => if key in fields then Some(fields[key]) else None
    case _ => None
  }

  /** `v[0]`: the first element of an array, the first character of a
      string, member "0" of an object, `undefined` otherwise. */
  function Element0(v: Json): Option<Json>
  {
    match v
    case JArr(items) => if |items| > 0 then Some(items[0]) else None
    case JStr(s) => if |s| > 0 then Some(JStr([s[0]])) else None
    case JObj(fields) => if "0" in fields then Some(fields["0"]) else None
    case _ => None
  }

  /** Whether converting `v` to a string, as a template literal does, throws
      a `TypeError`. An object with its own `toString` member (never callable
      in parsed JSON) falls back to `valueOf`, which gives the object itself,
      so no primitive is found; an array converts by joining its elements, so
      it throws when one of them does. Primitives always convert. */
  predicate StringConversionThrows(v: Json)
  {
    match v
    case JObj(fields) => "toString" in fields
    case JArr(items) => exists i :: 0 <= i < |items| && StringConversionThrows(items[i])
    case _ => false
  }

  /** A value that is `===` to something is a primitive or `undefined`, and
      so converts to a string without throwing. */
  lemma StrictlyEqualConverts(a: Option<Json>, b: Option<Json>)
    requires StrictEquals(a, b)
    ensures b.Some? ==> !StringConversionThrows(b.value)
  {
  }
}
