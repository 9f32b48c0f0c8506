/**
 * The values `json.loads` produces, and the two Python operations the core
 * applies to them: the membership test `k in v` and the lookup `v[k]`.
 * Decoding and encoding themselves are oracles (see `Codec`).
 */
module JsonValues {
  import opened Wrappers
  import Text

  /**
   * A decoded JSON document, as the Python value `json.loads` builds. A float
   * is known by Python's `repr` of it (the shortest text that reads back as
   * the same double), so `1.50` and `1.5` decode to the same value.
   */
  datatype Json =
    | JNull
    | JBool(b: bool)
    | JInt(i: int)
    | JFloat(repr: string)
    | JStr(s: string)
    | JArr(items: seq<Json>)
    | JObj(fields: map<string, Json>)

  /**
   * `json.loads` (None when it raises a decode error) and `json.dumps`.
   * Both are foreign calls and are given, not defined.
   */
  datatype Codec = Codec(loads: string -> Option<Json>, dumps: Json -> string)

  /**
   * Dumping `j` gives a non-empty text that loads back as `j`. Python's codec
   * does this for every value its own `loads` produces.
   */
  predicate RoundTripsOn(c: Codec, j: Json)
  {
    c.dumps(j) != "" && c.loads(c.dumps(j)) == Some(j)
  }

  /** Python's `type(v).__name__` for the values that are not containers. */
  function TypeName(v: Json): string
  {
    match v
    case JNull => "NoneType"
    case JBool(_) => "bool"
    case JInt(_) => "int"
    case JFloat(_) => "float"
    case JStr(_) => "str"
    case JArr(_) => "list"
    case JObj(_) => "dict"
  }

  /** The values `k in v` can be asked of without a TypeError. */
  predicate Iterable(v: Json)
  {
    v.JStr? || v.JArr? || v.JObj?
  }

  /**
   * Python's `k in v` for a string `k`: a key of a dict, an element of a list,
   * a substring of a string; any other value raises TypeError.
   */
  function In(k: string, v: Json): (r: Result<bool, string>)
    ensures r.Failure? <==> !Iterable(v)
    ensures r.Failure? ==> r.error == "argument of type '" + TypeName(v) + "' is not iterable"
    ensures v.JObj? ==> r == Success(k in v.fields)
    ensures v.JArr? ==> r == Success(exists i :: 0 <= i < |v.items| && v.items[i] == JStr(k))
    ensures v.JStr? ==> r == Success(exists i :: Text.OccursAt(v.s, k, i))
  {
    match v
    case JObj(fields) => Success(k in fields)
    case JArr(items) => Success(JStr(k) in items)
    case JStr(s) =>
      Text.ContainsIff(s, k);
      Success(Text.Contains(s, k))
    case _ => Failure("argument of type '" + TypeName(v) + "' is not iterable")
  }

  /** Python's `v[k]` for a string key: present only for a dict that has the key; anything else raises. */
  function Field(v: Json, k: string): (r: Option<Json>)
    ensures r.Some? <==> v.JObj? && k in v.fields
    ensures r.Some? ==> r.value == v.fields[k]
  {
    if v.JObj? && k in v.fields then Some(v.fields[k]) else None
  }

  /** A list of strings as a JSON array. */
  function StrArray(xs: seq<string>): (r: Json)
    ensures r.JArr? && |r.items| == |xs|
    ensures forall i :: 0 <= i < |xs| ==> r.items[i] == JStr(xs[i])
  {
    if |xs| == 0 then JArr([]) else JArr([JStr(xs[0])] + StrArray(xs[1..]).items)
  }

  /**
   * `v[k]` finds a value exactly when `v` is a dict and `k in v` holds. A list
   * or a string can pass the membership test and still make the lookup raise.
   */
  lemma FieldAfterKeyCheck(v: Json, k: string)
    ensures Field(v, k).Some? <==> v.JObj? && In(k, v) == Success(true)
    ensures v.JArr? && JStr(k) in v.items ==> In(k, v) == Success(true) && Field(v, k).None?
  {
  }
}
