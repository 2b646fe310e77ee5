/** The values `json.load` produces, and Python's `==` on them. The JSON text format
    itself is not modelled: parsing and serialising are parameters elsewhere. */
module Json {

  /** A parsed JSON document: `None`, `bool`, `int`, `float` (finite), `str`, `list`, `dict`. */
  datatype Json =
    | Null
    | Bool(b: bool)
    | Int(i: int)
    | Float(r: real)
    | Str(s: string)
    | Array(items: seq<Json>)
    | Object(fields: map<string, Json>)

  /** The numeric value Python gives `bool`, `int` and `float` when comparing them
      (`True == 1`, `1.0 == 1`). */
  function NumberOf(j: Json): (n: real)
    requires j.Bool? || j.Int? || j.Float?
  {
    match j
    case Bool(b) => if b then 1.0 else 0.0
    case Int(i) => i as real
    case Float(r) => r
  }

  predicate IsNumber(j: Json) {
    j.Bool? || j.Int? || j.Float?
  }

  /** Python's `a == b` on parsed JSON: numbers compare by value across `bool`, `int`
      and `float`; lists compare element by element, in order; dicts compare by key set
      and value, whatever their insertion order. */
  predicate PyEq(a: Json, b: Json)
    decreases a
  {
    match a
    case Null => b.Null?
    case Bool(_) => IsNumber(b) && NumberOf(a) == NumberOf(b)
    case Int(_) => IsNumber(b) && NumberOf(a) == NumberOf(b)
    case Float(_) => IsNumber(b) && NumberOf(a) == NumberOf(b)
    case Str(s) => b.Str? && b.s == s
    case Array(xs) =>
      b.Array? && |xs| == |b.items| && forall k :: 0 <= k < |xs| ==> PyEq(xs[k], b.items[k])
    case Object(m) =>
      b.Object? && m.Keys == b.fields.Keys && forall k :: k in m ==> PyEq(m[k], b.fields[k])
  }

  /** Every parsed value equals itself (there is no NaN here). */
  lemma {:induction false} PyEqReflexive(a: Json)
    ensures PyEq(a, a)
  {
    match a
    case Array(xs) =>
      forall k | 0 <= k < |xs| ensures PyEq(xs[k], xs[k]) {
        PyEqReflexive(xs[k]);
      }
    case Object(m) =>
      forall k | k in m ensures PyEq(m[k], m[k]) {
        PyEqReflexive(m[k]);
      }
    case _ =>
  }

  /** A string is never equal to a dict: the `""` that stands for an unreadable cache
      differs from every snapshot. */
  lemma StrNeverEqualsObject(s: string, m: map<string, Json>)
    ensures !PyEq(Str(s), Object(m)) && !PyEq(Object(m), Str(s))
  {
  }
}
