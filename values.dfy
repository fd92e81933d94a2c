/** Values exchanged with the outside world: JSON bodies, optional fields and
    JavaScript's notion of a "truthy" value, which the bridge uses in every guard. */
module Values {

  datatype Option<+T> = None | Some(value: T)

  datatype Result<+T> = Ok(value: T) | Err(error: string)

  /** A JSON value. `JNull` stands for both `null` and `undefined`, which
      behave alike under a falsiness test. Where the code treats them
      differently (a default parameter or a destructuring default applies to
      `undefined` only), absence is an `Option` instead. */
  datatype Json =
    | JNull
    | JBool(b: bool)
    | JNum(n: real)
    | JStr(s: string)
    | JObj(fields: map<string, Json>)

  /** The empty object `{}`. */
  const EmptyObject: Json := JObj(map[])

  /** JavaScript falsiness: null/undefined, false, 0, "" (NaN is not modelled). */
  predicate Falsy(j: Json) {
    match j
    case JNull => true
    case JBool(b) => !b
    case JNum(n) => n == 0.0
    case JStr(s) => s == ""
    case JObj(_) => false
  }

  /** A string that may be absent is truthy when present and non-empty. */
  predicate TruthyString(s: Option<string>) {
    s.Some? && s.value != ""
  }

  /** Property access `j.name`: a missing property, or any property of a
      non-object, reads as undefined. */
  function Field(j: Json, name: string): Json {
    if j.JObj? && name in j.fields then j.fields[name] else JNull
  }

  function Max(a: int, b: int): int { if a < b then b else a }

  function Min(a: int, b: int): int { if a < b then a else b }

  lemma AppendAssociative<T>(x: seq<T>, a: seq<T>, b: seq<T>)
    ensures (x + a) + b == x + (a + b)
  {
    assert forall i :: 0 <= i < |x| + |a| + |b| ==> ((x + a) + b)[i] == (x + (a + b))[i];
  }
}
