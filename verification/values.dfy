/**
 * The scalar values that travel in request bodies, route parameters, JWT
 * claims and table cells, with JavaScript's notion of truthiness, which the
 * handlers use to decide whether a field was "supplied".
 */
module Values {

  datatype Option<+T> = None | Some(value: T)

  /** A JSON scalar: a string or a number. Authors and user ids are both of
      this type and are compared only for equality. */
  datatype Json = Str(s: string) | Num(n: int)

  /** `!!v` in JavaScript, for a value that may be absent (`undefined`). */
  predicate Truthy(v: Option<Json>)
  {
    match v
    case None => false
    case Some(Str(s)) => s != ""
    case Some(Num(n)) => n != 0
  }

  /** Truthiness of a string that may be absent. */
  predicate TruthyText(v: Option<string>)
  {
    v.Some? && v.value != ""
  }
}
