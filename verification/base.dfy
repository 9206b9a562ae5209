/** Values as JavaScript hands them around: optional fields, the outcome of an
    awaited call, and the truthiness test `!x` that every guard uses. */
module Base {

  datatype Option<+T> = None | Some(value: T)

  /** The outcome of an awaited call: its payload, or the message of the error
      the call threw. */
  datatype Outcome<+T> = Ok(value: T) | Err(msg: string)

  /** A string-valued field is truthy in JavaScript when it is present and not
      the empty string; `!x` is the negation of this. */
  predicate Truthy(v: Option<string>)
  {
    v.Some? && v.value != ""
  }

  /** Reads a field of a JSON object (a request query or body); an absent key
      reads as `undefined`. */
  function Field(obj: map<string, string>, key: string): Option<string>
  {
    if key in obj then Some(obj[key]) else None
  }

  /** `x || ''` on a string-valued field. */
  function OrEmpty(v: Option<string>): (s: string)
    ensures Truthy(v) ==> s == v.value
    ensures !Truthy(v) ==> s == ""
  {
    match v
    case Some(x) => x
    case None => ""
  }
}
