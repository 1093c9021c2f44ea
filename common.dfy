/** Types shared by the route handlers and the client code. */
module Common {

  /** Document ids. The handlers compare ids through `toString()`, so an id is its string form. */
  type Id = string

  datatype Option<+T> = None | Some(value: T)

  /** What a handler sends back: success (the body is the updated document), a status with
      `{ msg }`, or 400 with the validator's `{ errors }` list. */
  datatype Reply = Success | Status(code: nat, msg: string) | Invalid(errors: seq<string>)

  /** A request-body field that is present and not the empty string. For strings this is both
      JavaScript truthiness and express-validator's `not().isEmpty()`. */
  predicate Present(f: Option<string>) {
    f.Some? && f.value != ""
  }

  /** `if (f) target = f`: the field is copied only when it is truthy. */
  function IfPresent(f: Option<string>): (r: Option<string>)
    ensures r.Some? <==> Present(f)
    ensures r.Some? ==> r == f
  {
    if Present(f) then f else None
  }
}
