/** Go error values and the three ways a call can end: a value, an error, or a panic. */
module Errors {
  import opened Strings
  import opened Schema

  datatype Error =
    | Plain(msg: string)                              // fmt.Errorf
    | BadRequest(msg: string)                         // errors.NewBadRequest
    | NotFound(resource: GroupResource, name: string) // errors.NewNotFound
    | External(msg: string)                           // returned by a collaborator
    | Aggregate(list: seq<Error>)                     // the builder's errs{list}

  /** Error(): the text of an error. */
  function Message(e: Error): string {
    match e
    case Plain(m) => m
    case BadRequest(m) => m
    case NotFound(gr, name) =>
      (if gr.group == "" then gr.resource else gr.resource + "." + gr.group) + " \"" + name + "\" not found"
    case External(m) => m
    case Aggregate(list) =>
      Decimal(|list|) + " errors: " +
      Concat(Prefixed(seq(|list|, i requires 0 <= i < |list| => Message(list[i])), "\n"))
  }

  datatype Outcome<+T> = Ok(value: T) | Fail(error: Error) | Panic(reason: string)
}
