/** The client's uniform error value, `GraphAPIError`, and the error text of any error. */
module Errors {
  import opened Wrappers

  /**
   * An error as the client sees one. `GraphAPIError` is the client's own
   * record: a message and the error that triggered it, if any. `Foreign`
   * stands for an error produced by a library outside this model (the OAuth2
   * exchange, the HTTP transport), known only by the text its `Error()` gives.
   */
  datatype Error =
    | GraphAPIError(message: string, inner: Option<Error>)
    | Foreign(text: string)

  /** `Error()`: the text of an error; for a `GraphAPIError`, its message and nothing of its cause. */
  function Text(e: Error): (r: string)
    ensures e.GraphAPIError? ==> r == e.message
  {
    match e
    case GraphAPIError(message, _) => message
    case Foreign(text) => text
  }

  /** Two `GraphAPIError`s with the same message read the same, whatever their causes. */
  lemma TextIgnoresCause(message: string, a: Option<Error>, b: Option<Error>)
    ensures Text(GraphAPIError(message, a)) == Text(GraphAPIError(message, b))
  {
  }

  /**
   * An error that wraps `cause` under a message that starts with `prefix` and
   * ends with the cause's own text: the shape `fmt.Sprintf("...: %v", err)`
   * gives, with the cause kept as the inner error.
   */
  function Wrap(prefix: string, cause: Error): (r: Error)
    ensures r.GraphAPIError? && r.inner == Some(cause)
    ensures |Text(r)| == |prefix| + |Text(cause)|
    ensures Text(r)[..|prefix|] == prefix && Text(r)[|prefix|..] == Text(cause)
  {
    GraphAPIError(prefix + Text(cause), Some(cause))
  }
}
