/** What the four tools share: the token guard, the errors a tool call can end
    with, and the pair of a result and the remote-call log. */
module Tooling {
  import opened Wrappers
  import opened Spotify

  datatype ToolError =
      /** The input schema rejected the arguments; `execute` never ran. */
    | ValidationError
      /** The token guard threw "Missing Spotify access token. Please authenticate." */
    | MissingToken
      /** A remote call was rejected and the rejection propagated. */
    | Upstream(cause: RemoteError)
      /** JavaScript threw while reading a property of `null` or `undefined`. */
    | TypeError

  /** A tool's outcome together with every remote call it made, in order. */
  datatype Run<+T> = Run(result: Result<T, ToolError>, calls: seq<RemoteCall>)

  /** `if (!token)` fails for `undefined` and for the empty string. */
  predicate Truthy(token: Option<string>) {
    token.Some? && token.value != ""
  }

  /** Whether every call in the log carries the given token. */
  predicate Authorized(calls: seq<RemoteCall>, token: Option<string>) {
    forall i :: 0 <= i < |calls| ==> Some(calls[i].token) == token
  }
}
