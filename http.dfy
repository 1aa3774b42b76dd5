/** What the remote service hands back, and the errors the core raises.
    The HTTP transport itself is not modelled: a request's outcome is an
    input, already decoded from JSON where the endpoint returns JSON. */
module Http {
  import opened Wrappers

  /** The outcome of one `requests.get`: the connection failed, or a reply
      with a status code and a (decoded) body. */
  datatype Reply<T> = NoConnection | Reply(status: int, body: T)

  /** The exceptions of the core, one constructor per way it fails. */
  datatype Error =
    | ConnectionFailed   // `requests` raises before any status is seen
    | BadStatus(status: int)   // `raise Exception(r)` on a status other than 200
    | StationNotFound    // `StopIteration` from `next` on an empty match
    | NoDepartures       // `raise Exception("Not Found")`
    | NoCountMatch       // `m.group(1)` on a `fullmatch` that returned `None`

  const StatusOk := 200

  /** The test every endpoint applies: anything but status 200 raises,
      otherwise the body is used. */
  function CheckStatus<T>(reply: Reply<T>): (r: Result<T, Error>)
    ensures r.Success? <==> reply.Reply? && reply.status == StatusOk
    ensures r.Success? ==> r.value == reply.body
    ensures reply.Reply? && reply.status != StatusOk ==> r == Failure(BadStatus(reply.status))
    ensures reply.NoConnection? ==> r == Failure(ConnectionFailed)
  {
    match reply
    case NoConnection => Failure(ConnectionFailed)
    case Reply(status, body) =>
      if status != StatusOk then Failure(BadStatus(status)) else Success(body)
  }
}
