/**
 * What the providers and forms receive from the browser and the server: a
 * chosen file, and the shapes of a failed request as their `catch` blocks
 * see them. Requests themselves are not modelled: their outcomes are inputs.
 */
module Api {
  import opened Wrappers

  /** A file picked or dropped by the user: its name, MIME type and size in bytes. */
  datatype FileInfo = FileInfo(name: string, mime: string, size: nat)

  /** The JSON body of an error response; `message` is optional. */
  datatype ServerData = ServerData(message: Option<string>)

  /**
   * What a request can throw: an `AxiosError` (its own `message`, and the
   * response body when there was a response with one), some other `Error`,
   * or a value that is not an `Error` at all.
   */
  datatype RequestError =
    | AxiosError(message: string, data: Option<ServerData>)
    | PlainError(message: string)
    | NotAnError

  /** The server's message, when the error is an `AxiosError` whose response body has a non-empty one. */
  function ServerMessage(err: RequestError): Option<string> {
    if err.AxiosError? && err.data.Some? && err.data.value.message.Some? && err.data.value.message.value != ""
    then err.data.value.message
    else None
  }

  /**
   * The login/signup rule: the server's message if there is one, otherwise
   * the given default; the error's own message is never used.
   */
  function ServerMessageOr(err: RequestError, default: string): (m: string)
    ensures ServerMessage(err).Some? ==> m == ServerMessage(err).value
    ensures ServerMessage(err).None? ==> m == default
    ensures default != "" ==> m != ""
  {
    ServerMessage(err).GetOr(default)
  }
}
