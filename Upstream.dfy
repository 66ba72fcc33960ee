/**
 * One call to the Spotify Web API, seen from the handler: the request either
 * fails in transport (client.Do returns an error) or comes back with a status
 * code and a body that may fail to be read (ioutil.ReadAll) or to be parsed
 * (json.Unmarshal). The steps that read a body (recommendations, playlist
 * creation, search) check these in the same order: transport, status, read,
 * parse. Adding tracks checks only transport and status.
 */
module Upstream {

  const StatusOK := 200
  const StatusCreated := 201
  const StatusBadRequest := 400

  /** What reading and parsing the response body gives. */
  datatype Body<T> = Unreadable | Malformed | Parsed(value: T)

  /** What one outbound request gives back. */
  datatype Reply<T> = TransportFailed | Replied(status: int, body: Body<T>)

  /**
   * The error a step returns. The message of a bad status is fixed per step;
   * `status` is the code the handler logs, not part of the Go error's text.
   */
  datatype StepError =
    | TransportError
    | BadStatus(status: int, message: string)
    | ReadError
    | UnmarshalError

  datatype Outcome<T> = Ok(value: T) | Fail(error: StepError)

  /**
   * A Go error returned by a handler instead of a JSON response: the missing
   * Authorization header (message "No authorization provided"), a request body
   * that does not bind, or a failed upstream step passed on unchanged.
   */
  datatype HandlerError = NoAuthorization | BindError(reason: string) | StepFailed(cause: StepError)

  /**
   * A step that checks the status with `accepts` and then reads and parses the
   * body, in the order the handlers do it.
   */
  function Receive<T>(reply: Reply<T>, accepts: int -> bool, badStatusMessage: string): (r: Outcome<T>)
    ensures r.Ok? <==> reply.Replied? && accepts(reply.status) && reply.body.Parsed?
    ensures r.Ok? ==> r.value == reply.body.value
    ensures reply.TransportFailed? ==> r == Fail(TransportError)
    ensures reply.Replied? && !accepts(reply.status) ==> r == Fail(BadStatus(reply.status, badStatusMessage))
    ensures reply.Replied? && accepts(reply.status) && reply.body.Unreadable? ==> r == Fail(ReadError)
    ensures reply.Replied? && accepts(reply.status) && reply.body.Malformed? ==> r == Fail(UnmarshalError)
  {
    match reply
    case TransportFailed => Fail(TransportError)
    case Replied(status, body) =>
      if !accepts(status) then Fail(BadStatus(status, badStatusMessage))
      else match body
        case Unreadable => Fail(ReadError)
        case Malformed => Fail(UnmarshalError)
        case Parsed(v) => Ok(v)
  }
}
