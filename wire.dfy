/**
 * The values that travel over the socket between the browser client and the
 * server, and the names of the events that carry them.
 *
 * Payloads are JavaScript values; the server never inspects most of them
 * (audio frames, transcript results and errors are passed on unchanged), so
 * they are modelled as one datatype that is only compared, never computed on.
 */
module Wire {

  datatype Option<+T> = None | Some(value: T)

  datatype Result<+T, +E> = Success(value: T) | Failure(error: E)

  /** A JavaScript value as socket.io delivers it to a handler. */
  datatype Value =
    | Undefined
    | Null
    | Bool(b: bool)
    | Number(n: int)
    | Text(s: string)
    | Binary(bytes: seq<bv8>)
    | Object(fields: map<string, Value>)

  /** The error JavaScript raises when a pattern tries to destructure `undefined` or `null`. */
  datatype TypeError = CannotDestructure(subject: Value)

  /**
   * Property access `v.name`, as done by the pattern `{ sampleRate }` and by
   * `error.message`: reading a property of `undefined` or `null` throws; an
   * object yields its own field, or `undefined` when it has none.
   *
   * Only own fields are modelled, so this is faithful only for names that no
   * built-in prototype defines. It is used for `sampleRate` and `message`
   * only; for other names (a string's `length`, an inherited `toString`) it
   * would wrongly give `undefined`.
   */
  function GetProperty(v: Value, name: string): (r: Result<Value, TypeError>)
    ensures r.Failure? <==> v.Undefined? || v.Null?
    ensures v.Object? && name in v.fields ==> r == Success(v.fields[name])
    ensures r.Success? && !(v.Object? && name in v.fields) ==> r.value == Undefined
  {
    match v
    case Undefined => Failure(CannotDestructure(v))
    case Null => Failure(CannotDestructure(v))
    case Object(fields) => Success(if name in fields then fields[name] else Undefined)
    case _ => Success(Undefined)
  }

  // Event names, server to client (and transcriber to server).
  const PartialEvent := "partial"
  const FinalEvent := "final"
  const ErrorEvent := "error"
  const TranscriberReadyEvent := "transcriber-ready"

  /** What a client can cause the server's connection handler to receive. */
  datatype Upstream =
    | ConfigureStream(payload: Value)
    | IncomingAudio(audio: Value)
    | StopStream
    | Disconnect

  /** One `socket.emit(name, payload)` from the server to its client. */
  datatype Downstream = Downstream(name: string, payload: Value)
}
