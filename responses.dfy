/** The reply envelope: how a handler's result or error becomes calls on the response
    writer, and what the client receives from those calls. */
module Responses {
  import opened Errors

  /** An error value as handlers see it: a taxonomy error, or any other error with its text. */
  datatype HandlerError = Typed(error: Error) | Untyped(text: string) {
    function Text(): string
    {
      match this
      case Typed(e) => e.Text()
      case Untyped(t) => t
    }
  }

  /** An encoded JSON body: a payload, or a string map for errors. */
  datatype Body<T> = Payload(value: T) | ErrorFields(fields: map<string, string>)

  /** A call on the response writer. */
  datatype Op<T> =
    | SetHeader(name: string, value: string)
    | WriteHeader(status: int)
    | Encode(body: Body<T>)

  const ContentType := "Content-Type"
  const ApplicationJson := "application/json"
  const ErrorKey := "error"

  /** The status of an error reply: a taxonomy error's own code, 500 for anything else. */
  function StatusFor(err: HandlerError): (code: int)
    ensures err.Typed? ==> code == err.error.code
    ensures err.Untyped? ==> code == StatusInternalServerError
  {
    match err
    case Typed(e) => e.code
    case Untyped(_) => StatusInternalServerError
  }

  /** What reaches the client: the status line, the headers sent, the bodies written. */
  datatype Reply<T> = Reply(status: int, headers: map<string, string>, bodies: seq<Body<T>>)

  /** Replays writer calls as an HTTP response writer does: headers are sent with the
      status line and later changes to them are lost; only the first status written
      counts; writing a body before any status sends status 200. */
  function Replay<T>(ops: seq<Op<T>>, sent: bool, reply: Reply<T>): Reply<T>
    decreases |ops|
  {
    if ops == [] then reply
    else
      match ops[0]
      case SetHeader(name, value) =>
        Replay(ops[1..], sent, if sent then reply else reply.(headers := reply.headers[name := value]))
      case WriteHeader(code) =>
        Replay(ops[1..], true, if sent then reply else reply.(status := code))
      case Encode(body) =>
        Replay(ops[1..], true, reply.(status := if sent then reply.status else 200, bodies := reply.bodies + [body]))
  }

  function Observe<T>(ops: seq<Op<T>>): Reply<T>
  {
    Replay(ops, false, Reply(200, map[], []))
  }

  /** Three writer calls in the order the envelope uses: the content type, then the
      status, then the body. */
  lemma ObserveEnvelope<T>(status: int, body: Body<T>)
    ensures Observe([SetHeader(ContentType, ApplicationJson), WriteHeader(status), Encode(body)])
      == Reply(status, map[ContentType := ApplicationJson], [body])
  {
    var ops: seq<Op<T>> := [SetHeader(ContentType, ApplicationJson), WriteHeader(status), Encode(body)];
    var r0: Reply<T> := Reply(200, map[], []);
    var r1 := r0.(headers := map[ContentType := ApplicationJson]);
    var r2 := r1.(status := status);
    assert Observe(ops) == Replay(ops[1..], false, r1);
    assert Replay(ops[1..], false, r1) == Replay(ops[2..], true, r2);
    assert Replay(ops[2..], true, r2) == Replay(ops[3..], true, r2.(bodies := [body]));
  }

  /** The writer calls of an error reply: the client receives the error's status, a JSON
      content type set before that status, and the single-key body holding the error's
      text. */
  function ErrorResponse<T>(err: HandlerError): (ops: seq<Op<T>>)
    ensures Observe(ops)
      == Reply(StatusFor(err), map[ContentType := ApplicationJson], [ErrorFields(map[ErrorKey := err.Text()])])
  {
    ObserveEnvelope<T>(StatusFor(err), ErrorFields(map[ErrorKey := err.Text()]));
    [SetHeader(ContentType, ApplicationJson),
     WriteHeader(StatusFor(err)),
     Encode(ErrorFields(map[ErrorKey := err.Text()]))]
  }

  /** The writer calls of a successful reply: the client receives exactly the caller's
      status and the payload as JSON. */
  function SuccessResponse<T>(data: T, status: int): (ops: seq<Op<T>>)
    ensures Observe(ops) == Reply(status, map[ContentType := ApplicationJson], [Payload(data)])
  {
    ObserveEnvelope<T>(status, Payload(data));
    [SetHeader(ContentType, ApplicationJson), WriteHeader(status), Encode(Payload(data))]
  }

  /** A status set and headers changed after it are not what the client sees. */
  lemma LateHeadersAreLost<T>(status: int, body: T)
    ensures Observe([WriteHeader(status), SetHeader(ContentType, ApplicationJson), Encode(Payload(body))])
      == Reply(status, map[], [Payload(body)])
  {
    var ops: seq<Op<T>> := [WriteHeader(status), SetHeader(ContentType, ApplicationJson), Encode(Payload(body))];
    var r0: Reply<T> := Reply(200, map[], []);
    var r1 := r0.(status := status);
    assert Observe(ops) == Replay(ops[1..], true, r1);
    assert Replay(ops[1..], true, r1) == Replay(ops[2..], true, r1);
    assert Replay(ops[2..], true, r1) == Replay(ops[3..], true, r1.(bodies := [Payload(body)]));
  }

  /** A taxonomy error is answered with its own code and its canonical reason phrase. */
  lemma TaxonomyErrorReply<T>(code: int)
    requires code in ListedCodes
    ensures 0 <= code < TableLength
    ensures Observe(ErrorResponse<T>(Typed(NewError(code))))
      == Reply(code, map[ContentType := ApplicationJson], [ErrorFields(map[ErrorKey := StatusMessage(code)])])
  {
    TableShape();
  }

  /** Any other error is answered with 500 and its own text. */
  lemma OtherErrorReply<T>(text: string)
    ensures Observe(ErrorResponse<T>(Untyped(text)))
      == Reply(500, map[ContentType := ApplicationJson], [ErrorFields(map[ErrorKey := text])])
  {
  }
}
