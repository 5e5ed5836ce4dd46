/** JSON-RPC messages and what the server answers to one decoded line (crates/ta-jsonrpc/src/lib.rs, server.rs). */
module JsonRpc {
  import opened Prelude

  datatype RequestId = StringId(s: string) | IntegerId(n: int)

  datatype ErrorData = HandlerPanicked(rpcMethod: string) | Detail(json: string)

  datatype ErrorObject = ErrorObject(code: int, message: string, data: Option<ErrorData>)

  /** Parameters and results are JSON values, carried as text. */
  datatype Message =
    | Request(id: RequestId, rpcMethod: string, params: Option<string>)
    | Notification(rpcMethod: string, params: Option<string>)
    | Response(id: RequestId, result: string)
    | Error(errorId: Option<RequestId>, error: ErrorObject)

  /** A line from the client: what the codec makes of it. */
  datatype Line = Decoded(message: Message) | Undecodable(reason: string)

  /** How a handler's future ends. */
  datatype Outcome = Returned(value: string) | Refused(error: ErrorObject) | Panicked

  /** A line together with what the handler did, had it been called. */
  datatype Input = Input(line: Line, outcome: Outcome)

  const PARSE_ERROR_CODE: int := -32700
  const INVALID_REQUEST_ERROR_CODE: int := -32600
  const INTERNAL_ERROR_CODE: int := -32603

  predicate IsRequest(line: Line) {
    line.Decoded? && line.message.Request?
  }

  predicate IsNotification(line: Line) {
    line.Decoded? && line.message.Notification?
  }

  /** `process_jsonrpc_request`: a handler that panics is answered, too. */
  function AnswerRequest(id: RequestId, rpcMethod: string, outcome: Outcome): Message {
    match outcome
    case Returned(value) => Response(id, value)
    case Refused(error) => Error(Some(id), error)
    case Panicked =>
      Error(Some(id), ErrorObject(INTERNAL_ERROR_CODE, "Internal error", Some(HandlerPanicked(rpcMethod))))
  }

  /** `process_connection_message`: the answer to one line, if it gets one. */
  function Answer(input: Input): Option<Message> {
    match input.line
    case Decoded(Request(id, rpcMethod, _)) => Some(AnswerRequest(id, rpcMethod, input.outcome))
    case Decoded(Notification(_, _)) => None
    case Decoded(_) => Some(Error(None, ErrorObject(INVALID_REQUEST_ERROR_CODE, "expected a JSON-RPC request", None)))
    case Undecodable(reason) => Some(Error(None, ErrorObject(PARSE_ERROR_CODE, reason, None)))
  }

  /** `overload_response_for_request_line`: the one line read from a rejected connection is answered by an error. */
  function OverloadAnswer(line: Line): Message {
    match line
    case Decoded(Request(id, _, _)) =>
      Error(Some(id), ErrorObject(INTERNAL_ERROR_CODE, "too many in-flight JSON-RPC requests", None))
    case Decoded(Notification(rpcMethod, _)) =>
      Error(None, ErrorObject(INVALID_REQUEST_ERROR_CODE, "notifications are not supported: " + rpcMethod, None))
    case Decoded(_) => Error(None, ErrorObject(INVALID_REQUEST_ERROR_CODE, "expected a JSON-RPC request", None))
    case Undecodable(reason) => Error(None, ErrorObject(PARSE_ERROR_CODE, reason, None))
  }

  /** The id an answer carries; section 5 of the JSON-RPC 2.0 Specification. */
  function AnsweredId(m: Message): Option<RequestId>
    requires m.Response? || m.Error?
  {
    if m.Response? then Some(m.id) else m.errorId
  }

  /** The id a line asks to be answered under: a request's own, and none when no request could be read. */
  function AskedId(line: Line): Option<RequestId> {
    if IsRequest(line) then Some(line.message.id) else None
  }

  /** The answers to a sequence of lines, in order. */
  function Answers(inputs: seq<Input>): (answers: seq<Message>)
    ensures forall m | m in answers :: m.Response? || m.Error?
  {
    if inputs == [] then []
    else
      var earlier, last := Answers(inputs[..|inputs| - 1]), Answer(inputs[|inputs| - 1]);
      earlier + if last.Some? then [last.value] else []
  }

  /** The lines that must be answered: all but notifications. */
  function Answerable(inputs: seq<Input>): seq<Input> {
    Filter((input: Input) => !IsNotification(input.line), inputs)
  }

  /**
   Sections 4.1 and 5 of the JSON-RPC 2.0 Specification: one answer for each line that is not a
   notification, in order; it carries the request's id, or none if there was no request to read, and it is a
   response, not an error, exactly when there was a request whose handler returned a value, that value.
   */
  lemma {:induction false} AnswersPairUp(inputs: seq<Input>)
    ensures |Answers(inputs)| == |Answerable(inputs)|
    ensures forall k | 0 <= k < |Answers(inputs)| ::
              var answer, input := Answers(inputs)[k], Answerable(inputs)[k];
              && AnsweredId(answer) == AskedId(input.line)
              && (answer.Response? <==> IsRequest(input.line) && input.outcome.Returned?)
              && (answer.Response? ==> answer.result == input.outcome.value)
  {
    if inputs != [] { AnswersPairUp(inputs[..|inputs| - 1]); }
  }

  /**
   Section 5.1 of the JSON-RPC 2.0 Specification: what an error says. A handler that refuses a request is quoted,
   one that panics is an internal error of its method, and what is no request is told so.
   */
  lemma ErrorsSayWhatHappened(input: Input)
    ensures match input.line {
              case Decoded(Request(id, rpcMethod, _)) =>
                (match input.outcome
                 case Returned(value) => Answer(input) == Some(Response(id, value))
                 case Refused(error) => Answer(input) == Some(Error(Some(id), error))
                 case Panicked =>
                   exists text ::
                     Answer(input) == Some(Error(Some(id), ErrorObject(-32603, text, Some(HandlerPanicked(rpcMethod))))))
              case Decoded(Notification(_, _)) => Answer(input) == None
              case Decoded(_) => exists text :: Answer(input) == Some(Error(None, ErrorObject(-32600, text, None)))
              case Undecodable(reason) => Answer(input) == Some(Error(None, ErrorObject(-32700, reason, None)))
            }
  {
  }

  /** What a rejected connection is told: to come back, or that its line was no request. */
  lemma OverloadErrorsSayWhy(line: Line)
    ensures var answer := OverloadAnswer(line);
            match line {
              case Decoded(Request(id, _, _)) => answer.Error? && answer.errorId == Some(id) && answer.error.code == -32603
              case Decoded(_) => answer.Error? && answer.errorId == None && answer.error.code == -32600
              case Undecodable(reason) => answer == Error(None, ErrorObject(-32700, reason, None))
            }
  {
  }

  /** A rejected line gets an error under the id it asks for, whatever it is: a notification, too. */
  lemma OverloadIsAnError(line: Line)
    ensures OverloadAnswer(line).Error? && OverloadAnswer(line).errorId == AskedId(line)
  {
  }

  /** How a connection's first line is answered: by its handler, or by the accept loop that refused it. */
  function FirstAnswer(refused: bool, input: Input): Option<Message> {
    if refused then Some(OverloadAnswer(input.line)) else Answer(input)
  }

  /** Section 4.1 forbids answering a notification. On a first line that is broken exactly by a refusal. */
  lemma FirstLineUnanswered(refused: bool, input: Input)
    ensures FirstAnswer(refused, input).None? <==> IsNotification(input.line) && !refused
    ensures FirstAnswer(refused, input).Some? ==>
              var m := FirstAnswer(refused, input).value;
              (m.Response? || m.Error?) && AnsweredId(m) == AskedId(input.line)
  {
  }
}
