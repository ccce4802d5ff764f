// One HTTP attempt, seen from the queue: what counts as success and what identifies
// the attempt to the recipient.

module Sender {
  import opened Types

  /** What the transport came back with: an answer, or the kind of error it hit. */
  datatype Response = Answer(code: int) | NoAnswer(kind: string)

  function ClassifyStatus(code: int): (r: Option<string>)
    ensures r.None? <==> 200 <= code < 300
    ensures r == Some("http_retryable") <==> code in {408, 425, 429}
    ensures r == Some("http_redirect") <==> 300 <= code < 400
    ensures r == Some("http_client_error") <==> 400 <= code < 500 && code !in {408, 425, 429}
    ensures r == Some("http_server_error") <==> code < 200 || 500 <= code
  {
    if 200 <= code < 300 then None
    else if 300 <= code < 400 then Some("http_redirect")
    else if code in {408, 425, 429} then Some("http_retryable")
    else if 400 <= code < 500 then Some("http_client_error")
    else Some("http_server_error")
  }

  function ErrorKind(r: Response): Option<string> {
    match r
    case Answer(code) => ClassifyStatus(code)
    case NoAnswer(kind) => Some(kind)
  }

  function StatusCode(r: Response): Option<int> {
    match r
    case Answer(code) => Some(code)
    case NoAnswer(_) => None
  }

  function Result(r: Response, startedAt: Time, finishedAt: Time): AttemptResult {
    AttemptResult(ErrorKind(r).None?, ErrorKind(r), StatusCode(r), startedAt, finishedAt)
  }

  /** The headers by which a recipient can recognise a repeated delivery. */
  datatype Headers = Headers(idempotencyKey: Id, requestId: Id, sourceId: string, attempt: nat)

  function BuildHeaders(claim: Claim): Headers {
    Headers(claim.deliveryId, claim.requestId, claim.request.sourceId, claim.attemptNumber)
  }

  /** The JSON body of one request. */
  datatype Body = Body(deliveryId: Id, requestId: Id, sourceId: string, idempotencyKey: string,
                       receivedAt: Time, attempt: nat, payload: string)

  function BuildBody(claim: Claim): Body {
    Body(claim.deliveryId, claim.requestId, claim.request.sourceId, claim.request.idempotencyKey,
         claim.request.receivedAt, claim.attemptNumber, claim.request.payload)
  }
}
