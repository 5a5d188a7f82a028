/**
 * How `request` in src/lib/api-client.js classifies what the transport reports:
 * a transport failure or an HTTP status other than 200 rejects at once; a 200
 * response goes to `responseInterceptor`, which checks the envelope shape and
 * then branches on the envelope's `code`.
 */
module ResponseGate {

  const HTTP_OK: int := 200
  const SUCCESS_CODE: int := 200
  const UNAUTHORIZED_CODE: int := 401

  /**
   * The response body as the envelope checks see it: anything that is falsy or
   * not an object, or an object that may or may not carry a `code` field.
   */
  datatype Body =
    | NotAnObject
    | Envelope(hasCode: bool, code: int, msg: string)

  /** The two callbacks of the host request primitive: `fail`, or `success` with status and body. */
  datatype Transport =
    | TransportFailed
    | Delivered(statusCode: int, body: Body)

  /** How the promise returned by `request` goes, up to the point where a refresh takes over. */
  datatype Verdict =
    | Resolved(envelope: Body)
    | NetworkError
    | HttpError(statusCode: int)
    | FormatError
    | SessionExpired(envelope: Body)
    | BusinessError(envelope: Body)

  /** Whether `responseInterceptor` accepts the body as an envelope at all. */
  predicate WellFormed(b: Body) {
    b.Envelope? && b.hasCode
  }

  /** The checks of `responseInterceptor`, for a response whose HTTP status was 200. */
  function InterceptResponse(b: Body): (v: Verdict)
    ensures v.FormatError? <==> !WellFormed(b)
    ensures v.Resolved? <==> WellFormed(b) && b.code == SUCCESS_CODE
    ensures v.SessionExpired? <==> WellFormed(b) && b.code == UNAUTHORIZED_CODE
    ensures v.BusinessError? <==> WellFormed(b) && b.code != SUCCESS_CODE && b.code != UNAUTHORIZED_CODE
    ensures v.Resolved? || v.SessionExpired? || v.BusinessError? ==> v.envelope == b
  {
    if !WellFormed(b) then FormatError
    else if b.code == SUCCESS_CODE then Resolved(b)
    else if b.code == UNAUTHORIZED_CODE then SessionExpired(b)
    else BusinessError(b)
  }

  /** The `success`/`fail` handling around the transport call in `request`. */
  function Classify(t: Transport): (v: Verdict)
    ensures v.NetworkError? <==> t.TransportFailed?
    ensures v.HttpError? <==> t.Delivered? && t.statusCode != HTTP_OK
    ensures v.HttpError? ==> v.statusCode == t.statusCode
    ensures t.Delivered? && t.statusCode == HTTP_OK ==> v == InterceptResponse(t.body)
  {
    match t
    case TransportFailed => NetworkError
    case Delivered(status, body) =>
      if status != HTTP_OK then HttpError(status) else InterceptResponse(body)
  }

  /** A status other than 200 is rejected without looking at the envelope. */
  lemma StatusGateIgnoresBody(status: int, b1: Body, b2: Body)
    requires status != HTTP_OK
    ensures Classify(Delivered(status, b1)) == Classify(Delivered(status, b2)) == HttpError(status)
  {
  }

  /** The only way to resolve: status 200 and an envelope whose code is 200, returned unchanged. */
  lemma ResolvesOnlyOnSuccess(t: Transport)
    ensures Classify(t).Resolved? <==>
              t.Delivered? && t.statusCode == HTTP_OK && WellFormed(t.body) && t.body.code == SUCCESS_CODE
    ensures Classify(t).Resolved? ==> Classify(t).envelope == t.body
  {
  }
}
