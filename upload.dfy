/**
 * `uploadImage` in src/lib/api-client.js: check the three required options,
 * attach the stored token, call the host upload primitive, and decide the
 * outcome from the HTTP status and the `code` of the JSON-parsed body. It does
 * not go through the request interceptor and has no refresh path.
 */
module Upload {
  import opened Wrappers
  import opened RequestConfig
  import Lib
  import ResponseGate

  const HTTP_OK: int := ResponseGate.HTTP_OK

  /** The caller's upload options; a missing string field is the empty string. */
  datatype UploadOptions = UploadOptions(
    url: string,
    filePath: string,
    name: string,
    formData: Option<Payload>,
    header: Option<Headers>)

  /** The descriptor handed to the host upload primitive. */
  datatype UploadRequest = UploadRequest(
    url: string,
    filePath: string,
    name: string,
    formData: Payload,
    header: Headers)

  datatype UploadError = MissingParameter

  /** What `JSON.parse` makes of the body: a failure, `null`, or some value. */
  datatype ParsedBody =
    | Unparseable
    | ParsedNull
    | Parsed(value: ResponseGate.Body)

  datatype UploadTransport =
    | UploadFailed
    | UploadDelivered(statusCode: int, body: ParsedBody)

  datatype UploadVerdict =
    | Uploaded(envelope: ResponseGate.Body)
    | Missing
    | UploadNetworkError
    | UploadHttpError(statusCode: int)
    | ParseError
    | UploadRejected(value: ResponseGate.Body)

  /**
   * The checks and the descriptor: an empty `url`, `filePath` or `name` rejects;
   * otherwise the URL is resolved, the form data defaulted, and the caller's
   * header copied with the token, if there is one, in `Authorization`.
   */
  function PrepareUpload(o: UploadOptions, token: string): (r: Result<UploadRequest, UploadError>)
    ensures r.Failure? <==> o.url == "" || o.filePath == "" || o.name == ""
    ensures r.Success? ==> r.value.url == Lib.ResolveResourceURL(o.url)
    ensures r.Success? ==> r.value.filePath == o.filePath && r.value.name == o.name
    ensures r.Success? ==> r.value.formData == (if o.formData.Some? then o.formData.value else map[])
    ensures r.Success? && token != "" ==>
              AUTHORIZATION in r.value.header && r.value.header[AUTHORIZATION] == token
    ensures r.Success? ==>
              var given := if o.header.Some? then o.header.value else map[];
              (token == "" ==> r.value.header == given) &&
              (forall k :: k != AUTHORIZATION ==> SameAt(given, r.value.header, k))
  {
    if o.url == "" || o.filePath == "" || o.name == "" then
      Failure(MissingParameter)
    else
      var given := if o.header.Some? then o.header.value else map[];
      var header := if token != "" then given[AUTHORIZATION := token] else given;
      Success(UploadRequest(
        Lib.ResolveResourceURL(o.url),
        o.filePath,
        o.name,
        if o.formData.Some? then o.formData.value else map[],
        header))
  }

  /** Whether a parsed body counts as a success: its `code` is 200. */
  predicate Succeeded(v: ResponseGate.Body) {
    v.Envelope? && v.hasCode && v.code == ResponseGate.SUCCESS_CODE
  }

  /** The `success`/`fail` handling of the upload; reading `code` off `null` throws and is a parse error. */
  function ClassifyUpload(t: UploadTransport): (v: UploadVerdict)
    ensures v.UploadNetworkError? <==> t.UploadFailed?
    ensures v.Uploaded? <==> t.UploadDelivered? && t.statusCode == HTTP_OK && t.body.Parsed? && Succeeded(t.body.value)
    ensures v.Uploaded? ==> v.envelope == t.body.value
    ensures v.UploadHttpError? <==> t.UploadDelivered? && t.statusCode != HTTP_OK
    ensures v.UploadHttpError? ==> v.statusCode == t.statusCode
    ensures v.ParseError? <==> t.UploadDelivered? && t.statusCode == HTTP_OK && !t.body.Parsed?
    ensures v.UploadRejected? ==> t.UploadDelivered? && t.body.Parsed? && v.value == t.body.value
    ensures v != Missing
  {
    match t
    case UploadFailed => UploadNetworkError
    case UploadDelivered(status, body) =>
      if status != HTTP_OK then UploadHttpError(status)
      else
        match body
        case Unparseable => ParseError
        case ParsedNull => ParseError
        case Parsed(value) => if Succeeded(value) then Uploaded(value) else UploadRejected(value)
  }

  /** The whole of `uploadImage`, given the stored token and what the transport reports. */
  function UploadImage(o: UploadOptions, token: string, t: UploadTransport): (v: UploadVerdict)
    ensures v == Missing <==> o.url == "" || o.filePath == "" || o.name == ""
    ensures v != Missing ==> v == ClassifyUpload(t)
  {
    match PrepareUpload(o, token)
    case Failure(_) => Missing
    case Success(_) => ClassifyUpload(t)
  }

  /** A missing required option rejects before the transport is involved: its report cannot matter. */
  lemma MissingRejectsWithoutTransport(o: UploadOptions, token: string, t1: UploadTransport, t2: UploadTransport)
    requires o.url == "" || o.filePath == "" || o.name == ""
    ensures UploadImage(o, token, t1) == UploadImage(o, token, t2) == Missing
  {
  }

  /**
   * The upload applies a reduced form of the request checks: on a well-formed
   * envelope it succeeds exactly when a request would, but a 401 envelope is
   * rejected instead of starting a refresh, and a body without `code` is a
   * business rejection rather than a format error.
   */
  lemma UploadAgainstRequest(status: int, b: ResponseGate.Body)
    ensures ClassifyUpload(UploadDelivered(status, Parsed(b))).Uploaded?
            <==> ResponseGate.Classify(ResponseGate.Delivered(status, b)).Resolved?
    ensures status == HTTP_OK && ResponseGate.WellFormed(b) && b.code == ResponseGate.UNAUTHORIZED_CODE ==>
              ResponseGate.Classify(ResponseGate.Delivered(status, b)).SessionExpired? &&
              ClassifyUpload(UploadDelivered(status, Parsed(b))) == UploadRejected(b)
    ensures status == HTTP_OK && !ResponseGate.WellFormed(b) ==>
              ResponseGate.Classify(ResponseGate.Delivered(status, b)) == ResponseGate.FormatError &&
              ClassifyUpload(UploadDelivered(status, Parsed(b))) == UploadRejected(b)
  {
  }
}
