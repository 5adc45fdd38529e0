/**
 * `get_smartrest_response_for_upload_result`: the SmartREST status record the
 * mapper reports once a file upload to Cumulocity has finished.  The record is
 * kept abstract (operation, outcome, URL or reason); its CSV wire format
 * belongs to the SmartREST serializer.
 */
module SmartRestResponse {
  import opened Outcomes
  import opened Errors
  import opened Text

  /** A Cumulocity operation name such as `c8y_UploadConfigFile`. */
  datatype C8yOperation = C8yOperation(name: string)

  datatype SmartRest =
    | Succeed(operation: C8yOperation, url: Option<string>)
    | Fail(operation: C8yOperation, reason: string)

  /** The outcome of an upload: success, or the uploader's error. */
  type UploadResult = Result<(), ForeignError>

  const UploadFailedPrefix: string := "Upload failed with "

  function ResponseForUploadResult(upload: UploadResult, binaryUrl: string, operation: C8yOperation): (r: SmartRest)
    ensures r.operation == operation
    ensures r.Succeed? <==> upload.Ok?
    ensures r.Succeed? ==> r.url == Some(binaryUrl)
    ensures r.Fail? ==> StartsWith(r.reason, UploadFailedPrefix) && EndsWith(r.reason, upload.error.text)
    ensures r.Fail? ==> |r.reason| == |UploadFailedPrefix| + |upload.error.text|
  {
    match upload
    case Ok(_) => Succeed(operation, Some(binaryUrl))
    case Err(err) => Fail(operation, UploadFailedPrefix + err.text)
  }

  /** Reads a status record back as the upload outcome it reports, recovering the uploader's error text. */
  function UploadOutcomeOf(r: SmartRest): (outcome: Option<Result<(), string>>) {
    match r
    case Succeed(_, _) => Some(Ok(()))
    case Fail(_, reason) =>
      if StartsWith(reason, UploadFailedPrefix) then Some(Err(reason[|UploadFailedPrefix|..])) else None
  }

  /** The record reports the upload outcome without loss: the error text is embedded verbatim. */
  lemma ResponseRoundTrip(upload: UploadResult, binaryUrl: string, operation: C8yOperation)
    ensures UploadOutcomeOf(ResponseForUploadResult(upload, binaryUrl, operation))
         == Some(if upload.Ok? then Ok(()) else Err(upload.error.text))
  {
    if upload.Err? {
      var reason := ResponseForUploadResult(upload, binaryUrl, operation).reason;
      assert reason[|UploadFailedPrefix|..] == upload.error.text;
    }
  }
}
