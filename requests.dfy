/**
 * The parts of an HTTP request the two actions read: the attributes the
 * authorization checker grants the caller, the form fields, and the uploaded
 * file; and the upload checks both actions run in the same order.
 */
module Requests {
  import opened Wrappers
  import opened HttpErrors
  import opened Guards
  import opened Service

  /** What the action learns of an upload through getError, getErrorMessage, getMimeType, getSize, the file's bytes and getClientOriginalName. */
  datatype UploadedFile = UploadedFile(
    error: int,
    errorMessage: string,
    mimeType: string,
    size: int,
    contents: seq<byte>,
    clientOriginalName: string)

  /**
   * A request: the attributes granted to the caller; `fields`, the named
   * values `requestGet` finds; `body`, the POST body parameters
   * (`$request->request`); and the upload under the key "file".
   */
  datatype Request = Request(granted: set<string>, fields: map<string, string>, body: map<string, string>,
                             file: Option<UploadedFile>)

  const UPLOAD_ERR_OK := 0
  const PDF_MIME_TYPE := "application/pdf"
  const IS_AUTHENTICATED_FULLY := "IS_AUTHENTICATED_FULLY"
  const NO_FILE_MESSAGE := "No file with parameter key \"file\" was received!"

  /** The 415 message; `verb` is "signed" or "verified", the word the two actions' messages differ in. */
  function NotPdfMessage(verb: string): string
  {
    "Only PDF files can be " + verb + "!"
  }

  function EmptyFileMessage(verb: string): string
  {
    "Empty files cannot be " + verb + "!"
  }

  /**
   * requestGet: a named value of the request, or null when it carries none.
   * The helper itself is not part of this model; it is taken to be one lookup
   * in `fields`.
   */
  function RequestGet(fields: map<string, string>, key: string): Option<string>
  {
    if key in fields then Some(fields[key]) else None
  }

  /** denyAccessUnlessGranted: passes when the caller is granted `attribute`. */
  function DenyAccessUnlessGranted(granted: set<string>, attribute: string): Check
  {
    Require(attribute in granted, AccessDenied(ACCESS_DENIED_MESSAGE))
  }

  /** An upload every check accepts. */
  predicate UploadAccepted(file: Option<UploadedFile>)
  {
    && file.Some?
    && file.value.error == UPLOAD_ERR_OK
    && file.value.mimeType == PDF_MIME_TYPE
    && file.value.size != 0
  }

  /**
   * The upload checks in order: a file is present, it arrived without
   * transport error, it is a PDF, it is not empty.
   */
  function UploadChecks(file: Option<UploadedFile>, verb: string): (checks: seq<Check>)
    ensures FirstFailure(checks).None? <==> UploadAccepted(file)
  {
    var present := Require(file.Some?, BadRequest(NO_FILE_MESSAGE));
    if file.None? then
      assert [present][0].Some?;
      [present]
    else
      var checks := [
        present,
        Require(file.value.error == UPLOAD_ERR_OK, BadRequest(file.value.errorMessage)),
        Require(file.value.mimeType == PDF_MIME_TYPE, UnsupportedMediaType(NotPdfMessage(verb))),
        Require(file.value.size != 0, BadRequest(EmptyFileMessage(verb)))];
      assert !UploadAccepted(file) ==> checks[1].Some? || checks[2].Some? || checks[3].Some?;
      checks
  }

  /** Each way an upload can be wrong has its own failure, and the earliest check in the order decides. */
  lemma UploadCheckOrder(file: Option<UploadedFile>, verb: string)
    ensures file.None? ==> FirstFailure(UploadChecks(file, verb)) == Some(BadRequest(NO_FILE_MESSAGE))
    ensures file.Some? && file.value.error != UPLOAD_ERR_OK ==>
              FirstFailure(UploadChecks(file, verb)) == Some(BadRequest(file.value.errorMessage))
    ensures file.Some? && file.value.error == UPLOAD_ERR_OK && file.value.mimeType != PDF_MIME_TYPE ==>
              FirstFailure(UploadChecks(file, verb)) == Some(UnsupportedMediaType(NotPdfMessage(verb)))
    ensures file.Some? && file.value.error == UPLOAD_ERR_OK && file.value.mimeType == PDF_MIME_TYPE && file.value.size == 0 ==>
              FirstFailure(UploadChecks(file, verb)) == Some(BadRequest(EmptyFileMessage(verb)))
  {
    var checks := UploadChecks(file, verb);
    if file.Some? {
      if file.value.error != UPLOAD_ERR_OK {
        FirstFailureIsFirst(checks, 1);
      } else if file.value.mimeType != PDF_MIME_TYPE {
        FirstFailureIsFirst(checks, 2);
      } else if file.value.size == 0 {
        FirstFailureIsFirst(checks, 3);
      }
    }
  }
}
