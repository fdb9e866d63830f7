/**
 * The verification endpoint: checks the caller and the upload, asks the
 * backend to verify the PDF, and turns each signature it reports into an
 * ElectronicSignature by reading the signer's distinguished name.
 */
module VerificationReportAction {
  import opened Wrappers
  import opened HttpErrors
  import opened Guards
  import opened Strings
  import opened Service
  import opened Requests
  import opened ElectronicSignatureEntity
  import opened DistinguishedName

  const VERIFY_SIGNATURE_SCOPE := "ROLE_SCOPE_VERIFY-SIGNATURE"

  /** The report the action returns. Its entity class is not part of this model; its three setters become a record. */
  datatype VerificationReport = VerificationReport(identifier: string, name: string, signatures: seq<ElectronicSignature>)

  /** The report with each signature replaced by its fields. */
  datatype ReportFields = ReportFields(identifier: string, name: string, signatures: seq<SignatureFields>)

  function ReportOf(r: Result<VerificationReport, Failure>): Result<ReportFields, Failure>
    reads if r.Success? then set s | s in r.value.signatures else {}
  {
    if r.Failure? then Failure(r.error)
    else
      var sigs := r.value.signatures;
      Success(ReportFields(r.value.identifier, r.value.name,
        seq(|sigs|, i reads if 0 <= i < |sigs| then {sigs[i]} else {} requires 0 <= i < |sigs| => sigs[i].Fields())))
  }

  /** The checks before the backend is called: authenticated, holding the verify scope, then the upload checks. */
  function VerifyChecks(req: Request): (checks: seq<Check>)
    ensures FirstFailure(checks).None? <==>
              IS_AUTHENTICATED_FULLY in req.granted && VERIFY_SIGNATURE_SCOPE in req.granted && UploadAccepted(req.file)
  {
    var access := [DenyAccessUnlessGranted(req.granted, IS_AUTHENTICATED_FULLY),
                   DenyAccessUnlessGranted(req.granted, VERIFY_SIGNATURE_SCOPE)];
    FirstFailureAppend(access, UploadChecks(req.file, "verified"));
    access + UploadChecks(req.file, "verified")
  }

  /** A signature as constructed for one backend result: signer name and message copied. */
  function Start(result: VerificationResult): SignatureFields
  {
    Unset.(signedBy := Some(result.signedBy), valueMessage := Some(result.valueMessage))
  }

  /** The fallback identifier built from the request id and the signature's index. */
  function FallbackIdentifier(requestId: string, signatureIndex: int): string
  {
    "ri-" + requestId + "-" + DecimalString(signatureIndex)
  }

  /**
   * The signature the action builds for one backend result (the loop body of
   * the action): it holds the result's signer name and message, and its
   * identifier is null or an `sn-` name.
   */
  function SignatureFor(result: VerificationResult, requestId: string): (s: SignatureFields)
    ensures s.signedBy == Some(result.signedBy) && s.valueMessage == Some(result.valueMessage)
    ensures s.identifier.None? || SerialIdentifier(s.identifier.value)
  {
    var parsed := ParseSignedBy(Start(result), result.signedBy);
    if parsed.identifier == Some("") then parsed.(identifier := Some(FallbackIdentifier(requestId, result.signatureIndex)))
    else parsed
  }

  /**
   * What the action returns or throws for a request, a generated request id
   * and the backend. It succeeds exactly when every check passes and the
   * backend verifies, and the report then has one signature per result.
   */
  function VerifyOutcome(req: Request, requestId: string, api: SignatureProvider): (r: Result<ReportFields, Failure>)
    ensures r.Success? <==>
              FirstFailure(VerifyChecks(req)).None? && api.verifyPdfData(req.file.value.contents, requestId).Ok?
    ensures r.Success? ==>
              && r.value.identifier == requestId
              && r.value.name == req.file.value.clientOriginalName
              && |r.value.signatures| == |api.verifyPdfData(req.file.value.contents, requestId).value|
  {
    var denial := FirstFailure(VerifyChecks(req));
    if denial.Some? then Failure(denial.value)
    else
      var file := req.file.value;
      match api.verifyPdfData(file.contents, requestId)
      case Unavailable(message) => Failure(ServiceUnavailable(UNAVAILABLE_RETRY_AFTER, message))
      case Failed(message) => Failure(ApiError(HTTP_BAD_GATEWAY, message))
      case Ok(results) =>
        Success(ReportFields(requestId, file.clientOriginalName,
          seq(|results|, i requires 0 <= i < |results| => SignatureFor(results[i], requestId))))
  }

  /** The inner loop of the action: read the distinguished name segment by segment into `signature`. */
  method ReadSignedBy(signature: ElectronicSignature, signedBy: string)
    modifies signature
    ensures signature.Fields() == ParseSignedBy(old(signature.Fields()), signedBy)
  {
    var signedByData := Split(signedBy, ',');
    var i := 0;
    while i < |signedByData|
      invariant 0 <= i <= |signedByData|
      invariant ParseDeclarations(signature.Fields(), signedByData[i..]) == ParseSignedBy(old(signature.Fields()), signedBy)
    {
      var declaration := signedByData[i];
      if declaration == "" {
        break;
      }
      assert signedByData[i..][1..] == signedByData[i + 1..];
      var pieces := Split(declaration, '=');
      var variable := pieces[0];
      var value := if |pieces| >= 2 then Some(pieces[1]) else None;
      if variable == "serialNumber" {
        var _ := signature.SetIdentifier("sn-" + Text(value));
        var _ := signature.SetSerialNumber(value);
      } else if variable == "givenName" {
        var _ := signature.SetGivenName(value);
      } else if variable == "SN" {
        var _ := signature.SetFamilyName(value);
      } else if variable == "C" {
        var _ := signature.SetNationality(value);
      }
      i := i + 1;
    }
  }

  /** One iteration of the outer loop: a new signature for one backend result. */
  method BuildSignature(result: VerificationResult, requestId: string) returns (signature: ElectronicSignature)
    ensures fresh(signature)
    ensures signature.Fields() == SignatureFor(result, requestId)
  {
    signature := new ElectronicSignature();
    var signedBy := result.signedBy;
    var _ := signature.SetSignedBy(Some(signedBy));
    var _ := signature.SetValueMessage(Some(result.valueMessage));
    ReadSignedBy(signature, signedBy);
    if signature.GetIdentifier() == Some("") {
      var _ := signature.SetIdentifier(FallbackIdentifier(requestId, result.signatureIndex));
    }
  }

  /** The action: the checks in order, the backend call with its two failure mappings, then the report. */
  method CreateVerificationReport(req: Request, requestId: string, api: SignatureProvider)
    returns (r: Result<VerificationReport, Failure>)
    ensures ReportOf(r) == VerifyOutcome(req, requestId, api)
  {
    var checks := VerifyChecks(req);
    if IS_AUTHENTICATED_FULLY !in req.granted {
      FirstFailureIsFirst(checks, 0);
      return Failure(AccessDenied(ACCESS_DENIED_MESSAGE));
    }
    if VERIFY_SIGNATURE_SCOPE !in req.granted {
      FirstFailureIsFirst(checks, 1);
      return Failure(AccessDenied(ACCESS_DENIED_MESSAGE));
    }
    UploadCheckOrder(req.file, "verified");
    FirstFailureAppend(checks[..2], UploadChecks(req.file, "verified"));
    assert checks == checks[..2] + UploadChecks(req.file, "verified");

    var uploadedFile := req.file;
    if uploadedFile.None? {
      return Failure(BadRequest(NO_FILE_MESSAGE));
    }
    var file := uploadedFile.value;
    if file.error != UPLOAD_ERR_OK {
      return Failure(BadRequest(file.errorMessage));
    }
    if file.mimeType != PDF_MIME_TYPE {
      return Failure(UnsupportedMediaType(NotPdfMessage("verified")));
    }
    if file.size == 0 {
      return Failure(BadRequest(EmptyFileMessage("verified")));
    }

    var response := api.verifyPdfData(file.contents, requestId);
    if response.Unavailable? {
      return Failure(ServiceUnavailable(UNAVAILABLE_RETRY_AFTER, response.message));
    }
    if response.Failed? {
      return Failure(ApiError(HTTP_BAD_GATEWAY, response.message));
    }
    var results := response.value;

    var signatures: seq<ElectronicSignature> := [];
    for i := 0 to |results|
      invariant |signatures| == i
      invariant forall j :: 0 <= j < i ==> signatures[j].Fields() == SignatureFor(results[j], requestId)
    {
      var signature := BuildSignature(results[i], requestId);
      signatures := signatures + [signature];
    }
    r := Success(VerificationReport(requestId, file.clientOriginalName, signatures));
    assert FirstFailure(checks).None?;
    ghost var expected := seq(|results|, i requires 0 <= i < |results| => SignatureFor(results[i], requestId));
    assert VerifyOutcome(req, requestId, api) == Success(ReportFields(requestId, file.clientOriginalName, expected));
    assert ReportOf(r).value.signatures == expected;
  }

  /**
   * The signature built for one result, field by field. signedBy and
   * valueMessage are the result's own, whatever the name contains; the other
   * fields come from the last segment with their key before the first empty
   * segment. The identifier is `sn-<serial number>` or stays null: it is
   * never the empty string, so the `ri-` fallback is never applied.
   */
  lemma SignatureFromResult(result: VerificationResult, requestId: string)
    ensures var s := SignatureFor(result, requestId);
      var E := Effective(Split(result.signedBy, ','));
      && s == ParseSignedBy(Start(result), result.signedBy)
      && s.signedBy == Some(result.signedBy)
      && s.valueMessage == Some(result.valueMessage)
      && s.identifier == IdentifierFrom(LastValue("serialNumber", E), None)
      && s.serialNumber == Latest(LastValue("serialNumber", E), None)
      && s.givenName == Latest(LastValue("givenName", E), None)
      && s.familyName == Latest(LastValue("SN", E), None)
      && s.nationality == Latest(LastValue("C", E), None)
  {
    ParsedFields(Start(result), result.signedBy);
    var parsed := ParseSignedBy(Start(result), result.signedBy);
    if parsed.identifier.Some? {
      assert |parsed.identifier.value| >= 3;
    }
  }

  /** The fallback identifier never appears in a signature. */
  lemma FallbackNeverApplies(result: VerificationResult, requestId: string)
    ensures SignatureFor(result, requestId).identifier != Some(FallbackIdentifier(requestId, result.signatureIndex))
  {
    SignatureFromResult(result, requestId);
    var id := SignatureFor(result, requestId).identifier;
    if id.Some? {
      assert id.value[..3] == "sn-";
      assert FallbackIdentifier(requestId, result.signatureIndex)[..3] == "ri-";
    }
  }

  /**
   * A report is produced only when every check passes and the backend
   * verifies; it carries the request id and the client's file name, and one
   * signature per backend result, in the backend's order, each holding that
   * result's signer name and message.
   */
  lemma ReportFollowsResults(req: Request, requestId: string, api: SignatureProvider)
    requires VerifyOutcome(req, requestId, api).Success?
    ensures IS_AUTHENTICATED_FULLY in req.granted && VERIFY_SIGNATURE_SCOPE in req.granted && UploadAccepted(req.file)
    ensures api.verifyPdfData(req.file.value.contents, requestId).Ok?
    ensures var report := VerifyOutcome(req, requestId, api).value;
      var results := api.verifyPdfData(req.file.value.contents, requestId).value;
      && report.identifier == requestId
      && report.name == req.file.value.clientOriginalName
      && |report.signatures| == |results|
      && forall i :: 0 <= i < |results| ==>
           report.signatures[i].signedBy == Some(results[i].signedBy) &&
           report.signatures[i].valueMessage == Some(results[i].valueMessage)
  {
    var results := api.verifyPdfData(req.file.value.contents, requestId).value;
    forall i | 0 <= i < |results|
      ensures SignatureFor(results[i], requestId).signedBy == Some(results[i].signedBy)
      ensures SignatureFor(results[i], requestId).valueMessage == Some(results[i].valueMessage)
    {
      SignatureFromResult(results[i], requestId);
    }
  }

  /** The backend is consulted only after every check passes: a failing check decides the outcome whatever the backend would answer. */
  lemma ChecksDecideBeforeBackend(req: Request, requestId: string, api: SignatureProvider, otherId: string, other: SignatureProvider)
    requires FirstFailure(VerifyChecks(req)).Some?
    ensures VerifyOutcome(req, requestId, api) == VerifyOutcome(req, otherId, other) == Failure(FirstFailure(VerifyChecks(req)).value)
  {
  }

  /** Backend failures: unavailability becomes 503 with Retry-After 100, any other failure 502 with the backend's message. */
  lemma BackendFailureMapping(req: Request, requestId: string, api: SignatureProvider)
    requires FirstFailure(VerifyChecks(req)).None?
    ensures var answer := api.verifyPdfData(req.file.value.contents, requestId);
      && (answer.Unavailable? ==> VerifyOutcome(req, requestId, api) == Failure(ServiceUnavailable(100, answer.message)))
      && (answer.Failed? ==> VerifyOutcome(req, requestId, api) == Failure(ApiError(502, answer.message)))
      && (VerifyOutcome(req, requestId, api).Success? <==> answer.Ok?)
  {
  }

  /** The order of the verification checks, each with its own failure: 403, 403, then the upload checks. */
  lemma VerifyCheckOrder(req: Request, requestId: string, api: SignatureProvider)
    ensures IS_AUTHENTICATED_FULLY !in req.granted ==>
              VerifyOutcome(req, requestId, api) == Failure(AccessDenied(ACCESS_DENIED_MESSAGE))
    ensures IS_AUTHENTICATED_FULLY in req.granted && VERIFY_SIGNATURE_SCOPE !in req.granted ==>
              VerifyOutcome(req, requestId, api) == Failure(AccessDenied(ACCESS_DENIED_MESSAGE))
    ensures IS_AUTHENTICATED_FULLY in req.granted && VERIFY_SIGNATURE_SCOPE in req.granted &&
            FirstFailure(UploadChecks(req.file, "verified")).Some? ==>
              VerifyOutcome(req, requestId, api) == Failure(FirstFailure(UploadChecks(req.file, "verified")).value)
  {
    var access := [DenyAccessUnlessGranted(req.granted, IS_AUTHENTICATED_FULLY),
                   DenyAccessUnlessGranted(req.granted, VERIFY_SIGNATURE_SCOPE)];
    FirstFailureAppend(access, UploadChecks(req.file, "verified"));
    if IS_AUTHENTICATED_FULLY !in req.granted {
      FirstFailureIsFirst(access, 0);
    } else if VERIFY_SIGNATURE_SCOPE !in req.granted {
      FirstFailureIsFirst(access, 1);
    }
  }
}
