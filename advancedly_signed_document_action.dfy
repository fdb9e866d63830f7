/**
 * The signing endpoint: checks the caller, the profile and the upload, shapes
 * the signature position and the user texts, asks the backend to sign, and
 * fills an AdvancedlySignedDocument with the result.
 */
module AdvancedlySignedDocumentAction {
  import opened Wrappers
  import opened HttpErrors
  import opened Guards
  import opened Service
  import opened Json
  import opened Helpers
  import opened Requests
  import opened AdvancedlySignedDocumentEntity
  import opened BaseSigningController

  /** PHP's number conversions of a form field: `(int) round((float) s)` and `(int) s`. */
  datatype Conversions = Conversions(roundToInt: string -> int, intCast: string -> int)

  const MISSING_PROFILE_MESSAGE := "Missing \"profile\""

  /** `requestGet($request, key, '') !== ''`: the field is given and not empty. */
  predicate Given(fields: map<string, string>, key: string)
  {
    key in fields && fields[key] != ""
  }

  /** The value a given position field takes: p is cast, the others rounded. */
  function PositionValue(fields: map<string, string>, conv: Conversions, k: string): int
    requires k in fields
  {
    if k == "p" then conv.intCast(fields[k]) else conv.roundToInt(fields[k])
  }

  /** The position entries for the fields among `keys`. */
  function PositionDataOver(fields: map<string, string>, conv: Conversions, keys: set<string>): map<string, int>
  {
    map k | k in keys && Given(fields, k) :: PositionValue(fields, conv, k)
  }

  /** The signature position: x, y, w and r rounded, p cast, each only when given; there is no "h". */
  function PositionData(fields: map<string, string>, conv: Conversions): (positionData: map<string, int>)
    ensures forall k :: k in positionData <==> k in {"x", "y", "w", "r", "p"} && Given(fields, k)
  {
    PositionDataOver(fields, conv, {"x", "y", "w", "r", "p"})
  }

  /** Looking at one more field adds its entry exactly when it is given. */
  lemma PositionStep(fields: map<string, string>, conv: Conversions, keys: set<string>, k: string)
    ensures PositionDataOver(fields, conv, keys + {k}) ==
            if Given(fields, k) then PositionDataOver(fields, conv, keys)[k := PositionValue(fields, conv, k)]
            else PositionDataOver(fields, conv, keys)
  {
  }

  /** The positionData block of the action, key by key. */
  method BuildPositionData(fields: map<string, string>, conv: Conversions) returns (positionData: map<string, int>)
    ensures positionData == PositionData(fields, conv)
  {
    positionData := map[];
    assert positionData == PositionDataOver(fields, conv, {});
    if RequestGet(fields, "x").Some? && fields["x"] != "" {
      positionData := positionData["x" := conv.roundToInt(fields["x"])];
    }
    PositionStep(fields, conv, {}, "x");
    assert {} + {"x"} == {"x"};
    assert positionData == PositionDataOver(fields, conv, {"x"});
    if RequestGet(fields, "y").Some? && fields["y"] != "" {
      positionData := positionData["y" := conv.roundToInt(fields["y"])];
    }
    PositionStep(fields, conv, {"x"}, "y");
    assert {"x"} + {"y"} == {"x", "y"};
    assert positionData == PositionDataOver(fields, conv, {"x", "y"});
    // there is only "w": the backend takes no "h"
    if RequestGet(fields, "w").Some? && fields["w"] != "" {
      positionData := positionData["w" := conv.roundToInt(fields["w"])];
    }
    PositionStep(fields, conv, {"x", "y"}, "w");
    assert {"x", "y"} + {"w"} == {"x", "y", "w"};
    assert positionData == PositionDataOver(fields, conv, {"x", "y", "w"});
    if RequestGet(fields, "r").Some? && fields["r"] != "" {
      positionData := positionData["r" := conv.roundToInt(fields["r"])];
    }
    PositionStep(fields, conv, {"x", "y", "w"}, "r");
    assert {"x", "y", "w"} + {"r"} == {"x", "y", "w", "r"};
    assert positionData == PositionDataOver(fields, conv, {"x", "y", "w", "r"});
    if RequestGet(fields, "p").Some? && fields["p"] != "" {
      positionData := positionData["p" := conv.intCast(fields["p"])];
    }
    PositionStep(fields, conv, {"x", "y", "w", "r"}, "p");
    assert {"x", "y", "w", "r"} + {"p"} == {"x", "y", "w", "r", "p"};
    assert positionData == PositionDataOver(fields, conv, {"x", "y", "w", "r", "p"});
  }

  /**
   * checkProfilePermissions: the backend names the role the profile needs and
   * the caller must hold exactly that role; a backend failure denies access
   * with the backend's message. Both backend failures, unavailability
   * included, are caught by the one `catch (SigningException)`: this relies on
   * SigningUnavailableException extending SigningException, as the catch
   * order of the action's backend call also implies.
   */
  function CheckProfilePermissions(api: SignatureProvider, granted: set<string>, profileName: string): (denial: Check)
    ensures denial.None? <==>
              api.getAdvancedlySignRequiredRole(profileName).Ok? &&
              api.getAdvancedlySignRequiredRole(profileName).value in granted
    ensures denial.Some? ==> denial.value.AccessDenied?
    ensures !api.getAdvancedlySignRequiredRole(profileName).Ok? ==>
              denial == Some(AccessDenied(api.getAdvancedlySignRequiredRole(profileName).message))
  {
    match api.getAdvancedlySignRequiredRole(profileName)
    case Ok(role) => DenyAccessUnlessGranted(granted, role)
    case Unavailable(message) => Some(AccessDenied(message))
    case Failed(message) => Some(AccessDenied(message))
  }

  /** The checks on caller and profile: authenticated, a profile given, the profile's role held. */
  function ProfileChecks(req: Request, api: SignatureProvider): (checks: seq<Check>)
    ensures FirstFailure(checks).None? <==>
              && IS_AUTHENTICATED_FULLY in req.granted
              && "profile" in req.fields
              && CheckProfilePermissions(api, req.granted, req.fields["profile"]).None?
  {
    var profileName := RequestGet(req.fields, "profile");
    var first := [DenyAccessUnlessGranted(req.granted, IS_AUTHENTICATED_FULLY),
                  Require(profileName.Some?, BadRequest(MISSING_PROFILE_MESSAGE))];
    if profileName.None? then
      assert first[1].Some?;
      first
    else
      var checks := first + [CheckProfilePermissions(api, req.granted, profileName.value)];
      assert checks[2] == CheckProfilePermissions(api, req.granted, profileName.value);
      checks
  }

  /** Every check before the backend is called: all profile checks, then all upload checks. */
  function SignChecks(req: Request, api: SignatureProvider): (checks: seq<Check>)
    ensures FirstFailure(checks).None? <==> FirstFailure(ProfileChecks(req, api)).None? && UploadAccepted(req.file)
  {
    FirstFailureAppend(ProfileChecks(req, api), UploadChecks(req.file, "signed"));
    ProfileChecks(req, api) + UploadChecks(req.file, "signed")
  }

  /**
   * The user texts passed to the backend, read from the POST body only: none
   * without a `user_text` parameter, else what parseUserText makes of it,
   * whose every rejection is a 400.
   */
  function SigningUserText(body: map<string, string>, decodeJSON: string -> Option<Decoded>): (r: Result<seq<UserDefinedText>, Failure>)
    ensures "user_text" !in body ==> r == Success([])
    ensures r.Failure? ==> "user_text" in body && r.error.ApiError? && r.error.status == HTTP_BAD_REQUEST
  {
    if "user_text" in body then UserTextOutcome(decodeJSON(body["user_text"])) else Success([])
  }

  /**
   * What the action returns or throws for a request, a generated request id
   * and its collaborators. It succeeds exactly when every check passes, the
   * user texts are accepted and the backend signs, and then every field of
   * the document is set, the identifier to the request id.
   */
  function SignOutcome(req: Request, requestId: string, api: SignatureProvider, conv: Conversions, tools: Tools,
                       decodeJSON: string -> Option<Decoded>): (r: Result<DocumentFields, Failure>)
    ensures r.Success? <==>
              && FirstFailure(SignChecks(req, api)).None?
              && SigningUserText(req.body, decodeJSON).Success?
              && api.advancedlySignPdfData(req.file.value.contents, req.fields["profile"], requestId,
                                           PositionData(req.fields, conv), SigningUserText(req.body, decodeJSON).value).Ok?
    ensures r.Success? ==>
              && r.value.identifier == Some(requestId)
              && r.value.contentUrl.Some? && r.value.name.Some? && r.value.contentSize.Some?
  {
    var denial := FirstFailure(SignChecks(req, api));
    if denial.Some? then Failure(denial.value)
    else
      var file := req.file.value;
      var userText := SigningUserText(req.body, decodeJSON);
      if userText.Failure? then Failure(userText.error)
      else
        match api.advancedlySignPdfData(file.contents, req.fields["profile"], requestId, PositionData(req.fields, conv), userText.value)
        case Unavailable(message) => Failure(ServiceUnavailable(UNAVAILABLE_RETRY_AFTER, message))
        case Failed(message) => Failure(ApiError(HTTP_BAD_GATEWAY, message))
        case Ok(signed) =>
          Success(DocumentFields(Some(requestId), Some(tools.getDataURI(signed, PDF_MIME_TYPE)),
                                 Some(tools.generateSignedFileName(file.clientOriginalName)), Some(|signed|)))
  }

  function DocumentOf(r: Result<AdvancedlySignedDocument, Failure>): Result<DocumentFields, Failure>
    reads if r.Success? then {r.value} else {}
  {
    if r.Failure? then Failure(r.error) else Success(r.value.Fields())
  }

  /** The action, step by step as the controller runs it. */
  method CreateAdvancedlySignedDocument(req: Request, requestId: string, api: SignatureProvider, conv: Conversions,
                                        tools: Tools, decodeJSON: string -> Option<Decoded>)
    returns (r: Result<AdvancedlySignedDocument, Failure>)
    ensures DocumentOf(r) == SignOutcome(req, requestId, api, conv, tools, decodeJSON)
  {
    var profileChecks := ProfileChecks(req, api);
    FirstFailureAppend(profileChecks, UploadChecks(req.file, "signed"));
    if IS_AUTHENTICATED_FULLY !in req.granted {
      FirstFailureIsFirst(profileChecks, 0);
      return Failure(AccessDenied(ACCESS_DENIED_MESSAGE));
    }
    var profileName := RequestGet(req.fields, "profile");
    if profileName.None? {
      FirstFailureIsFirst(profileChecks, 1);
      return Failure(BadRequest(MISSING_PROFILE_MESSAGE));
    }
    var denial := CheckProfilePermissions(api, req.granted, profileName.value);
    if denial.Some? {
      FirstFailureIsFirst(profileChecks, 2);
      return Failure(denial.value);
    }

    UploadCheckOrder(req.file, "signed");
    var uploadedFile := req.file;
    if uploadedFile.None? {
      return Failure(BadRequest(NO_FILE_MESSAGE));
    }
    var file := uploadedFile.value;
    if file.error != UPLOAD_ERR_OK {
      return Failure(BadRequest(file.errorMessage));
    }
    if file.mimeType != PDF_MIME_TYPE {
      return Failure(UnsupportedMediaType(NotPdfMessage("signed")));
    }
    if file.size == 0 {
      return Failure(BadRequest(EmptyFileMessage("signed")));
    }

    var positionData := BuildPositionData(req.fields, conv);

    var userText: seq<UserDefinedText> := [];
    if "user_text" in req.body {
      var parsed := ParseUserText(req.body["user_text"], decodeJSON);
      if parsed.Failure? {
        return Failure(parsed.error);
      }
      userText := parsed.value;
    }

    var answer := api.advancedlySignPdfData(file.contents, profileName.value, requestId, positionData, userText);
    if answer.Unavailable? {
      return Failure(ServiceUnavailable(UNAVAILABLE_RETRY_AFTER, answer.message));
    }
    if answer.Failed? {
      return Failure(ApiError(HTTP_BAD_GATEWAY, answer.message));
    }
    var signedPdfData := answer.value;

    var signedFileName := tools.generateSignedFileName(file.clientOriginalName);

    var document := new AdvancedlySignedDocument();
    var _ := document.SetIdentifier(requestId);
    document.SetContentUrl(tools.getDataURI(signedPdfData, PDF_MIME_TYPE));
    var _ := document.SetName(signedFileName);
    var _ := document.SetContentSize(|signedPdfData|);
    r := Success(document);
  }

  // ---------------------------------------------------------------------------
  // Properties of the action.

  /** Caller and profile are checked before the upload: when they fail, the upload makes no difference. */
  lemma ProfileChecksPrecedeFileChecks(req: Request, file: Option<UploadedFile>, requestId: string, api: SignatureProvider,
                                       conv: Conversions, tools: Tools, decodeJSON: string -> Option<Decoded>)
    requires FirstFailure(ProfileChecks(req, api)).Some?
    ensures SignOutcome(req, requestId, api, conv, tools, decodeJSON) ==
            SignOutcome(req.(file := file), requestId, api, conv, tools, decodeJSON) ==
            Failure(FirstFailure(ProfileChecks(req, api)).value)
  {
    FirstFailureAppend(ProfileChecks(req, api), UploadChecks(req.file, "signed"));
    FirstFailureAppend(ProfileChecks(req, api), UploadChecks(file, "signed"));
    assert ProfileChecks(req.(file := file), api) == ProfileChecks(req, api);
  }

  /** The order of the caller and profile checks, each with its own failure. */
  lemma ProfileCheckOrder(req: Request, requestId: string, api: SignatureProvider, conv: Conversions, tools: Tools,
                          decodeJSON: string -> Option<Decoded>)
    ensures IS_AUTHENTICATED_FULLY !in req.granted ==>
              SignOutcome(req, requestId, api, conv, tools, decodeJSON) == Failure(AccessDenied(ACCESS_DENIED_MESSAGE))
    ensures IS_AUTHENTICATED_FULLY in req.granted && "profile" !in req.fields ==>
              SignOutcome(req, requestId, api, conv, tools, decodeJSON) == Failure(BadRequest(MISSING_PROFILE_MESSAGE))
    ensures IS_AUTHENTICATED_FULLY in req.granted && "profile" in req.fields &&
            CheckProfilePermissions(api, req.granted, req.fields["profile"]).Some? ==>
              SignOutcome(req, requestId, api, conv, tools, decodeJSON) ==
              Failure(CheckProfilePermissions(api, req.granted, req.fields["profile"]).value)
    ensures FirstFailure(ProfileChecks(req, api)).None? && FirstFailure(UploadChecks(req.file, "signed")).Some? ==>
              SignOutcome(req, requestId, api, conv, tools, decodeJSON) ==
              Failure(FirstFailure(UploadChecks(req.file, "signed")).value)
  {
    var checks := ProfileChecks(req, api);
    FirstFailureAppend(checks, UploadChecks(req.file, "signed"));
    if IS_AUTHENTICATED_FULLY !in req.granted {
      FirstFailureIsFirst(checks, 0);
    } else if "profile" !in req.fields {
      FirstFailureIsFirst(checks, 1);
    } else if CheckProfilePermissions(api, req.granted, req.fields["profile"]).Some? {
      FirstFailureIsFirst(checks, 2);
    }
  }

  /** The position block holds exactly the given fields among x, y, w, r, p (never "h"), rounded or cast. */
  lemma PositionDataShape(fields: map<string, string>, conv: Conversions)
    ensures forall k :: k in PositionData(fields, conv) <==> k in {"x", "y", "w", "r", "p"} && Given(fields, k)
    ensures "h" !in PositionData(fields, conv)
    ensures forall k :: k in {"x", "y", "w", "r"} && Given(fields, k) ==> PositionData(fields, conv)[k] == conv.roundToInt(fields[k])
    ensures Given(fields, "p") ==> PositionData(fields, conv)["p"] == conv.intCast(fields["p"])
  {
  }

  /**
   * Once the checks pass: a rejected `user_text` is the response and the
   * backend is not consulted; otherwise the backend's failures map to 503
   * (Retry-After 100) and 502 with its message.
   */
  lemma AfterTheChecks(req: Request, requestId: string, api: SignatureProvider, conv: Conversions, tools: Tools,
                       decodeJSON: string -> Option<Decoded>)
    requires FirstFailure(SignChecks(req, api)).None?
    ensures "user_text" !in req.body ==> SigningUserText(req.body, decodeJSON) == Success([])
    ensures SigningUserText(req.body, decodeJSON).Failure? ==>
              SignOutcome(req, requestId, api, conv, tools, decodeJSON) == Failure(SigningUserText(req.body, decodeJSON).error)
    ensures SigningUserText(req.body, decodeJSON).Success? ==>
      var answer := api.advancedlySignPdfData(req.file.value.contents, req.fields["profile"], requestId,
                                              PositionData(req.fields, conv), SigningUserText(req.body, decodeJSON).value);
      && (answer.Unavailable? ==> SignOutcome(req, requestId, api, conv, tools, decodeJSON) == Failure(ServiceUnavailable(100, answer.message)))
      && (answer.Failed? ==> SignOutcome(req, requestId, api, conv, tools, decodeJSON) == Failure(ApiError(502, answer.message)))
  {
  }

  /**
   * A signed document is returned only when every check passes and the
   * backend signs; its identifier is the request id given to the backend,
   * its size the length of the signed bytes, its URL the data URI of those
   * bytes as application/pdf, its name derived from the client's file name.
   */
  lemma SignedDocumentFields(req: Request, requestId: string, api: SignatureProvider, conv: Conversions, tools: Tools,
                             decodeJSON: string -> Option<Decoded>)
    requires SignOutcome(req, requestId, api, conv, tools, decodeJSON).Success?
    ensures IS_AUTHENTICATED_FULLY in req.granted && "profile" in req.fields && UploadAccepted(req.file)
    ensures CheckProfilePermissions(api, req.granted, req.fields["profile"]).None?
    ensures SigningUserText(req.body, decodeJSON).Success?
    ensures var answer := api.advancedlySignPdfData(req.file.value.contents, req.fields["profile"], requestId,
                                                    PositionData(req.fields, conv), SigningUserText(req.body, decodeJSON).value);
      var doc := SignOutcome(req, requestId, api, conv, tools, decodeJSON).value;
      && answer.Ok?
      && doc.identifier == Some(requestId)
      && doc.contentSize == Some(|answer.value|)
      && doc.contentUrl == Some(tools.getDataURI(answer.value, "application/pdf"))
      && doc.name == Some(tools.generateSignedFileName(req.file.value.clientOriginalName))
  {
  }

  /**
   * A decoder in associative mode returns PHP arrays, never a Traversable.
   * With such a decoder every `user_text` is rejected with 400 "invalid
   * content" (or "invalid JSON"), so a request that carries one and passes
   * the checks is never signed.
   */
  lemma NonTraversableDecoderRejectsUserText(req: Request, requestId: string, api: SignatureProvider, conv: Conversions,
                                             tools: Tools, decodeJSON: string -> Option<Decoded>)
    requires forall data :: decodeJSON(data).None? || decodeJSON(data).value.NotTraversable?
    requires "user_text" in req.body
    ensures SigningUserText(req.body, decodeJSON).Failure?
    ensures SignOutcome(req, requestId, api, conv, tools, decodeJSON).Failure?
    ensures FirstFailure(SignChecks(req, api)).None? ==>
              SignOutcome(req, requestId, api, conv, tools, decodeJSON) ==
              Failure(ApiError(HTTP_BAD_REQUEST, if decodeJSON(req.body["user_text"]).None? then "invalid JSON" else "invalid content"))
  {
  }
}
