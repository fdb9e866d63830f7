# dbp-relay-esign-bundle, modelled in Dafny

This project models the core of the electronic-signature bundle of the Digital
Blueprint relay API server:

- the signature verification action. It authorises the caller, validates the
  uploaded PDF and asks the signature backend to verify it. It then turns each
  verification result into an `ElectronicSignature` by reading the signer's
  distinguished name (`serialNumber=…,givenName=…,SN=…,C=…`) and returns a
  verification report;
- the advanced signing action. It authorises the caller and the requested
  signing profile, validates the upload, reads the optional position fields
  (`x`, `y`, `w`, `r`, `p`) and the optional `user_text` JSON, calls the
  backend and returns an `AdvancedlySignedDocument` with a data URI;
- `parseUserText` from the shared signing controller;
- the two entities, as classes whose setters update fields in place;
- the dependency-injection extension. It appends the entity directory and the
  API paths to hide to list parameters of the service container, and stores
  the bundle configuration.

Modules:

| file | module | content |
|---|---|---|
| `wrappers.dfy` | `Wrappers` | `Option`, `Result` |
| `http_errors.dfy` | `HttpErrors` | the HTTP failures the actions raise, with their status codes |
| `guards.dfy` | `Guards` | a sequence of checks; the first failing check decides the outcome |
| `strings.dfy` | `Strings` | splitting on one character (`preg_split` with a one-character pattern) and its inverse |
| `json.dfy` | `Json` | the shape of a decoded `user_text` payload |
| `service.dfy` | `Service` | the signature backend as a record of functions |
| `helpers.dfy` | `Helpers` | file-name and data-URI helpers as functions |
| `requests.dfy` | `Requests` | request, upload, access and upload checks |
| `electronic_signature.dfy` | `ElectronicSignatureEntity` | the `ElectronicSignature` class |
| `advancedly_signed_document.dfy` | `AdvancedlySignedDocumentEntity` | the `AdvancedlySignedDocument` class |
| `distinguished_name.dfy` | `DistinguishedName` | how a signer's distinguished name fills a signature |
| `base_signing_controller.dfy` | `BaseSigningController` | `parseUserText` |
| `verification_report_action.dfy` | `VerificationReportAction` | the verification action |
| `advancedly_signed_document_action.dfy` | `AdvancedlySignedDocumentAction` | the signing action and the profile permission check |
| `dbp_esign_extension.dfy` | `DbpEsignExtension` | `loadInternal`, `extendArrayParameter` and a service container |

Each action is written twice:

- as a method that works step by step, as the PHP code does. It builds
  entity objects through their setters and returns early on the first
  failure.
- as a specification function over values (`VerifyOutcome`, `SignOutcome`).

The method's postcondition ties the two together. The lemmas about the
specification functions state what the actions promise:

- the order in which checks fire;
- the checks decide the outcome before the backend is consulted;
- how backend failures become HTTP errors;
- what the returned report or document contains.

Three places where the code as written does something other than what it
evidently sets out to do are modelled as written:

- The comment at
  `src/Controller/CreateElectronicSignatureVerificationReportAction.php:110`
  says a fallback identifier `ri-<requestId>-<index>` is used when no serial
  number was set. The code applies it only when the identifier equals `''`.
  A fresh signature's identifier is null, and the only identifier the loop
  can set starts with `sn-`, so the fallback never fires. A signature
  without a serial number keeps a null identifier. `FallbackNeverApplies`
  proves that the fallback is dead.
- A name segment without `=` has a null value, and its key is still matched.
  The segment `serialNumber` alone gives the identifier `sn-` and a null
  serial number (`SegmentWithoutEquals`).
- `parseUserText` decodes in associative mode
  (`src/Controller/BaseSigningController.php:23`), which yields PHP arrays.
  It then rejects every value that is not a `\Traversable` (:27-29). An
  array is not one, so with that decoder every `user_text` is rejected with
  400: "invalid JSON" if it does not decode (:22-26), otherwise "invalid
  content". The loops at :30-43 are never reached. A
  signing request that carries `user_text` and passes the checks therefore
  always fails. The model keeps the decoder as a parameter, so the loops
  stay described. `NonTraversableDecoderRejectsUserText` states the
  consequence for every decoder that never returns a traversable value.

## Model

| member | source | states |
|---|---|---|
| Guards.FirstFailureIsFirst | src/Controller/CreateElectronicSignatureVerificationReportAction.php:39-63 | when checks 0..i-1 pass and check i fails, check i's failure is the outcome; later checks do not matter |
| Guards.FirstFailureHasIndex | src/Controller/CreateAdvancedlySignedDocumentAction.php:47-77 | a failing outcome is the failure of some check whose predecessors all pass |
| Guards.FirstFailureAppend | src/Controller/CreateAdvancedlySignedDocumentAction.php:47-77 | running two lists of checks one after the other: the first list decides if any of its checks fails, otherwise the second |
| Strings.Split | src/Controller/CreateElectronicSignatureVerificationReportAction.php:85 | splitting on a character gives at least one piece, and no piece contains the separator |
| Strings.JoinSplit | src/Controller/CreateElectronicSignatureVerificationReportAction.php:85 | joining the pieces with the separator gives back the original string, so splitting loses no text |
| Strings.SplitJoin | src/Controller/CreateElectronicSignatureVerificationReportAction.php:91 | splitting a join of separator-free pieces gives back exactly those pieces |
| Strings.SplitFirst | src/Controller/CreateElectronicSignatureVerificationReportAction.php:91 | the first piece is the text before the first separator; there is one piece exactly when the string has no separator; the remaining pieces are the split of what follows the first separator |
| Strings.DecimalString | src/Controller/CreateElectronicSignatureVerificationReportAction.php:112 | an integer concatenated to a string is written as `-` for a negative number, followed by decimal digits |
| Strings.DecimalStringValue | src/Controller/CreateElectronicSignatureVerificationReportAction.php:112 | reading the written digits back gives the number's absolute value, and the sign is `-` exactly for negative numbers |
| Strings.NaturalDigitsValue | src/Controller/CreateElectronicSignatureVerificationReportAction.php:112 | the digits written for a natural number stand for that number |
| Strings.SplitAfterPrefix | src/Controller/CreateElectronicSignatureVerificationReportAction.php:85 | the first piece is the text before the first separator, and the rest is the split of what follows |
| ElectronicSignatureEntity.ElectronicSignature.constructor | src/Entity/ElectronicSignature.php:19-63 | a new signature has every field null |
| ElectronicSignatureEntity.ElectronicSignature.SetIdentifier | src/Entity/ElectronicSignature.php:65-70 | sets the identifier to the given string, returns the same object, leaves the other fields unchanged |
| ElectronicSignatureEntity.ElectronicSignature.SetGivenName | src/Entity/ElectronicSignature.php:82-87 | sets the given name (null allowed), returns the same object, leaves the other fields unchanged |
| ElectronicSignatureEntity.ElectronicSignature.SetFamilyName | src/Entity/ElectronicSignature.php:94-99 | sets the family name, returns the same object, leaves the other fields unchanged |
| ElectronicSignatureEntity.ElectronicSignature.SetSerialNumber | src/Entity/ElectronicSignature.php:106-111 | sets the serial number, returns the same object, leaves the other fields unchanged |
| ElectronicSignatureEntity.ElectronicSignature.SetSignedBy | src/Entity/ElectronicSignature.php:118-123 | sets the signer name, returns the same object, leaves the other fields unchanged |
| ElectronicSignatureEntity.ElectronicSignature.SetNationality | src/Entity/ElectronicSignature.php:130-135 | sets the nationality, returns the same object, leaves the other fields unchanged |
| ElectronicSignatureEntity.ElectronicSignature.SetValueMessage | src/Entity/ElectronicSignature.php:142-147 | sets the verification message, returns the same object, leaves the other fields unchanged |
| AdvancedlySignedDocumentEntity.AdvancedlySignedDocument.constructor | src/Entity/AdvancedlySignedDocument.php:90-119 | a new document has every field unset |
| AdvancedlySignedDocumentEntity.AdvancedlySignedDocument.SetIdentifier | src/Entity/AdvancedlySignedDocument.php:121-126 | sets the identifier, returns the same object, leaves the other fields unchanged |
| AdvancedlySignedDocumentEntity.AdvancedlySignedDocument.SetContentUrl | src/Entity/AdvancedlySignedDocument.php:138-141 | sets the content URL (returns nothing), leaves the other fields unchanged |
| AdvancedlySignedDocumentEntity.AdvancedlySignedDocument.SetName | src/Entity/AdvancedlySignedDocument.php:148-153 | sets the name, returns the same object, leaves the other fields unchanged |
| AdvancedlySignedDocumentEntity.AdvancedlySignedDocument.SetContentSize | src/Entity/AdvancedlySignedDocument.php:155-165 | sets the content size, which the getter then returns; returns the same object; leaves the other fields unchanged |
| DistinguishedName.Key | src/Controller/CreateElectronicSignatureVerificationReportAction.php:91 | the key is the segment's text before its first `=` (the whole segment when it has none) and contains no `=` |
| DistinguishedName.Value | src/Controller/CreateElectronicSignatureVerificationReportAction.php:91 | the value is null exactly when the segment has no `=`, and otherwise the text after the first `=` up to the next `=` or the end |
| DistinguishedName.ApplyDeclaration | src/Controller/CreateElectronicSignatureVerificationReportAction.php:93-107 | `serialNumber` sets the serial number and the identifier `sn-<value>`; `givenName`, `SN` and `C` set given name, family name and nationality; any other key, and signer name and message, leave the fields unchanged |
| DistinguishedName.ParseDeclarations | src/Controller/CreateElectronicSignatureVerificationReportAction.php:86-108 | applying segments up to the first empty one keeps signer name and message, and leaves the identifier unchanged or an `sn-` name |
| DistinguishedName.ParseSignedBy | src/Controller/CreateElectronicSignatureVerificationReportAction.php:85-108 | reading a distinguished name keeps signer name and message, and leaves the identifier unchanged or an `sn-` name |
| DistinguishedName.Effective | src/Controller/CreateElectronicSignatureVerificationReportAction.php:86-89 | the segments read are the longest prefix without an empty segment; if it stops early, it stops at an empty segment |
| DistinguishedName.ParseIsFoldOfEffective | src/Controller/CreateElectronicSignatureVerificationReportAction.php:86-108 | the loop with its `break` equals applying every segment before the first empty one, in order |
| DistinguishedName.FoldCharacterization | src/Controller/CreateElectronicSignatureVerificationReportAction.php:93-107 | after applying segments in order, each field holds the value of the last segment with its key, or its previous value if none; identifier is `sn-` + last serial number; signedBy and valueMessage are untouched |
| DistinguishedName.ParsedFields | src/Controller/CreateElectronicSignatureVerificationReportAction.php:85-108 | reading a distinguished name: the last `serialNumber`, `givenName`, `SN`, `C` before the first empty segment win; other keys change nothing |
| DistinguishedName.StopsAtEmptySegment | src/Controller/CreateElectronicSignatureVerificationReportAction.php:87-89 | nothing after an empty segment is read |
| DistinguishedName.EmptyNameSetsNothing | src/Controller/CreateElectronicSignatureVerificationReportAction.php:85-89 | an empty distinguished name changes no field |
| DistinguishedName.KeyAndValue | src/Controller/CreateElectronicSignatureVerificationReportAction.php:91 | a segment `k=v` has key `k` and value `v` |
| DistinguishedName.OnlyFirstTwoPieces | src/Controller/CreateElectronicSignatureVerificationReportAction.php:91 | in `k=v=rest` only `k` and `v` are used; the segment acts exactly like `k=v` |
| DistinguishedName.SegmentWithoutEquals | src/Controller/CreateElectronicSignatureVerificationReportAction.php:91 | a segment without `=` is its own key, and its value is null |
| BaseSigningController.UserTextOutcome | src/Controller/BaseSigningController.php:19-44 | accepts exactly a decoded traversable value whose every entry is valid, yielding one text per entry; a decoding error is 400 "invalid JSON", any other rejection 400 "invalid content" |
| BaseSigningController.CollectTexts | src/Controller/BaseSigningController.php:30-41 | succeeds exactly when every entry is an array with non-empty description and value, and then yields one text per entry, in order, built from that entry |
| BaseSigningController.ParseUserText | src/Controller/BaseSigningController.php:19-44 | the two loops give the specified outcome: 400 "invalid JSON" on a decoding error, 400 "invalid content" for a non-traversable value or any invalid entry, otherwise the texts |
| BaseSigningController.OneInvalidEntryRejectsAll | src/Controller/BaseSigningController.php:30-34 | a single invalid entry anywhere rejects the whole payload with 400 "invalid content" |
| BaseSigningController.AcceptedTextsFollowEntries | src/Controller/BaseSigningController.php:36-43 | an accepted payload yields one text per entry, in order, with that entry's description and value, each present and non-empty |
| Requests.UploadChecks | src/Controller/CreateElectronicSignatureVerificationReportAction.php:45-63 | the upload checks all pass exactly when a file is present, uploaded without error, is `application/pdf` and is not empty |
| Requests.UploadCheckOrder | src/Controller/CreateAdvancedlySignedDocumentAction.php:59-77 | the first failing upload check decides: missing file 400, upload error 400 with its message, wrong type 415, empty file 400 |
| VerificationReportAction.VerifyChecks | src/Controller/CreateElectronicSignatureVerificationReportAction.php:39-63 | the verification checks pass exactly when the caller is fully authenticated, holds the verify-signature scope and the upload is acceptable |
| VerificationReportAction.VerifyOutcome | src/Controller/CreateElectronicSignatureVerificationReportAction.php:37-124 | succeeds exactly when every check passes and the backend verifies; the report then carries the request id, the client's file name and one signature per result |
| VerificationReportAction.SignatureFor | src/Controller/CreateElectronicSignatureVerificationReportAction.php:79-115 | a signature holds its result's signer name and message, and its identifier is null or an `sn-` name |
| VerificationReportAction.VerifyCheckOrder | src/Controller/CreateElectronicSignatureVerificationReportAction.php:39-63 | unauthenticated gives 403, a missing verify-signature scope 403, then the first failing upload check decides |
| VerificationReportAction.ReadSignedBy | src/Controller/CreateElectronicSignatureVerificationReportAction.php:85-108 | the loop over the name segments, with its `break` on an empty segment, leaves the signature's fields as the distinguished-name reading specifies |
| VerificationReportAction.BuildSignature | src/Controller/CreateElectronicSignatureVerificationReportAction.php:80-113 | one fresh signature per result, with fields as specified for that result |
| VerificationReportAction.CreateVerificationReport | src/Controller/CreateElectronicSignatureVerificationReportAction.php:37-124 | the action's returned report or raised failure equals the specified outcome |
| VerificationReportAction.SignatureFromResult | src/Controller/CreateElectronicSignatureVerificationReportAction.php:79-113 | each signature holds its result's signer name and message, and its name fields come from the distinguished name (identifier `sn-…` or null) |
| VerificationReportAction.FallbackNeverApplies | src/Controller/CreateElectronicSignatureVerificationReportAction.php:110-113 | the `ri-` fallback identifier never appears in a signature |
| VerificationReportAction.ReportFollowsResults | src/Controller/CreateElectronicSignatureVerificationReportAction.php:77-123 | a report exists only when every check passes and the backend verifies; it carries the request id and client file name, and one signature per backend result, in the backend's order |
| VerificationReportAction.ChecksDecideBeforeBackend | src/Controller/CreateElectronicSignatureVerificationReportAction.php:39-70 | when a check fails, the outcome is that failure whatever the backend and request id are |
| VerificationReportAction.BackendFailureMapping | src/Controller/CreateElectronicSignatureVerificationReportAction.php:69-75 | backend unavailability becomes 503 with Retry-After 100, any other backend failure 502 with its message, and success only when the backend answers |
| AdvancedlySignedDocumentAction.PositionData | src/Controller/CreateAdvancedlySignedDocumentAction.php:82-103 | the position map has exactly the keys among x, y, w, r, p that are given and not empty |
| AdvancedlySignedDocumentAction.BuildPositionData | src/Controller/CreateAdvancedlySignedDocumentAction.php:82-103 | the five conditional assignments build the specified position map |
| AdvancedlySignedDocumentAction.PositionDataShape | src/Controller/CreateAdvancedlySignedDocumentAction.php:82-103 | position data holds exactly the keys among x, y, w, r, p given non-empty, never h; x, y, w, r are rounded, p is cast |
| AdvancedlySignedDocumentAction.CheckProfilePermissions | src/Controller/CreateAdvancedlySignedDocumentAction.php:31-40 | passes exactly when the backend names a role for the profile and the caller holds it; every denial is 403, and a backend failure is denied with the backend's message |
| AdvancedlySignedDocumentAction.ProfileChecks | src/Controller/CreateAdvancedlySignedDocumentAction.php:47-54 | the profile checks pass exactly when the caller is fully authenticated, a profile is given and the caller holds its role |
| AdvancedlySignedDocumentAction.SignChecks | src/Controller/CreateAdvancedlySignedDocumentAction.php:47-77 | all checks pass exactly when the profile checks pass and the upload is acceptable |
| AdvancedlySignedDocumentAction.SigningUserText | src/Controller/CreateAdvancedlySignedDocumentAction.php:105-109 | no texts without a `user_text` parameter in the POST body; a rejected `user_text` is a 400 |
| AdvancedlySignedDocumentAction.SignOutcome | src/Controller/CreateAdvancedlySignedDocumentAction.php:45-131 | succeeds exactly when every check passes, the user texts are accepted and the backend signs; the document then has every field set, the identifier to the request id |
| AdvancedlySignedDocumentAction.NonTraversableDecoderRejectsUserText | src/Controller/BaseSigningController.php:23-29 | with a decoder that never returns a traversable value, every `user_text` is rejected with 400, so such a signing request always fails |
| AdvancedlySignedDocumentAction.CreateAdvancedlySignedDocument | src/Controller/CreateAdvancedlySignedDocumentAction.php:45-131 | the action's returned document or raised failure equals the specified outcome |
| AdvancedlySignedDocumentAction.ProfileChecksPrecedeFileChecks | src/Controller/CreateAdvancedlySignedDocumentAction.php:47-60 | when a profile check fails, the outcome is that failure whatever the uploaded file is |
| AdvancedlySignedDocumentAction.ProfileCheckOrder | src/Controller/CreateAdvancedlySignedDocumentAction.php:47-77 | unauthenticated gives 403, a missing profile 400 "Missing \"profile\"", then the profile's permission check decides, then the first failing upload check |
| AdvancedlySignedDocumentAction.AfterTheChecks | src/Controller/CreateAdvancedlySignedDocumentAction.php:105-119 | after the checks: no `user_text` means no texts; a user-text error is the outcome; backend unavailability is 503 with Retry-After 100, any other backend failure 502 |
| AdvancedlySignedDocumentAction.SignedDocumentFields | src/Controller/CreateAdvancedlySignedDocumentAction.php:111-130 | a document exists only when every check passes and the backend signs; it carries the request id, the signed bytes' length, their PDF data URI and the derived file name |
| DbpEsignExtension.ExtendArrayParameter | src/DependencyInjection/DbpEsignExtension.php:46-54 | the parameter afterwards exists and holds the old list (empty when absent) followed by the new values; every other parameter is unchanged |
| DbpEsignExtension.LoadInternal | src/DependencyInjection/DbpEsignExtension.php:14-44 | appends the entity directory and the paths to hide and stores the merged configuration; apart from parameters the left-out `services.yaml` load may define, no other parameter changes |
| DbpEsignExtension.PathsToHide | src/DependencyInjection/DbpEsignExtension.php:19-33 | a path is hidden exactly when it is a signing path, or a verification path while the flag is not the string "true" |
| DbpEsignExtension.HiddenPaths | src/DependencyInjection/DbpEsignExtension.php:19-33 | the signing paths are always hidden, and the four verification paths exactly when the verification flag is not the string "true" |

## Left out

- The signature backend (the PDF-AS server over the network) is a record of
  functions, `Service.SignatureProvider`. Its answers are parameters, and an
  exception becomes the `Unavailable` or `Failed` answer.
- JSON decoding (`decodeJSON`) is a function parameter that returns the
  decoded shape or nothing on a decoding error.
- Float parsing, `round` and the `(int)` cast of the position fields are
  function parameters (`Conversions`).
- Request-id generation (random) is a parameter of each action. Reading the
  uploaded file's bytes is the `contents` field of the upload.
- `generateSignedFileName` and `getDataURI` (the `Tools` helpers) are
  function parameters. Their formats are not part of this model.
- The YAML service definitions that `loadInternal` loads are not part of
  this model. The `PDF_AS_VERIFICATION_ENABLE` environment variable is a
  parameter; `None` stands for an unset variable.
- The framework's access check is modelled as membership of the attribute in
  the set of granted attributes. Every denial is 403: the firewall's turning
  of an unauthenticated denial into 401 is not modelled.
- The `requestGet` helper is not part of this model. The model assumes it
  is one lookup in a map of named request values (`fields`). `user_text` is
  read from a separate map of the POST body parameters (`body`), as the
  action reads it.
- AdvancedlySignedDocumentAction.CheckProfilePermissions: the model assumes
  that `SigningUnavailableException` extends `SigningException`, so that
  the permission check turns an unavailable backend into a 403. The
  exception classes are not part of this model.
- The report class `ElectronicSignatureVerificationReport` is not part of
  this model. The report is a record with an identifier, a name and the
  signature objects.
- DbpEsignExtension.ExtendArrayParameter: only list parameters are modelled
  (absent, or a list of strings). `array_merge` on an associative array is
  not modelled.
- The qualified-signing operations of the backend interface and their
  actions are not part of this model.
- "The backend is called only after the checks" is stated as independence
  of the outcome from the backend's answers (`ChecksDecideBeforeBackend`,
  `ProfileChecksPrecedeFileChecks`), not as a trace of calls.
- The JSON decoder is a parameter, so the model does not fix which payloads
  decode to a traversable value. The consequence of the associative-mode
  decoder is stated above and in `NonTraversableDecoderRejectsUserText`.
- The PHP warning for an undefined array key when a segment has no `=` is
  not modelled; only the resulting null value is.
- Getters are modelled as functions reading the object's fields. They carry
  no contract of their own.
