/**
 * The signing backend as the actions see it. The backend is a remote PDF-AS
 * server; its operations are given to the actions as function values, so the
 * model says what the actions do with every possible answer.
 */
module Service {
  import opened Json

  /** One byte of a PHP binary string (PDF data). */
  newtype byte = x: int | 0 <= x < 256

  /**
   * What a backend call yields: a value, a SigningUnavailableException or any
   * other SigningException, each exception with its message.
   */
  datatype ProviderResult<+T> = Ok(value: T) | Unavailable(message: string) | Failed(message: string)

  /** One entry of the list a verification returns. */
  datatype VerificationResult = VerificationResult(signedBy: string, valueMessage: string, signatureIndex: int)

  /** A description/value pair printed into the signature block. */
  datatype UserDefinedText = UserDefinedText(description: JsonValue, value: JsonValue)

  /** The signature provider's operations used by the two actions. */
  datatype SignatureProvider = SignatureProvider(
    advancedlySignPdfData: (seq<byte>, string, string, map<string, int>, seq<UserDefinedText>) -> ProviderResult<seq<byte>>,
    getAdvancedlySignRequiredRole: string -> ProviderResult<string>,
    verifyPdfData: (seq<byte>, string) -> ProviderResult<seq<VerificationResult>>)
}
