/**
 * The bundle's Tools helpers whose code is not part of this model. They are
 * given to the actions as function values.
 */
module Helpers {
  import opened Service

  datatype Tools = Tools(
    /** A data: URI holding the bytes base64-encoded, with the given MIME type. */
    getDataURI: (seq<byte>, string) -> string,
    /** The file name with `.sig` inserted before its last extension. */
    generateSignedFileName: string -> string)
}
