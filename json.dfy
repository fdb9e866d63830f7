/**
 * The value the core bundle's JSON decoder returns for the `user_text` field,
 * as far as the validation looks at it.
 */
module Json {

  /** A member value: null, a string, or anything else (number, boolean, nested structure). */
  datatype JsonValue = Null | Str(text: string) | Other(repr: string)

  /** One element of the decoded collection: a PHP array with members, or anything that is not an array. */
  datatype Entry = ArrayEntry(members: map<string, JsonValue>) | NotArray

  /**
   * The decoded value: an object that implements \Traversable and yields the
   * entries in order, or anything else. A PHP array is not \Traversable, so
   * a decoder that returns associative arrays gives NotTraversable.
   */
  datatype Decoded = Traversable(entries: seq<Entry>) | NotTraversable
}
