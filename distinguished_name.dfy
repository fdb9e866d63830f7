/**
 * How the verification action reads a signer's distinguished name: the name
 * is split on every `,`; reading stops at the first empty segment; each
 * segment is split on `=` into a key and a value (null when there is no `=`,
 * and anything after a second `=` dropped); four keys, matched exactly, fill
 * fields of the signature and every other key is ignored.
 */
module DistinguishedName {
  import opened Wrappers
  import opened Strings
  import opened ElectronicSignatureEntity

  /** PHP's string conversion of a nullable string: null becomes the empty string. */
  function Text(v: Option<string>): string
  {
    if v.Some? then v.value else ""
  }

  /** Whether a name starts with "sn-", the prefix of every identifier a `serialNumber` segment sets. */
  predicate SerialIdentifier(id: string)
  {
    |id| >= 3 && id[..3] == "sn-"
  }

  /** The key of a segment: the text before its first `=`, or the whole segment when it has none. */
  function Key(declaration: string): (key: string)
    ensures '=' !in key
    ensures |key| <= |declaration| && key == declaration[..|key|]
    ensures '=' in declaration ==> |key| < |declaration| && declaration[|key|] == '='
    ensures '=' !in declaration ==> key == declaration
  {
    SplitFirst(declaration, '=');
    Split(declaration, '=')[0]
  }

  /**
   * The value of a segment: null when it has no `=`, otherwise the text after
   * the first `=` up to the next `=` or the end.
   */
  function Value(declaration: string): (value: Option<string>)
    ensures value.None? <==> '=' !in declaration
    ensures value.Some? ==> var after := declaration[|Key(declaration)| + 1..];
      && '=' !in value.value
      && |value.value| <= |after| && value.value == after[..|value.value|]
      && (|value.value| < |after| ==> after[|value.value|] == '=')
  {
    var pieces := Split(declaration, '=');
    SplitFirst(declaration, '=');
    if |pieces| >= 2 then
      SplitFirst(declaration[|pieces[0]| + 1..], '=');
      Some(pieces[1])
    else None
  }

  /**
   * The effect of one segment on the signature: each of the four keys sets
   * its own field to the segment's value (`serialNumber` also sets the
   * identifier `sn-<value>`); no other field changes.
   */
  function ApplyDeclaration(f: SignatureFields, declaration: string): (r: SignatureFields)
    ensures r.identifier == if Key(declaration) == "serialNumber" then Some("sn-" + Text(Value(declaration))) else f.identifier
    ensures r.serialNumber == if Key(declaration) == "serialNumber" then Value(declaration) else f.serialNumber
    ensures r.givenName == if Key(declaration) == "givenName" then Value(declaration) else f.givenName
    ensures r.familyName == if Key(declaration) == "SN" then Value(declaration) else f.familyName
    ensures r.nationality == if Key(declaration) == "C" then Value(declaration) else f.nationality
    ensures r.signedBy == f.signedBy && r.valueMessage == f.valueMessage
  {
    var key, value := Key(declaration), Value(declaration);
    if key == "serialNumber" then f.(identifier := Some("sn-" + Text(value)), serialNumber := value)
    else if key == "givenName" then f.(givenName := value)
    else if key == "SN" then f.(familyName := value)
    else if key == "C" then f.(nationality := value)
    else f
  }

  /**
   * The segments applied in order, up to the first empty one. Signer name and
   * message are kept, and the identifier is either kept or an `sn-` name.
   */
  function ParseDeclarations(f: SignatureFields, declarations: seq<string>): (r: SignatureFields)
    ensures r.signedBy == f.signedBy && r.valueMessage == f.valueMessage
    ensures r.identifier == f.identifier || (r.identifier.Some? && SerialIdentifier(r.identifier.value))
    decreases |declarations|
  {
    if declarations == [] || declarations[0] == "" then f
    else ParseDeclarations(ApplyDeclaration(f, declarations[0]), declarations[1..])
  }

  /** What reading the distinguished name `signedBy` does to a signature whose fields were `f`. */
  function ParseSignedBy(f: SignatureFields, signedBy: string): (r: SignatureFields)
    ensures r.signedBy == f.signedBy && r.valueMessage == f.valueMessage
    ensures r.identifier == f.identifier || (r.identifier.Some? && SerialIdentifier(r.identifier.value))
  {
    ParseDeclarations(f, Split(signedBy, ','))
  }

  // ---------------------------------------------------------------------------
  // A second, field-by-field description of the same parse.

  /** The segments that are read: those before the first empty one. */
  function Effective(declarations: seq<string>): (r: seq<string>)
    ensures |r| <= |declarations| && r == declarations[..|r|]
    ensures forall i :: 0 <= i < |r| ==> r[i] != ""
    ensures |r| < |declarations| ==> declarations[|r|] == ""
  {
    if declarations == [] || declarations[0] == "" then []
    else [declarations[0]] + Effective(declarations[1..])
  }

  /** Segments applied from the last one backwards, without stopping. */
  function FoldDeclarations(f: SignatureFields, declarations: seq<string>): SignatureFields
  {
    if declarations == [] then f
    else ApplyDeclaration(FoldDeclarations(f, declarations[..|declarations| - 1]), declarations[|declarations| - 1])
  }

  /** The value of the last segment whose key is `key`, or None when no segment has that key. */
  function LastValue(key: string, declarations: seq<string>): Option<Option<string>>
  {
    if declarations == [] then None
    else if Key(declarations[|declarations| - 1]) == key then Some(Value(declarations[|declarations| - 1]))
    else LastValue(key, declarations[..|declarations| - 1])
  }

  /** The last value given for a key, or the field's previous value when the key never occurs. */
  function Latest(found: Option<Option<string>>, previous: Option<string>): Option<string>
  {
    if found.Some? then found.value else previous
  }

  /** The identifier a `serialNumber` segment leaves behind, if there is one. */
  function IdentifierFrom(found: Option<Option<string>>, previous: Option<string>): Option<string>
  {
    if found.Some? then Some("sn-" + Text(found.value)) else previous
  }

  lemma {:induction false} FoldPrepend(f: SignatureFields, d: string, ds: seq<string>)
    ensures FoldDeclarations(f, [d] + ds) == FoldDeclarations(ApplyDeclaration(f, d), ds)
    decreases |ds|
  {
    if ds == [] {
      assert ([d] + ds)[..0] == [];
    } else {
      var n := |ds|;
      assert ([d] + ds)[..n] == [d] + ds[..n - 1];
      FoldPrepend(f, d, ds[..n - 1]);
    }
  }

  /** Stopping at the first empty segment is the same as applying just the segments before it. */
  lemma {:induction false} ParseIsFoldOfEffective(f: SignatureFields, declarations: seq<string>)
    ensures ParseDeclarations(f, declarations) == FoldDeclarations(f, Effective(declarations))
    decreases |declarations|
  {
    if declarations != [] && declarations[0] != "" {
      ParseIsFoldOfEffective(ApplyDeclaration(f, declarations[0]), declarations[1..]);
      FoldPrepend(f, declarations[0], Effective(declarations[1..]));
    }
  }

  /** Each field holds the value of the last segment with its key; signedBy and valueMessage are untouched. */
  lemma {:induction false} FoldCharacterization(f: SignatureFields, ds: seq<string>)
    ensures FoldDeclarations(f, ds).serialNumber == Latest(LastValue("serialNumber", ds), f.serialNumber)
    ensures FoldDeclarations(f, ds).identifier == IdentifierFrom(LastValue("serialNumber", ds), f.identifier)
    ensures FoldDeclarations(f, ds).givenName == Latest(LastValue("givenName", ds), f.givenName)
    ensures FoldDeclarations(f, ds).familyName == Latest(LastValue("SN", ds), f.familyName)
    ensures FoldDeclarations(f, ds).nationality == Latest(LastValue("C", ds), f.nationality)
    ensures FoldDeclarations(f, ds).signedBy == f.signedBy
    ensures FoldDeclarations(f, ds).valueMessage == f.valueMessage
    decreases |ds|
  {
    if ds != [] {
      FoldCharacterization(f, ds[..|ds| - 1]);
    }
  }

  /**
   * What reading a distinguished name does, field by field: among the segments
   * before the first empty one, the last `serialNumber` segment sets the serial
   * number and the identifier `sn-<value>`, the last `givenName`, `SN` and `C`
   * segments set given name, family name and nationality, and fields whose key
   * does not occur, signedBy and valueMessage keep their values.
   */
  lemma ParsedFields(f: SignatureFields, signedBy: string)
    ensures var E := Effective(Split(signedBy, ','));
      var r := ParseSignedBy(f, signedBy);
      && r.serialNumber == Latest(LastValue("serialNumber", E), f.serialNumber)
      && r.identifier == IdentifierFrom(LastValue("serialNumber", E), f.identifier)
      && r.givenName == Latest(LastValue("givenName", E), f.givenName)
      && r.familyName == Latest(LastValue("SN", E), f.familyName)
      && r.nationality == Latest(LastValue("C", E), f.nationality)
      && r.signedBy == f.signedBy
      && r.valueMessage == f.valueMessage
  {
    var ds := Split(signedBy, ',');
    ParseIsFoldOfEffective(f, ds);
    FoldCharacterization(f, Effective(ds));
  }

  /** Nothing after an empty segment (an empty name, or text after `,,` or a trailing `,`) is read. */
  lemma {:induction false} StopsAtEmptySegment(f: SignatureFields, declarations: seq<string>, k: nat)
    requires k < |declarations| && declarations[k] == ""
    ensures ParseDeclarations(f, declarations) == ParseDeclarations(f, declarations[..k])
    decreases k
  {
    if k > 0 && declarations[0] != "" {
      assert declarations[..k][1..] == declarations[1..][..k - 1];
      StopsAtEmptySegment(ApplyDeclaration(f, declarations[0]), declarations[1..], k - 1);
    }
  }

  /** An empty distinguished name sets no field. */
  lemma EmptyNameSetsNothing(f: SignatureFields)
    ensures ParseSignedBy(f, "") == f
  {
  }

  /** A well-formed segment `key=value` gives exactly that key and value. */
  lemma KeyAndValue(key: string, value: string)
    requires '=' !in key && '=' !in value
    ensures Key(key + "=" + value) == key && Value(key + "=" + value) == Some(value)
  {
    SplitAfterPrefix(key, '=', value);
    SplitWithoutSeparator(value, '=');
  }

  /** Text after a second `=` is dropped: `key=value=rest` reads as `key=value`. */
  lemma OnlyFirstTwoPieces(f: SignatureFields, key: string, value: string, rest: string)
    requires '=' !in key && '=' !in value
    ensures Key(key + "=" + value + "=" + rest) == key
    ensures Value(key + "=" + value + "=" + rest) == Some(value)
    ensures ApplyDeclaration(f, key + "=" + value + "=" + rest) == ApplyDeclaration(f, key + "=" + value)
  {
    var s := key + "=" + value + "=" + rest;
    assert s == key + "=" + (value + "=" + rest);
    SplitAfterPrefix(key, '=', value + "=" + rest);
    SplitAfterPrefix(value, '=', rest);
    KeyAndValue(key, value);
  }

  /** A segment without `=` is all key, and its value is null. */
  lemma SegmentWithoutEquals(declaration: string)
    requires '=' !in declaration
    ensures Key(declaration) == declaration && Value(declaration) == None
  {
    SplitWithoutSeparator(declaration, '=');
  }
}
