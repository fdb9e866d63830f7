/**
 * Validation of the `user_text` form field: a JSON collection of
 * description/value objects. Every entry is checked before any output is
 * built, so the field is accepted whole or rejected whole.
 */
module BaseSigningController {
  import opened Wrappers
  import opened HttpErrors
  import opened Json
  import opened Service

  /** `($entry[name] ?? '') !== ''`: the member is present, not null and not the empty string. */
  predicate Filled(members: map<string, JsonValue>, name: string)
  {
    name in members && members[name] != Null && members[name] != Str("")
  }

  predicate ValidEntry(entry: Entry)
  {
    entry.ArrayEntry? && Filled(entry.members, "description") && Filled(entry.members, "value")
  }

  function TextOf(entry: Entry): UserDefinedText
    requires ValidEntry(entry)
  {
    UserDefinedText(entry.members["description"], entry.members["value"])
  }

  /** The texts of a collection, entry by entry, or None as soon as one entry is invalid. */
  function CollectTexts(entries: seq<Entry>): (texts: Option<seq<UserDefinedText>>)
    ensures texts.Some? <==> forall i :: 0 <= i < |entries| ==> ValidEntry(entries[i])
    ensures texts.Some? ==> |texts.value| == |entries|
    ensures texts.Some? ==> forall i :: 0 <= i < |entries| ==> texts.value[i] == TextOf(entries[i])
  {
    if entries == [] then Some([])
    else if !ValidEntry(entries[0]) then None
    else
      var rest := CollectTexts(entries[1..]);
      if rest.None? then None else Some([TextOf(entries[0])] + rest.value)
  }

  /** What parseUserText returns or throws for the decoder's answer (None: the decoder threw). */
  function UserTextOutcome(decoded: Option<Decoded>): (r: Result<seq<UserDefinedText>, Failure>)
    ensures r.Success? <==>
              && decoded.Some? && decoded.value.Traversable?
              && forall i :: 0 <= i < |decoded.value.entries| ==> ValidEntry(decoded.value.entries[i])
    ensures r.Success? ==> |r.value| == |decoded.value.entries|
    ensures r.Failure? ==> r.error == ApiError(HTTP_BAD_REQUEST, if decoded.None? then "invalid JSON" else "invalid content")
  {
    if decoded.None? then Failure(ApiError(HTTP_BAD_REQUEST, "invalid JSON"))
    else if decoded.value.NotTraversable? then Failure(ApiError(HTTP_BAD_REQUEST, "invalid content"))
    else
      var texts := CollectTexts(decoded.value.entries);
      if texts.None? then Failure(ApiError(HTTP_BAD_REQUEST, "invalid content")) else Success(texts.value)
  }

  /** parseUserText: decode, check every entry, then build the list in input order. */
  method ParseUserText(data: string, decodeJSON: string -> Option<Decoded>)
    returns (r: Result<seq<UserDefinedText>, Failure>)
    ensures r == UserTextOutcome(decodeJSON(data))
  {
    var parsed := decodeJSON(data);
    if parsed.None? {
      return Failure(ApiError(HTTP_BAD_REQUEST, "invalid JSON"));
    }
    if !parsed.value.Traversable? {
      return Failure(ApiError(HTTP_BAD_REQUEST, "invalid content"));
    }
    var entries := parsed.value.entries;
    for i := 0 to |entries|
      invariant forall j :: 0 <= j < i ==> ValidEntry(entries[j])
    {
      var entry := entries[i];
      if !entry.ArrayEntry? || !Filled(entry.members, "description") || !Filled(entry.members, "value") {
        return Failure(ApiError(HTTP_BAD_REQUEST, "invalid content"));
      }
    }

    var userText: seq<UserDefinedText> := [];
    for i := 0 to |entries|
      invariant |userText| == i
      invariant forall j :: 0 <= j < i ==> userText[j] == TextOf(entries[j])
    {
      var description := entries[i].members["description"];
      var value := entries[i].members["value"];
      userText := userText + [UserDefinedText(description, value)];
    }
    assert userText == CollectTexts(entries).value;
    return Success(userText);
  }

  /** One invalid entry anywhere rejects the whole payload, whatever the other entries are. */
  lemma OneInvalidEntryRejectsAll(entries: seq<Entry>, k: nat)
    requires k < |entries| && !ValidEntry(entries[k])
    ensures UserTextOutcome(Some(Traversable(entries))) == Failure(ApiError(HTTP_BAD_REQUEST, "invalid content"))
  {
  }

  /** An accepted payload gives one text per entry, in input order, with description and value unchanged. */
  lemma AcceptedTextsFollowEntries(entries: seq<Entry>)
    requires UserTextOutcome(Some(Traversable(entries))).Success?
    ensures var texts := UserTextOutcome(Some(Traversable(entries))).value;
      && |texts| == |entries|
      && forall i :: 0 <= i < |entries| ==>
           entries[i].ArrayEntry? &&
           texts[i].description == entries[i].members["description"] &&
           texts[i].value == entries[i].members["value"]
  {
  }
}
