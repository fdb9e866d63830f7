/** The signed document the signing action returns, filled field by field. */
module AdvancedlySignedDocumentEntity {
  import opened Wrappers

  /** The four fields of an AdvancedlySignedDocument, None standing for PHP's null. */
  datatype DocumentFields = DocumentFields(
    identifier: Option<string>,
    contentUrl: Option<string>,
    name: Option<string>,
    contentSize: Option<int>)

  class AdvancedlySignedDocument {
    var identifier: Option<string>
    var contentUrl: Option<string>
    var name: Option<string>
    var contentSize: Option<int>

    function Fields(): DocumentFields
      reads this
    {
      DocumentFields(identifier, contentUrl, name, contentSize)
    }

    constructor ()
      ensures Fields() == DocumentFields(None, None, None, None)
    {
      identifier, contentUrl, name, contentSize := None, None, None, None;
    }

    function GetIdentifier(): Option<string> reads this { identifier }
    function GetContentUrl(): Option<string> reads this { contentUrl }
    function GetName(): Option<string> reads this { name }

    /** Declared to return a non-nullable int, so it may only be asked once the size is set. */
    function GetContentSize(): int
      reads this
      requires contentSize.Some?
    {
      contentSize.value
    }

    method SetIdentifier(identifier: string) returns (self: AdvancedlySignedDocument)
      modifies this
      ensures self == this && GetIdentifier() == Some(identifier)
      ensures Fields() == old(Fields()).(identifier := Some(identifier))
    {
      this.identifier := Some(identifier);
      self := this;
    }

    /** The one setter that does not return the object. */
    method SetContentUrl(contentUrl: string)
      modifies this
      ensures GetContentUrl() == Some(contentUrl)
      ensures Fields() == old(Fields()).(contentUrl := Some(contentUrl))
    {
      this.contentUrl := Some(contentUrl);
    }

    method SetName(name: string) returns (self: AdvancedlySignedDocument)
      modifies this
      ensures self == this && GetName() == Some(name)
      ensures Fields() == old(Fields()).(name := Some(name))
    {
      this.name := Some(name);
      self := this;
    }

    method SetContentSize(contentSize: int) returns (self: AdvancedlySignedDocument)
      modifies this
      ensures Fields() == old(Fields()).(contentSize := Some(contentSize))
      ensures self == this && GetContentSize() == contentSize
    {
      this.contentSize := Some(contentSize);
      self := this;
    }
  }
}
