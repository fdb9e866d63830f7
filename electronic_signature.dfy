/** One signature found in a verified document, filled field by field by the verification action. */
module ElectronicSignatureEntity {
  import opened Wrappers

  /** The seven fields of an ElectronicSignature, None standing for PHP's null. */
  datatype SignatureFields = SignatureFields(
    identifier: Option<string>,
    givenName: Option<string>,
    familyName: Option<string>,
    serialNumber: Option<string>,
    signedBy: Option<string>,
    nationality: Option<string>,
    valueMessage: Option<string>)

  /** A freshly constructed signature: nothing set. */
  const Unset := SignatureFields(None, None, None, None, None, None, None)

  class ElectronicSignature {
    var identifier: Option<string>
    var givenName: Option<string>
    var familyName: Option<string>
    var serialNumber: Option<string>
    var signedBy: Option<string>
    var nationality: Option<string>
    var valueMessage: Option<string>

    function Fields(): SignatureFields
      reads this
    {
      SignatureFields(identifier, givenName, familyName, serialNumber, signedBy, nationality, valueMessage)
    }

    constructor ()
      ensures Fields() == Unset
    {
      identifier, givenName, familyName, serialNumber := None, None, None, None;
      signedBy, nationality, valueMessage := None, None, None;
    }

    function GetIdentifier(): Option<string> reads this { identifier }
    function GetGivenName(): Option<string> reads this { givenName }
    function GetFamilyName(): Option<string> reads this { familyName }
    function GetSerialNumber(): Option<string> reads this { serialNumber }
    function GetSignedBy(): Option<string> reads this { signedBy }
    function GetNationality(): Option<string> reads this { nationality }
    function GetValueMessage(): Option<string> reads this { valueMessage }

    /** Takes a string, never null; every other setter also accepts null. */
    method SetIdentifier(identifier: string) returns (self: ElectronicSignature)
      modifies this
      ensures self == this && GetIdentifier() == Some(identifier)
      ensures Fields() == old(Fields()).(identifier := Some(identifier))
    {
      this.identifier := Some(identifier);
      self := this;
    }

    method SetGivenName(givenName: Option<string>) returns (self: ElectronicSignature)
      modifies this
      ensures self == this && GetGivenName() == givenName
      ensures Fields() == old(Fields()).(givenName := givenName)
    {
      this.givenName := givenName;
      self := this;
    }

    method SetFamilyName(familyName: Option<string>) returns (self: ElectronicSignature)
      modifies this
      ensures self == this && GetFamilyName() == familyName
      ensures Fields() == old(Fields()).(familyName := familyName)
    {
      this.familyName := familyName;
      self := this;
    }

    method SetSerialNumber(serialNumber: Option<string>) returns (self: ElectronicSignature)
      modifies this
      ensures self == this && GetSerialNumber() == serialNumber
      ensures Fields() == old(Fields()).(serialNumber := serialNumber)
    {
      this.serialNumber := serialNumber;
      self := this;
    }

    method SetSignedBy(signedBy: Option<string>) returns (self: ElectronicSignature)
      modifies this
      ensures self == this && GetSignedBy() == signedBy
      ensures Fields() == old(Fields()).(signedBy := signedBy)
    {
      this.signedBy := signedBy;
      self := this;
    }

    method SetNationality(nationality: Option<string>) returns (self: ElectronicSignature)
      modifies this
      ensures self == this && GetNationality() == nationality
      ensures Fields() == old(Fields()).(nationality := nationality)
    {
      this.nationality := nationality;
      self := this;
    }

    method SetValueMessage(valueMessage: Option<string>) returns (self: ElectronicSignature)
      modifies this
      ensures self == this && GetValueMessage() == valueMessage
      ensures Fields() == old(Fields()).(valueMessage := valueMessage)
    {
      this.valueMessage := valueMessage;
      self := this;
    }
  }
}
