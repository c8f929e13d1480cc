/**
 * The request and response records of the country-code endpoint
 * (`Models/RegisteredInformation/NSGModel.cs`). Object-typed properties are null until set.
 */
module NsgModel {
  import opened Wrappers

  /** The request: a country code, which may be absent, and a national organisation number. */
  datatype RegisteredInformationRequest = RegisteredInformationRequest(country: Option<string>, notation: string)

  datatype Identifier = Identifier(issuingAuthorityName: string, notation: string)

  datatype Legalform = Legalform(code: string, name: string)

  datatype Legalstatus = Legalstatus(code: string, name: string)

  datatype Postaladdress = Postaladdress(fullAddress: string)

  datatype Registeredaddress = Registeredaddress(fullAddress: string)

  /** One classified activity: a NACE code, its classification, its URI and its slot. */
  datatype Activity = Activity(code: string, inClassification: string, reference: string, sequence: int)

  datatype RegisteredInformationResponse = RegisteredInformationResponse(
    activity: Option<seq<Activity>>,
    identifier: Option<Identifier>,
    legalForm: Option<Legalform>,
    legalStatus: Option<Legalstatus>,
    name: Option<string>,
    postalAddress: Option<Postaladdress>,
    registeredAddress: Option<Registeredaddress>,
    registrationDate: Option<string>)

  /** `new RegisteredInformationResponse()`: nothing set. */
  const EmptyResponse := RegisteredInformationResponse(None, None, None, None, None, None, None, None)
}
