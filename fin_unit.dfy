/**
 * The search result of the Finnish Patent and Registration Office (`Models/FIN/Unit.cs`), as
 * the ICD-path endpoint deserialises it: only the properties the core reads.
 */
module FinlandUnit {
  import W = Wrappers
  import opened Dates

  /** `Language`; concatenating one to a string appends its member name. */
  datatype Language = En | Fi | Se

  function LanguageName(l: Language): string {
    match l
    case En => "En"
    case Fi => "Fi"
    case Se => "Se"
  }

  /** The untyped `careOf` property: a JSON string, or some other JSON value. */
  datatype CareOf = CareOfText(text: string) | CareOfOther

  /** `Address`. Only `EndDate` is nullable among the dates. */
  datatype Address = Address(
    careOf: W.Option<CareOf>,
    street: string,
    postCode: int,
    city: string,
    registrationDate: Instant,
    endDate: W.Option<Instant>,
    language: Language)

  /** `Liquidation`: only its registration date, which may be null. */
  datatype Liquidation = Liquidation(registrationDate: W.Option<Instant>)

  /** `Result`: one registered company. The arrays may be null. */
  datatype Result = Result(
    name: string,
    registrationDate: Instant,
    companyForm: string,
    liquidations: W.Option<seq<Liquidation>>,
    addresses: W.Option<seq<Address>>)

  /** `Unit`: the envelope of the search, whose `results` array may be null. */
  datatype Unit = Unit(results: W.Option<seq<Result>>)
}
