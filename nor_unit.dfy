/**
 * The unit record of the Norwegian Central Coordinating Register (`Models/NOR/Unit.cs`), as
 * the ICD-path endpoint deserialises it: only the properties the core reads.
 */
module NorwayUnit {
  import opened Wrappers
  import opened Dates

  /** `EnhetAdresse`: a postal or business address. `Adresse` may be null. */
  datatype EnhetAdresse = EnhetAdresse(
    land: string,
    landkode: string,
    postnummer: string,
    poststed: string,
    adresse: Option<seq<string>>)

  /** `InstitusjonellSektorkode`, also the type of the three industry codes. */
  datatype InstitusjonellSektorkode = InstitusjonellSektorkode(kode: string, beskrivelse: string)

  /** `Organisasjonsform`: the national legal form. */
  datatype Organisasjonsform = Organisasjonsform(kode: string, beskrivelse: string)

  /** `Unit`. Object-typed properties may be null; the three flags and the dates may not. */
  datatype Unit = Unit(
    organisasjonsnummer: int,
    navn: string,
    organisasjonsform: Option<Organisasjonsform>,
    registreringsdatoEnhetsregisteret: Instant,
    naeringskode1: Option<InstitusjonellSektorkode>,
    naeringskode2: Option<InstitusjonellSektorkode>,
    naeringskode3: Option<InstitusjonellSektorkode>,
    forretningsadresse: Option<EnhetAdresse>,
    konkurs: bool,
    underAvvikling: bool,
    underTvangsavviklingEllerTvangsopplosning: bool,
    postadresse: Option<EnhetAdresse>,
    slettedato: Instant)
}
