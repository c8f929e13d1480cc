/**
 * The unit the entity-registry service of the evidence framework returns to the country-code
 * endpoint (`IEntityRegistryService.GetFull`). Its flags and dates are nullable there, and its
 * organisation number is a string; its addresses, codes and form have the shapes of the
 * register's own records.
 */
module EntityRegistry {
  import opened Wrappers
  import opened Dates
  import NorwayUnit

  datatype RegistryUnit = RegistryUnit(
    organisasjonsnummer: string,
    navn: string,
    organisasjonsform: Option<NorwayUnit.Organisasjonsform>,
    registreringsdatoEnhetsregisteret: Option<Instant>,
    naeringskode1: Option<NorwayUnit.InstitusjonellSektorkode>,
    naeringskode2: Option<NorwayUnit.InstitusjonellSektorkode>,
    naeringskode3: Option<NorwayUnit.InstitusjonellSektorkode>,
    forretningsadresse: Option<NorwayUnit.EnhetAdresse>,
    postadresse: Option<NorwayUnit.EnhetAdresse>,
    konkurs: Option<bool>,
    underAvvikling: Option<bool>,
    underTvangsavviklingEllerTvangsopplosning: Option<bool>,
    slettedato: Option<Instant>)
}
