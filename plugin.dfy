/**
 * The ICD-path endpoint (`Plugin.cs`): an identifier `"<ICD>:<id>"` is split, routed to the
 * Norwegian (`0192`) or Finnish (`0212`) register, and the register's unit is mapped to the
 * canonical `CompanyInformation`. Each register is an input: a function from the requested URL
 * to the reply. The country-name lookup of the evidence framework is an input as well.
 */
module Plugin {
  import opened Wrappers
  import opened Outcomes
  import Text
  import Metadata
  import CI = CompanyInformation
  import Nor = NorwayUnit
  import Fin = FinlandUnit
  import Ordering

  const NorwayUrl := "https://data.brreg.no/enhetsregisteret/api/enheter/"
  const FinlandUrl := "http://avoindata.prh.fi/bis/v1/"
  const NorwayIcd := "0192"
  const FinlandIcd := "0212"
  const NorwayAuthority := "Brønnøysundregistrene"
  const FinlandAuthority := "Finnish Patent and Registration Office"

  /** What the endpoint depends on: the two registers, and `CountryCodesHelper.GetByCode`. */
  datatype Upstreams = Upstreams(
    norway: string -> Reply<Nor.Unit>,
    finland: string -> Reply<Fin.Unit>,
    countryName: string -> string)

  // ---------------------------------------------------------------------------------------
  // MakeRequest
  // ---------------------------------------------------------------------------------------

  /** The framework exception a failure carries, if it is one. */
  function RaisedBy<T>(r: Result<T, Fault>): Option<EvidenceSourceException> {
    if r.Failure? && r.error.Evidence? then Some(r.error.exception) else None
  }

  /** `MakeRequest<T>`: the reply classified into a payload or a framework exception. */
  function MakeRequest<T>(reply: Reply<T>): Result<T, Fault> {
    match reply
    case NetworkFailure =>
      Failure(Evidence(Transient(Metadata.ErrorUpstreamError, "Error communicating with upstream source")))
    case Answer(status, _, payload, _) =>
      if !IsSuccessStatusCode(status) then
        Failure(Evidence(
          if status == 404 then
            PermanentClient(Metadata.ErrorOrganizationNotFound, "Upstream source could not find provided company-id")
          else if status == 400 then
            PermanentClient(Metadata.ErrorInvalidInput, "Upstream source indicated an invalid company-id (400)")
          else
            Transient(Metadata.ErrorUpstreamError,
              "Upstream source retuned an HTTP error code (" + Text.IntToString(status) + ")")))
      else
        match payload
        case Parsed(v) => Success(v)
        case NullBody =>
          Failure(Evidence(PermanentServer(Metadata.ErrorUpstreamError,
            "Did not understand the data model returned from upstream source")))
        case Unparseable => Failure(Unhandled(JsonReader))
  }

  /**
   * The classification: a payload exactly for a successful status with a parsed body; 404 and
   * 400 are the client's fault, with codes 2 and 1; other failing statuses and network failures
   * are transient upstream errors; a null body is the upstream's fault (code 3).
   */
  lemma MakeRequestClassification<T>(reply: Reply<T>)
    ensures MakeRequest(reply).Success? <==>
              reply.Answer? && IsSuccessStatusCode(reply.status) && reply.payload.Parsed?
    ensures MakeRequest(reply).Success? ==> MakeRequest(reply).value == reply.payload.value
    ensures (RaisedBy(MakeRequest(reply)).Some? && RaisedBy(MakeRequest(reply)).value.PermanentClient?) <==>
              reply.Answer? && (reply.status == 404 || reply.status == 400)
    ensures (RaisedBy(MakeRequest(reply)).Some? && RaisedBy(MakeRequest(reply)).value.Transient?) <==>
              reply.NetworkFailure? ||
              (reply.Answer? && !IsSuccessStatusCode(reply.status) && reply.status != 404 && reply.status != 400)
    ensures (RaisedBy(MakeRequest(reply)).Some? && RaisedBy(MakeRequest(reply)).value.PermanentServer?) <==>
              reply.Answer? && IsSuccessStatusCode(reply.status) && reply.payload.NullBody?
    ensures RaisedBy(MakeRequest(reply)).Some? ==>
              RaisedBy(MakeRequest(reply)).value.errorCode ==
                if reply.Answer? && reply.status == 404 then Metadata.ErrorOrganizationNotFound
                else if reply.Answer? && reply.status == 400 then Metadata.ErrorInvalidInput
                else Metadata.ErrorUpstreamError
    ensures MakeRequest(reply).Failure? && RaisedBy(MakeRequest(reply)).None? <==>
              reply.Answer? && IsSuccessStatusCode(reply.status) && reply.payload.Unparseable?
  {
  }

  /** The transient error of a failing status names that status, so distinct statuses differ. */
  lemma TransientMessageNamesStatus<T>(a: Reply<T>, b: Reply<T>)
    requires a.Answer? && b.Answer?
    requires RaisedBy(MakeRequest(a)).Some? && RaisedBy(MakeRequest(a)).value.Transient?
    requires RaisedBy(MakeRequest(b)).Some? && RaisedBy(MakeRequest(b)).value.Transient?
    ensures MakeRequest(a) == MakeRequest(b) <==> a.status == b.status
  {
    var prefix := "Upstream source retuned an HTTP error code (";
    var ma, mb := RaisedBy(MakeRequest(a)).value.message, RaisedBy(MakeRequest(b)).value.message;
    if MakeRequest(a) == MakeRequest(b) {
      var sa, sb := Text.IntToString(a.status), Text.IntToString(b.status);
      assert ma == prefix + sa + ")" && mb == prefix + sb + ")";
      assert sa == ma[|prefix|..|ma| - 1];
      assert sb == mb[|prefix|..|mb| - 1];
      Text.IntToStringInjective(a.status, b.status);
    }
  }

  // ---------------------------------------------------------------------------------------
  // Legal form codes
  // ---------------------------------------------------------------------------------------

  /**
   * The legal form code of a unit: the national code with a country prefix, read as a member
   * of `Code` the way `CodeConverter` reads it. A string outside the table is an error.
   */
  function LegalFormCode(prefix: string, national: string): Result<CI.Code, Fault> {
    match CI.ReadCode(prefix + national)
    case Some(c) => Success(c)
    case None => Failure(Unhandled(UnknownCode))
  }

  /** An accepted code is the member with that name, and belongs to the prefix's scheme. */
  lemma LegalFormCodeScheme(k: CI.CodeCountry, national: string)
    ensures LegalFormCode(CI.CountryPrefix(k), national).Success? <==>
              exists c :: CI.WriteCode(c) == CI.CountryPrefix(k) + national
    ensures LegalFormCode(CI.CountryPrefix(k), national).Success? ==>
              && CI.WriteCode(LegalFormCode(CI.CountryPrefix(k), national).value) == CI.CountryPrefix(k) + national
              && CI.CountryOf(LegalFormCode(CI.CountryPrefix(k), national).value) == k
  {
    var s := CI.CountryPrefix(k) + national;
    CI.ReadCodeRejectsOthers(s);
    var r := LegalFormCode(CI.CountryPrefix(k), national);
    if r.Success? {
      var c := r.value;
      CI.ReadCodeMeansWriteCode(s, c);
      CI.WriteCodePrefix(c);
      assert s[..3] == CI.CountryPrefix(k);
    }
  }

  // ---------------------------------------------------------------------------------------
  // Norway
  // ---------------------------------------------------------------------------------------

  /** The postal address line: lines, postcode, place and country, separated by `';'`. */
  function NorwayFullAddress(a: Nor.EnhetAdresse, countryName: string -> string): Result<string, Fault> {
    match a.adresse
    case None => Failure(Unhandled(ArgumentNull))
    case Some(lines) =>
      Success(Text.Join(';', lines) + ";" + a.postnummer + ";" + a.poststed + ";" + countryName(a.landkode))
  }

  /** The forced-liquidation, liquidation and bankruptcy flags into the two-valued status. */
  function NorwayLegalStatus(u: Nor.Unit): CI.LegalStatus {
    if u.underTvangsavviklingEllerTvangsopplosning || u.underAvvikling || u.konkurs
    then CI.SomeRegistered else CI.NoRegistered
  }

  /** The object initialiser of `GetFromNorway`, applied to a unit that was fetched. */
  function MapNorway(organizationNumber: string, u: Nor.Unit, countryName: string -> string)
    : Result<CI.CompanyInformation, Fault>
  {
    match u.organisasjonsform
    case None => Failure(Unhandled(NullReference))
    case Some(form) =>
      match LegalFormCode("NO_", form.kode)
      case Failure(e) => Failure(e)
      case Success(code) =>
        match u.postadresse
        case None => Failure(Unhandled(NullReference))
        case Some(a) =>
          match NorwayFullAddress(a, countryName)
          case Failure(e) => Failure(e)
          case Success(full) =>
            Success(CI.CompanyInformation(
              Some(CI.Addresses(Some(CI.PostalAddress(full)), None)),
              CI.Identifier(NorwayAuthority, organizationNumber),
              CI.LegalForm(code, None),
              NorwayLegalStatus(u),
              u.navn,
              u.registreringsdatoEnhetsregisteret))
  }

  /** `GetFromNorway`: fetch the unit by its number, then map it. */
  function GetFromNorway(organizationNumber: string, up: Upstreams): Result<CI.CompanyInformation, Fault> {
    match MakeRequest(up.norway(NorwayUrl + organizationNumber))
    case Failure(e) => Failure(e)
    case Success(u) => MapNorway(organizationNumber, u, up.countryName)
  }

  /**
   * The Norwegian mapping succeeds exactly when the unit has a legal form whose code is in the
   * table and a postal address with its lines; the record then carries the number unchanged,
   * the register's name, the prefixed code, the status of the three flags and the address.
   */
  lemma NorwayMapping(organizationNumber: string, u: Nor.Unit, countryName: string -> string)
    ensures MapNorway(organizationNumber, u, countryName).Success? <==>
              && u.organisasjonsform.Some?
              && (exists c :: CI.WriteCode(c) == "NO_" + u.organisasjonsform.value.kode)
              && u.postadresse.Some? && u.postadresse.value.adresse.Some?
    ensures MapNorway(organizationNumber, u, countryName).Success? ==>
              var ci := MapNorway(organizationNumber, u, countryName).value;
              var a := u.postadresse.value;
              && ci.identifier == CI.Identifier(NorwayAuthority, organizationNumber)
              && ci.name == u.navn
              && ci.registrationDate == u.registreringsdatoEnhetsregisteret
              && CI.WriteCode(ci.legalform.code) == "NO_" + u.organisasjonsform.value.kode
              && CI.CountryOf(ci.legalform.code) == CI.Norway
              && ci.legalform.formType.None?
              && ci.addresses == Some(CI.Addresses(Some(CI.PostalAddress(
                   Text.Join(';', a.adresse.value) + ";" + a.postnummer + ";" + a.poststed
                   + ";" + countryName(a.landkode))), None))
  {
    if u.organisasjonsform.Some? {
      LegalFormCodeScheme(CI.Norway, u.organisasjonsform.value.kode);
    }
  }

  /** The status is `SomeRegistered` exactly when at least one of the three flags is set. */
  lemma NorwayLegalStatusFlags(u: Nor.Unit)
    ensures NorwayLegalStatus(u) == CI.SomeRegistered <==>
              u.underTvangsavviklingEllerTvangsopplosning || u.underAvvikling || u.konkurs
    ensures NorwayLegalStatus(u) == CI.NoRegistered <==>
              !u.underTvangsavviklingEllerTvangsopplosning && !u.underAvvikling && !u.konkurs
  {
  }

  /** The postal address ends with the looked-up country name, after a `';'`. */
  lemma NorwayAddressEndsWithCountry(a: Nor.EnhetAdresse, countryName: string -> string)
    requires NorwayFullAddress(a, countryName).Success?
    ensures var full := NorwayFullAddress(a, countryName).value;
            var tail := ";" + countryName(a.landkode);
            |tail| <= |full| && full[|full| - |tail|..] == tail
  {
    var full := NorwayFullAddress(a, countryName).value;
    var head := Text.Join(';', a.adresse.value) + ";" + a.postnummer + ";" + a.poststed;
    assert full == head + (";" + countryName(a.landkode));
  }

  // ---------------------------------------------------------------------------------------
  // Finland
  // ---------------------------------------------------------------------------------------

  /** An address is current when it has no end date. */
  predicate IsOpen(a: Fin.Address) {
    a.endDate.None?
  }

  function AddressKey(a: Fin.Address): Ordering.Key {
    Ordering.At(a.registrationDate)
  }

  function LiquidationKey(l: Fin.Liquidation): Ordering.Key {
    match l.registrationDate
    case None => Ordering.NullKey
    case Some(t) => Ordering.At(t)
  }

  predicate Anything(l: Fin.Liquidation) {
    true
  }

  /** `Addresses.OrderByDescending(a => a.RegistrationDate).FirstOrDefault(a => a.EndDate == null)`. */
  function LatestOpenAddress(addresses: seq<Fin.Address>): Option<Fin.Address> {
    Ordering.FirstWhere(Ordering.SortDescending(addresses, AddressKey), IsOpen)
  }

  /** `Liquidations.OrderByDescending(l => l.RegistrationDate).FirstOrDefault()`. */
  function LatestLiquidation(ls: seq<Fin.Liquidation>): Option<Fin.Liquidation> {
    Ordering.FirstWhere(Ordering.SortDescending(ls, LiquidationKey), Anything)
  }

  /**
   * The chosen address is null exactly when every address has ended, and otherwise it is the
   * current address with the greatest registration date, the first one listed among equals.
   */
  lemma LatestOpenAddressIsLatest(addresses: seq<Fin.Address>)
    ensures LatestOpenAddress(addresses).None? <==> forall j :: 0 <= j < |addresses| ==> !IsOpen(addresses[j])
    ensures LatestOpenAddress(addresses).Some? ==>
              exists i :: Ordering.IsLatest(addresses, i, AddressKey, IsOpen) && addresses[i] == LatestOpenAddress(addresses).value
  {
    Ordering.FirstOfSortedIsLatest(addresses, AddressKey, IsOpen);
  }

  /** A liquidation is chosen exactly when one is listed; it is one with the latest date. */
  lemma LatestLiquidationIsLatest(ls: seq<Fin.Liquidation>)
    ensures LatestLiquidation(ls).None? <==> |ls| == 0
    ensures LatestLiquidation(ls).Some? ==>
              exists i :: Ordering.IsLatest(ls, i, LiquidationKey, Anything) && ls[i] == LatestLiquidation(ls).value
  {
    Ordering.FirstOfSortedIsLatest(ls, LiquidationKey, Anything);
    if |ls| > 0 {
      assert Anything(ls[0]);
    }
  }

  /** The postal line: care-of (if any), street, postcode, city and language, by `';'`. */
  function FinlandFullAddress(a: Fin.Address): Result<string, Fault> {
    var careOf: Result<string, Fault> :=
      if a.careOf.None? then Success("")
      else if a.careOf.value.CareOfText? then Success(a.careOf.value.text + ";")
      else Failure(Unhandled(InvalidCast));
    match careOf
    case Failure(e) => Failure(e)
    case Success(c) =>
      Success(c + a.street + ";" + Text.IntToString(a.postCode) + ";" + a.city + ";" + Fin.LanguageName(a.language))
  }

  /** `GetFromFinland` from line 113 on, applied to the first result of the search. */
  function MapFinland(companyId: string, unit: Fin.Result): Result<CI.CompanyInformation, Fault> {
    match unit.addresses
    case None => Failure(Unhandled(ArgumentNull))
    case Some(addresses) =>
      var firstAddress := LatestOpenAddress(addresses);
      var liquidation :=
        match unit.liquidations
        case None => None
        case Some(ls) => LatestLiquidation(ls);
      var legalStatus := if liquidation.None? then CI.NoRegistered else CI.SomeRegistered;
      match LegalFormCode("FI_", unit.companyForm)
      case Failure(e) => Failure(e)
      case Success(code) =>
        var ci := CI.CompanyInformation(
          None,
          CI.Identifier(FinlandAuthority, companyId),
          CI.LegalForm(code, None),
          legalStatus,
          unit.name,
          unit.registrationDate);
        match firstAddress
        case None => Success(ci)
        case Some(a) =>
          match FinlandFullAddress(a)
          case Failure(e) => Failure(e)
          case Success(full) => Success(ci.(addresses := Some(CI.Addresses(Some(CI.PostalAddress(full)), None))))
  }

  /** `GetFromFinland`: fetch the search result, take its first entry, map it. */
  function GetFromFinland(companyId: string, up: Upstreams): Result<CI.CompanyInformation, Fault> {
    match MakeRequest(up.finland(FinlandUrl + companyId))
    case Failure(e) => Failure(e)
    case Success(results) =>
      match results.results
      case None => Failure(Unhandled(NullReference))
      case Some(rs) =>
        if |rs| == 0 then Failure(Unhandled(IndexOutOfRange))
        else MapFinland(companyId, rs[0])
  }

  /** A search with no results fails on `Results[0]`; otherwise only the first one is mapped. */
  lemma FinlandFirstResult(companyId: string, up: Upstreams, rs: seq<Fin.Result>)
    requires MakeRequest(up.finland(FinlandUrl + companyId)) == Success(Fin.Unit(Some(rs)))
    ensures |rs| == 0 <==> GetFromFinland(companyId, up) == Failure(Unhandled(IndexOutOfRange))
    ensures |rs| > 0 ==> GetFromFinland(companyId, up) == MapFinland(companyId, rs[0])
  {
    if |rs| > 0 {
      MapFinlandNotIndexError(companyId, rs[0]);
    }
  }

  lemma MapFinlandNotIndexError(companyId: string, unit: Fin.Result)
    ensures MapFinland(companyId, unit) != Failure(Unhandled(IndexOutOfRange))
  {
  }

  /**
   * The address rule: the record has no addresses exactly when every address has ended;
   * otherwise its postal line is built from the latest current address.
   */
  lemma FinlandAddressSelection(companyId: string, unit: Fin.Result)
    requires unit.addresses.Some?
    requires MapFinland(companyId, unit).Success?
    ensures var ci := MapFinland(companyId, unit).value;
            var addresses := unit.addresses.value;
            && (ci.addresses.None? <==> forall j :: 0 <= j < |addresses| ==> !IsOpen(addresses[j]))
            && (ci.addresses.Some? ==>
                  exists i :: && Ordering.IsLatest(addresses, i, AddressKey, IsOpen)
                              && FinlandFullAddress(addresses[i]).Success?
                              && ci.addresses == Some(CI.Addresses(Some(CI.PostalAddress(
                                   FinlandFullAddress(addresses[i]).value)), None)))
  {
    LatestOpenAddressIsLatest(unit.addresses.value);
  }

  /**
   * The Finnish record carries the id unchanged, the office's name, the prefixed company form,
   * and a status that is `SomeRegistered` exactly when some liquidation is listed.
   */
  lemma FinlandMapping(companyId: string, unit: Fin.Result)
    requires MapFinland(companyId, unit).Success?
    ensures var ci := MapFinland(companyId, unit).value;
            && ci.identifier == CI.Identifier(FinlandAuthority, companyId)
            && ci.name == unit.name
            && ci.registrationDate == unit.registrationDate
            && CI.WriteCode(ci.legalform.code) == "FI_" + unit.companyForm
            && CI.CountryOf(ci.legalform.code) == CI.Finland
            && (ci.legalStatus == CI.SomeRegistered <==>
                  unit.liquidations.Some? && |unit.liquidations.value| > 0)
  {
    LegalFormCodeScheme(CI.Finland, unit.companyForm);
    if unit.liquidations.Some? {
      LatestLiquidationIsLatest(unit.liquidations.value);
    }
  }

  /** A Finnish mapping fails exactly on null addresses, an unknown form or a non-text care-of. */
  lemma FinlandMappingFailures(companyId: string, unit: Fin.Result)
    ensures MapFinland(companyId, unit).Failure? <==>
              || unit.addresses.None?
              || !(exists c :: CI.WriteCode(c) == "FI_" + unit.companyForm)
              || (var o := LatestOpenAddress(unit.addresses.value);
                  o.Some? && o.value.careOf == Some(Fin.CareOfOther))
  {
    if unit.addresses.Some? {
      LegalFormCodeScheme(CI.Finland, unit.companyForm);
      var o := LatestOpenAddress(unit.addresses.value);
      if LegalFormCode("FI_", unit.companyForm).Success? && o.Some? {
        FinlandFullAddressFailure(o.value);
      }
    }
  }

  /** The postal line fails only on a care-of value that is not text. */
  lemma FinlandFullAddressFailure(a: Fin.Address)
    ensures FinlandFullAddress(a).Failure? <==> a.careOf == Some(Fin.CareOfOther)
  {
  }

  /** The Norwegian mapping raises no framework exception: its failures are crashes. */
  lemma MapNorwayRaisesNothing(id: string, u: Nor.Unit, countryName: string -> string)
    ensures RaisedBy(MapNorway(id, u, countryName)).None?
  {
  }

  /** The Finnish mapping raises no framework exception: its failures are crashes. */
  lemma MapFinlandRaisesNothing(id: string, unit: Fin.Result)
    ensures RaisedBy(MapFinland(id, unit)).None?
  {
  }

  /** The only framework exceptions of the two registers are those of the request itself. */
  lemma RegistersRaiseOnlyRequestErrors(id: string, up: Upstreams)
    ensures RaisedBy(GetFromNorway(id, up)).Some? ==>
              RaisedBy(GetFromNorway(id, up)) == RaisedBy(MakeRequest(up.norway(NorwayUrl + id)))
    ensures RaisedBy(GetFromFinland(id, up)).Some? ==>
              RaisedBy(GetFromFinland(id, up)) == RaisedBy(MakeRequest(up.finland(FinlandUrl + id)))
  {
    var rn := MakeRequest(up.norway(NorwayUrl + id));
    if rn.Success? {
      MapNorwayRaisesNothing(id, rn.value, up.countryName);
    }
    var rf := MakeRequest(up.finland(FinlandUrl + id));
    if rf.Success? && rf.value.results.Some? && |rf.value.results.value| > 0 {
      MapFinlandRaisesNothing(id, rf.value.results.value[0]);
    }
  }

  // ---------------------------------------------------------------------------------------
  // GetCompanyInformation
  // ---------------------------------------------------------------------------------------

  function UnknownFormatMessage(identifier: string): string {
    "'" + identifier + "' has an unknown format. Expects a ISO/IEC 6523 identifier + \":\" + company-id "
  }

  function UnknownIcdMessage(icd: string): string {
    icd + " is not a recognized ISO/IEC 6523 identifier. Supported ICDs are 0192 (Norway) and 0212 (Finland)."
  }

  /** `GetCompanyInformation`: split on `':'`, then route by the ICD. */
  function GetCompanyInformation(identifier: string, up: Upstreams): Result<CI.CompanyInformation, Fault> {
    var parts := Text.Split(identifier, ':');
    if |parts| != 2 then
      Failure(Evidence(PermanentClient(Metadata.ErrorInvalidInput, UnknownFormatMessage(identifier))))
    else if parts[0] == NorwayIcd then GetFromNorway(parts[1], up)
    else if parts[0] == FinlandIcd then GetFromFinland(parts[1], up)
    else Failure(Evidence(PermanentClient(Metadata.ErrorOrganizationNotFound, UnknownIcdMessage(parts[0]))))
  }

  /**
   * An identifier without exactly one `':'` is rejected as malformed, with code 1; one with
   * exactly one `':'` is an ICD and an id around it, which `IcdRouting` routes.
   */
  lemma IdentifierFormat(identifier: string, up: Upstreams)
    ensures Text.Count(identifier, ':') != 1 ==>
              GetCompanyInformation(identifier, up) ==
                Failure(Evidence(PermanentClient(Metadata.ErrorInvalidInput, UnknownFormatMessage(identifier))))
    ensures Text.Count(identifier, ':') == 1 ==>
              exists icd, id :: identifier == icd + ":" + id && ':' !in icd && ':' !in id
  {
    var parts := Text.Split(identifier, ':');
    if |parts| == 2 {
      Text.JoinSplit(identifier, ':');
      assert identifier == parts[0] + ":" + parts[1];
    }
  }

  /**
   * An identifier `icd + ":" + id` goes to Norway for `0192` and to Finland for `0212`, with
   * `id` unchanged; any other ICD is rejected with code 2 and there is no default register.
   */
  lemma IcdRouting(icd: string, id: string, up: Upstreams)
    requires ':' !in icd && ':' !in id
    ensures GetCompanyInformation(icd + ":" + id, up) ==
              if icd == NorwayIcd then GetFromNorway(id, up)
              else if icd == FinlandIcd then GetFromFinland(id, up)
              else Failure(Evidence(PermanentClient(Metadata.ErrorOrganizationNotFound, UnknownIcdMessage(icd))))
  {
    Text.SplitInTwo(icd, id, ':');
  }

  /** Two instances from the source's own comments: no separator, and two separators. */
  lemma MalformedIdentifierExamples(up: Upstreams)
    ensures GetCompanyInformation("0192", up) ==
              Failure(Evidence(PermanentClient(Metadata.ErrorInvalidInput, UnknownFormatMessage("0192"))))
    ensures GetCompanyInformation("a:b:c", up) ==
              Failure(Evidence(PermanentClient(Metadata.ErrorInvalidInput, UnknownFormatMessage("a:b:c"))))
  {
    Text.SplitPlain("0192", ':');
    Text.SplitInTwo("b", "c", ':');
    assert "b:c" == "b" + [':'] + "c";
    assert "a:b:c" == "a" + [':'] + "b:c";
    Text.SplitAround("a", "b:c", ':');
  }
}
