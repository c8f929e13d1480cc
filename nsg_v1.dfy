/**
 * The country-code endpoint `registered-organisations` (`NSGv1.0.cs`): a request names a
 * country and a national organisation number; Norway is answered from the entity register,
 * Sweden, Finland and Iceland by forwarding to their registers, and errors are written back as
 * an error envelope. The service holds a cache for the Swedish access token.
 *
 * Everything the endpoint reaches over the network, and the framework's lookups, are inputs
 * (`Services`): each register is a function from what is sent to the reply that comes back.
 */
module NsgV1 {
  import opened Wrappers
  import opened Dates
  import opened Outcomes
  import opened NsgModel
  import Text
  import Metadata
  import Errors
  import Token
  import Nor = NorwayUnit
  import EntityRegistry

  // ---------------------------------------------------------------------------------------
  // Inputs and constants
  // ---------------------------------------------------------------------------------------

  /** The collaborators of the endpoint, as functions of what they are given. */
  datatype Services = Services(
    /** `IEntityRegistryService.GetFull`, with the sub-unit fallback. */
    registry: string -> Option<EntityRegistry.RegistryUnit>,
    /** `CountryCodesHelper.GetByCode`. */
    countryName: string -> string,
    /** `UtcDateTime.ToString("yyyy-MM-dd")`. */
    formatDate: Instant -> string,
    /** The Icelandic register, by organisation number. */
    iceland: string -> Reply<RegisteredInformationResponse>,
    /** The Finnish register behind the proxy, by organisation number. */
    finland: string -> Reply<RegisteredInformationResponse>,
    /** The Swedish register, by organisation number and access token. */
    sweden: (string, string) -> Reply<RegisteredInformationResponse>,
    /** The Swedish authorisation server's answer to a client-credentials request. */
    tokenServer: Reply<Token.TokenResponse>)

  const NoneStatus := "NONE"
  const SomeStatus := "SOME"
  const NoneStatusName := "No extraordinary circumstances registered"
  const SomeStatusName := "Some extraordinary circumstances registered"
  const NaceClassification := "http://data.europa.eu/ux2/nace2/nace2"
  const NaceBase := "http://data.europa.eu/ux2/nace2/"
  const NorwayAuthority := "Brønnøysundregistrene"
  const TokenKey := "TokenSE"
  const MissingRequestId := "NOT_SET"

  /** The error of a notation that is not nine digits after filtering. */
  const InvalidNotation := Errors.ErrorFields(
    Some("TBD"), Some("urn:bronnoysundregistrene:error:validation"), Some("invalid"), Some("Notation"),
    Some("Invalid identifier format"), 500, Some("Invalid Notation"))

  /** The error of an unknown or deleted organisation. */
  const NotFound := Errors.ErrorFields(
    Some("TBD"), Some("urn:bronnoysundregistrene:error:validation"), Some("not.found"), Some("Notation"),
    Some("Organisation does not exist or has been deleted"), 404, Some("Not found"))

  /** The error raised when a register's error answer cannot be passed on. */
  function RemoteServerError(reasonPhrase: string, status: int): Errors.ErrorFields {
    Errors.ErrorFields(
      Some("TBD"), Some("urn:bronnoysundregistrene:error:unknown"), Some("server.error"), Some(""),
      Some("Could not process response from external api, " + reasonPhrase), status, Some("Remote server error"))
  }

  // ---------------------------------------------------------------------------------------
  // Dispatch
  // ---------------------------------------------------------------------------------------

  datatype Destination = ToNorway | ToSweden | ToFinland | ToIceland | ToDenmark | Unsupported

  /** The `switch` of `GetRegisteredInformation`; a null country matches no case. */
  function Route(country: Option<string>): Destination {
    match country
    case None => Unsupported
    case Some(c) =>
      if c == "" || c == "NO" then ToNorway
      else if c == "SE" then ToSweden
      else if c == "FI" then ToFinland
      else if c == "IS" then ToIceland
      else if c == "DE" then ToDenmark
      else Unsupported
  }

  /** The routing table, case by case, with the empty code as Norway and null as unsupported. */
  lemma RouteTable(country: Option<string>)
    ensures Route(country) == ToNorway <==> country == Some("") || country == Some("NO")
    ensures Route(country) == ToSweden <==> country == Some("SE")
    ensures Route(country) == ToFinland <==> country == Some("FI")
    ensures Route(country) == ToIceland <==> country == Some("IS")
    ensures Route(country) == ToDenmark <==> country == Some("DE")
    ensures Route(country) == Unsupported <==>
              country !in {Some(""), Some("NO"), Some("SE"), Some("FI"), Some("IS"), Some("DE")}
  {
  }

  // ---------------------------------------------------------------------------------------
  // Forwarding to Iceland, Sweden and Finland
  // ---------------------------------------------------------------------------------------

  /** A successful answer: its body, which may be the JSON `null`. */
  function SuccessBody(payload: Body<RegisteredInformationResponse>): Result<Option<RegisteredInformationResponse>, Fault> {
    match payload
    case Parsed(v) => Success(Some(v))
    case NullBody => Success(None)
    case Unparseable => Failure(Unhandled(JsonReader))
  }

  /**
   * The Icelandic and Swedish translation of a reply: a successful body is passed on; an error
   * envelope is re-raised with its own fields; an error body reading as null becomes the
   * generic remote-server error with the reply's status.
   */
  function Forward(reply: Reply<RegisteredInformationResponse>): Result<Option<RegisteredInformationResponse>, Fault> {
    match reply
    case NetworkFailure => Failure(Unhandled(HttpRequest))
    case Answer(status, reason, payload, errorPayload) =>
      if IsSuccessStatusCode(status) then SuccessBody(payload)
      else
        match errorPayload
        case Parsed(e) => Failure(Nsg(Errors.FieldsOf(e)))
        case NullBody => Failure(Nsg(RemoteServerError(reason, status)))
        case Unparseable => Failure(Unhandled(JsonReader))
  }

  /**
   * The Finnish translation: as `Forward` on success, but the whole error branch sits in a
   * `try` whose `catch (Exception)` also catches the `NsgException` raised inside it, so every
   * error answer ends as the generic remote-server error.
   */
  function ForwardFinland(reply: Reply<RegisteredInformationResponse>): Result<Option<RegisteredInformationResponse>, Fault> {
    match reply
    case NetworkFailure => Failure(Unhandled(HttpRequest))
    case Answer(status, reason, payload, _) =>
      if IsSuccessStatusCode(status) then SuccessBody(payload)
      else Failure(Nsg(RemoteServerError(reason, status)))
  }

  /** `GetFromIceland`. */
  function FromIceland(organisationNumber: string, s: Services): Result<Option<RegisteredInformationResponse>, Fault> {
    Forward(s.iceland(organisationNumber))
  }

  /** `GetFromFinland`. */
  function FromFinland(organisationNumber: string, s: Services): Result<Option<RegisteredInformationResponse>, Fault> {
    ForwardFinland(s.finland(organisationNumber))
  }

  /**
   * Iceland and Sweden: an error answer always raises an `NsgException`; it carries the
   * envelope's own fields when the body is an envelope, and otherwise the generic error with
   * the reply's status and reason. A successful answer is passed on as it was read.
   */
  lemma ForwardTranslation(reply: Reply<RegisteredInformationResponse>)
    ensures Forward(reply).Success? <==>
              reply.Answer? && IsSuccessStatusCode(reply.status) && !reply.payload.Unparseable?
    ensures Forward(reply).Success? ==>
              Forward(reply).value == (if reply.payload.Parsed? then Some(reply.payload.value) else None)
    ensures reply.Answer? && !IsSuccessStatusCode(reply.status) && reply.errorPayload.Parsed? ==>
              Forward(reply) == Failure(Nsg(Errors.FieldsOf(reply.errorPayload.value)))
    ensures reply.Answer? && !IsSuccessStatusCode(reply.status) && reply.errorPayload.NullBody? ==>
              Forward(reply) == Failure(Nsg(RemoteServerError(reply.reasonPhrase, reply.status)))
    ensures Forward(reply).Failure? && Forward(reply).error.Nsg? <==>
              reply.Answer? && !IsSuccessStatusCode(reply.status) && !reply.errorPayload.Unparseable?
  {
  }

  /**
   * Finland: every error answer, whatever its body, ends as the generic error; the upstream
   * envelope is never passed on.
   */
  lemma FinlandErrorIsAlwaysGeneric(reply: Reply<RegisteredInformationResponse>)
    ensures reply.Answer? && !IsSuccessStatusCode(reply.status) ==>
              ForwardFinland(reply) == Failure(Nsg(RemoteServerError(reply.reasonPhrase, reply.status)))
    ensures reply.Answer? && IsSuccessStatusCode(reply.status) ==> ForwardFinland(reply) == Forward(reply)
    ensures ForwardFinland(reply).Failure? && ForwardFinland(reply).error.Nsg? ==>
              ForwardFinland(reply).error.error.title == Some("Remote server error")
  {
  }

  /** An upstream envelope Iceland passes on and Finland replaces, on the same reply. */
  lemma FinlandDropsUpstreamEnvelope()
    ensures var e := Errors.EmptyEnvelope.(status := 404, title := Some("Gone"));
            var reply: Reply<RegisteredInformationResponse> := Answer(404, "Not Found", NullBody, Parsed(e));
            && Forward(reply) == Failure(Nsg(Errors.FieldsOf(e)))
            && ForwardFinland(reply) != Forward(reply)
  {
    var e := Errors.EmptyEnvelope.(status := 404, title := Some("Gone"));
    assert |Some("Gone").value| == 4;
  }

  /** The generic error keeps the status, and its detail ends with the reason phrase. */
  lemma RemoteServerErrorCarriesStatus(reasonPhrase: string, status: int)
    ensures RemoteServerError(reasonPhrase, status).status == status
    ensures var d := RemoteServerError(reasonPhrase, status).detail.value;
            |reasonPhrase| <= |d| && d[|d| - |reasonPhrase|..] == reasonPhrase
  {
  }

  // ---------------------------------------------------------------------------------------
  // Norway
  // ---------------------------------------------------------------------------------------

  /** An address line: lines, postcode, place and country, separated by `", "`. */
  function AddressLine(a: Nor.EnhetAdresse, countryName: string -> string): Result<string, Fault> {
    match a.adresse
    case None => Failure(Unhandled(ArgumentNull))
    case Some(lines) =>
      Success(Text.Join(',', lines) + ", " + a.postnummer + ", " + a.poststed + ", " + countryName(a.landkode))
  }

  /** The line of an address that may be absent; an absent address sets nothing. */
  function OptionalLine(a: Option<Nor.EnhetAdresse>, countryName: string -> string): Result<Option<string>, Fault> {
    match a
    case None => Success(None)
    case Some(address) =>
      match AddressLine(address, countryName)
      case Failure(e) => Failure(e)
      case Success(line) => Success(Some(line))
  }

  /** The NACE code of an industry code: the first four characters once the dots are gone. */
  function NaceCode(kode: string): Option<string> {
    var digits := Text.Without(kode, '.');
    if |digits| < 4 then None else Some(digits[..4])
  }

  /** The activity of slot `k`, when that industry code is present. */
  function Slot(k: int, code: Option<Nor.InstitusjonellSektorkode>): Result<seq<Activity>, Fault> {
    match code
    case None => Success([])
    case Some(c) =>
      match NaceCode(c.kode)
      case None => Failure(Unhandled(ArgumentOutOfRange))
      case Some(nace) => Success([Activity(nace, NaceClassification, NaceBase + nace, k)])
  }

  function SlotCode(u: EntityRegistry.RegistryUnit, k: int): Option<Nor.InstitusjonellSektorkode>
    requires 1 <= k <= 3
  {
    if k == 1 then u.naeringskode1 else if k == 2 then u.naeringskode2 else u.naeringskode3
  }

  /** The activities of the three industry-code slots, in slot order. */
  function NaceActivities(u: EntityRegistry.RegistryUnit): Result<seq<Activity>, Fault> {
    match Slot(1, u.naeringskode1)
    case Failure(e) => Failure(e)
    case Success(a1) =>
      match Slot(2, u.naeringskode2)
      case Failure(e) => Failure(e)
      case Success(a2) =>
        match Slot(3, u.naeringskode3)
        case Failure(e) => Failure(e)
        case Success(a3) => Success(a1 + a2 + a3)
  }

  /** The status code: the flags are read with `.Value` in order, stopping at the first true one. */
  function NorwayLegalStatusCode(u: EntityRegistry.RegistryUnit): Result<string, Fault> {
    match u.underTvangsavviklingEllerTvangsopplosning
    case None => Failure(Unhandled(InvalidOperation))
    case Some(forced) =>
      if forced then Success(SomeStatus)
      else
        match u.underAvvikling
        case None => Failure(Unhandled(InvalidOperation))
        case Some(liquidating) =>
          if liquidating then Success(SomeStatus)
          else
            match u.konkurs
            case None => Failure(Unhandled(InvalidOperation))
            case Some(bankrupt) => Success(if bankrupt then SomeStatus else NoneStatus)
  }

  /** The status name, chosen by the code alone. */
  function LegalStatusName(code: string): string {
    if code == NoneStatus then NoneStatusName else SomeStatusName
  }

  /** The response `GetFromNorway` builds from a unit that exists and is not deleted. */
  function NorwayRecord(u: EntityRegistry.RegistryUnit, s: Services): Result<RegisteredInformationResponse, Fault> {
    match u.registreringsdatoEnhetsregisteret
    case None => Failure(Unhandled(InvalidOperation))
    case Some(date) =>
      match OptionalLine(u.forretningsadresse, s.countryName)
      case Failure(e) => Failure(e)
      case Success(registered) =>
        match OptionalLine(u.postadresse, s.countryName)
        case Failure(e) => Failure(e)
        case Success(postal) =>
          match u.organisasjonsform
          case None => Failure(Unhandled(NullReference))
          case Some(form) =>
            match NaceActivities(u)
            case Failure(e) => Failure(e)
            case Success(activities) =>
              match NorwayLegalStatusCode(u)
              case Failure(e) => Failure(e)
              case Success(code) =>
                Success(RegisteredInformationResponse(
                  Some(activities),
                  Some(Identifier(NorwayAuthority, u.organisasjonsnummer)),
                  Some(Legalform("NO_" + form.kode, form.beskrivelse)),
                  Some(Legalstatus(code, LegalStatusName(code))),
                  Some(u.navn),
                  if postal.Some? then Some(Postaladdress(postal.value)) else None,
                  if registered.Some? then Some(Registeredaddress(registered.value)) else None,
                  Some(s.formatDate(date))))
  }

  /** `GetFromNorway`: validate the notation, look the unit up, and map it. */
  function NorwayResponse(notation: string, s: Services): Result<RegisteredInformationResponse, Fault> {
    var organizationNumber := Text.KeepDigits(notation);
    if !Text.MatchesNineDigits(organizationNumber) then Failure(Nsg(InvalidNotation))
    else
      match s.registry(organizationNumber)
      case None => Failure(Nsg(NotFound))
      case Some(u) => if u.slettedato.Some? then Failure(Nsg(NotFound)) else NorwayRecord(u, s)
  }

  /** The validation: non-digits are dropped, and what is left must be exactly nine digits. */
  lemma NorwayNotationValidation(notation: string, s: Services)
    ensures NorwayResponse(notation, s) == Failure(Nsg(InvalidNotation)) <==> |Text.KeepDigits(notation)| != 9
  {
    Text.NineDigitsAfterFilter(notation);
    var d := Text.KeepDigits(notation);
    if |d| == 9 {
      match s.registry(d)
      case None =>
      case Some(u) =>
        if u.slettedato.None? {
          NorwayRecordRaisesNoNsg(u, s);
        }
    }
  }

  /** The mapping of a found unit throws no `NsgException`: its failures are crashes. */
  lemma NorwayRecordRaisesNoNsg(u: EntityRegistry.RegistryUnit, s: Services)
    ensures NorwayRecord(u, s).Failure? ==> NorwayRecord(u, s).error.Unhandled?
  {
  }

  /**
   * With a valid notation, the organisation is not found exactly when the register has no unit
   * for the nine digits or the unit has a deletion date; the register is asked for the digits.
   */
  lemma NorwayNotFound(notation: string, s: Services)
    requires |Text.KeepDigits(notation)| == 9
    ensures var found := s.registry(Text.KeepDigits(notation));
            NorwayResponse(notation, s) == Failure(Nsg(NotFound)) <==> found.None? || found.value.slettedato.Some?
    ensures var found := s.registry(Text.KeepDigits(notation));
            found.Some? && found.value.slettedato.None? ==> NorwayResponse(notation, s) == NorwayRecord(found.value, s)
  {
    Text.NineDigitsAfterFilter(notation);
    var found := s.registry(Text.KeepDigits(notation));
    if found.Some? {
      NorwayRecordRaisesNoNsg(found.value, s);
    }
  }

  /** The status is `"SOME"` exactly when a flag is set; it is read only up to the first true flag. */
  lemma NorwayLegalStatusFlags(u: EntityRegistry.RegistryUnit)
    ensures NorwayLegalStatusCode(u).Success? ==>
              (NorwayLegalStatusCode(u).value == SomeStatus <==>
                 u.underTvangsavviklingEllerTvangsopplosning == Some(true) || u.underAvvikling == Some(true)
                 || u.konkurs == Some(true))
    ensures NorwayLegalStatusCode(u).Success? ==>
              NorwayLegalStatusCode(u).value == SomeStatus || NorwayLegalStatusCode(u).value == NoneStatus
    ensures NorwayLegalStatusCode(u).Failure? <==>
              || u.underTvangsavviklingEllerTvangsopplosning.None?
              || (u.underTvangsavviklingEllerTvangsopplosning == Some(false) && u.underAvvikling.None?)
              || (u.underTvangsavviklingEllerTvangsopplosning == Some(false) && u.underAvvikling == Some(false)
                  && u.konkurs.None?)
  {
  }

  /** The name follows the code: the `"NONE"` name for `"NONE"`, the other name for anything else. */
  lemma LegalStatusNameByCode(code: string)
    ensures LegalStatusName(code) == NoneStatusName <==> code == NoneStatus
    ensures LegalStatusName(code) == SomeStatusName <==> code != NoneStatus
  {
  }

  /**
   * The activities: at most three, in slot order, one for slot `k` exactly when industry
   * code `k` is present, with `Sequence` equal to the slot, a four-character code without dots
   * taken from the start of the dot-free `Kode`, and a reference that is the NACE base followed
   * by the code. They fail exactly when a present code has fewer than four characters left.
   */
  lemma NaceActivitiesShape(u: EntityRegistry.RegistryUnit)
    ensures NaceActivities(u).Failure? <==>
              exists k :: 1 <= k <= 3 && SlotCode(u, k).Some? && NaceCode(SlotCode(u, k).value.kode).None?
    ensures NaceActivities(u).Success? ==>
              var acts := NaceActivities(u).value;
              && |acts| <= 3
              && (forall i, j :: 0 <= i < j < |acts| ==> acts[i].sequence < acts[j].sequence)
              && (forall k :: 1 <= k <= 3 ==>
                    (SlotCode(u, k).Some? <==> exists i :: 0 <= i < |acts| && acts[i].sequence == k))
              && (forall i :: 0 <= i < |acts| ==>
                    && 1 <= acts[i].sequence <= 3
                    && SlotCode(u, acts[i].sequence).Some?
                    && NaceCode(SlotCode(u, acts[i].sequence).value.kode) == Some(acts[i].code)
                    && |acts[i].code| == 4 && '.' !in acts[i].code
                    && acts[i].inClassification == NaceClassification
                    && acts[i].reference == NaceBase + acts[i].code)
  {
    if NaceActivities(u).Success? {
      var a1, a2, a3 := Slot(1, u.naeringskode1).value, Slot(2, u.naeringskode2).value, Slot(3, u.naeringskode3).value;
      SlotShape(1, u.naeringskode1);
      SlotShape(2, u.naeringskode2);
      SlotShape(3, u.naeringskode3);
      var acts := a1 + a2 + a3;
      assert acts == NaceActivities(u).value;
      forall k | 1 <= k <= 3
        ensures SlotCode(u, k).Some? <==> exists i :: 0 <= i < |acts| && acts[i].sequence == k
      {
        if SlotCode(u, k).Some? {
          var i := if k == 1 then 0 else if k == 2 then |a1| else |a1| + |a2|;
          assert acts[i].sequence == k;
        }
      }
    } else {
      if Slot(1, u.naeringskode1).Failure? {
        assert SlotCode(u, 1) == u.naeringskode1;
      } else if Slot(2, u.naeringskode2).Failure? {
        assert SlotCode(u, 2) == u.naeringskode2;
      } else {
        assert SlotCode(u, 3) == u.naeringskode3;
      }
    }
  }

  /** One slot: nothing for an absent code, otherwise one activity built from the code. */
  lemma SlotShape(k: int, code: Option<Nor.InstitusjonellSektorkode>)
    requires Slot(k, code).Success?
    ensures |Slot(k, code).value| == if code.Some? then 1 else 0
    ensures code.Some? ==>
              var a := Slot(k, code).value[0];
              && a.sequence == k
              && NaceCode(code.value.kode) == Some(a.code)
              && |a.code| == 4 && '.' !in a.code
              && a.inClassification == NaceClassification
              && a.reference == NaceBase + a.code
  {
    if code.Some? {
      var digits := Text.Without(code.value.kode, '.');
      assert '.' !in digits;
      assert digits[..4] == Slot(k, code).value[0].code;
      assert forall i :: 0 <= i < 4 ==> digits[..4][i] == digits[i];
    }
  }

  /**
   * The record of a found unit: the register's number and name unchanged, the prefixed legal
   * form with its description, each address set exactly when the unit has one, in the
   * `", "`-separated format, the formatted registration date, and the status by the flags.
   */
  lemma NorwayRecordContent(u: EntityRegistry.RegistryUnit, s: Services)
    requires NorwayRecord(u, s).Success?
    ensures var r := NorwayRecord(u, s).value;
            && r.identifier == Some(Identifier(NorwayAuthority, u.organisasjonsnummer))
            && r.name == Some(u.navn)
            && r.registrationDate == Some(s.formatDate(u.registreringsdatoEnhetsregisteret.value))
            && r.legalForm == Some(Legalform("NO_" + u.organisasjonsform.value.kode, u.organisasjonsform.value.beskrivelse))
            && r.activity == Some(NaceActivities(u).value)
            && r.legalStatus == Some(Legalstatus(NorwayLegalStatusCode(u).value, LegalStatusName(NorwayLegalStatusCode(u).value)))
            && (r.registeredAddress.Some? <==> u.forretningsadresse.Some?)
            && (r.postalAddress.Some? <==> u.postadresse.Some?)
            && (r.registeredAddress.Some? ==>
                  r.registeredAddress.value.fullAddress == AddressLine(u.forretningsadresse.value, s.countryName).value)
            && (r.postalAddress.Some? ==>
                  r.postalAddress.value.fullAddress == AddressLine(u.postadresse.value, s.countryName).value)
  {
  }

  /** An address line ends with `", "` and the looked-up country name. */
  lemma AddressLineEndsWithCountry(a: Nor.EnhetAdresse, countryName: string -> string)
    requires AddressLine(a, countryName).Success?
    ensures var line := AddressLine(a, countryName).value;
            var tail := ", " + countryName(a.landkode);
            |tail| <= |line| && line[|line| - |tail|..] == tail
  {
    var line := AddressLine(a, countryName).value;
    var head := Text.Join(',', a.adresse.value) + ", " + a.postnummer + ", " + a.poststed;
    assert line == head + (", " + countryName(a.landkode));
  }

  /**
   * `GetFromNorway`, as it builds the response: start from an empty response and set one
   * property after the other, appending each activity to the list.
   */
  method GetFromNorway(notation: string, s: Services) returns (r: Result<RegisteredInformationResponse, Fault>)
    ensures r == NorwayResponse(notation, s)
  {
    var organizationNumber := Text.KeepDigits(notation);
    if !Text.MatchesNineDigits(organizationNumber) {
      return Failure(Nsg(InvalidNotation));
    }
    var found := s.registry(organizationNumber);
    if found.None? || found.value.slettedato.Some? {
      return Failure(Nsg(NotFound));
    }
    var u := found.value;
    var response := EmptyResponse;
    if u.registreringsdatoEnhetsregisteret.None? {
      return Failure(Unhandled(InvalidOperation));
    }
    response := response.(registrationDate := Some(s.formatDate(u.registreringsdatoEnhetsregisteret.value)));
    response := response.(name := Some(u.navn));
    if u.forretningsadresse.Some? {
      var line := AddressLine(u.forretningsadresse.value, s.countryName);
      if line.Failure? {
        return Failure(line.error);
      }
      response := response.(registeredAddress := Some(Registeredaddress(line.value)));
    }
    if u.postadresse.Some? {
      var line := AddressLine(u.postadresse.value, s.countryName);
      if line.Failure? {
        return Failure(line.error);
      }
      response := response.(postalAddress := Some(Postaladdress(line.value)));
    }
    if u.organisasjonsform.None? {
      return Failure(Unhandled(NullReference));
    }
    response := response.(legalForm := Some(Legalform("NO_" + u.organisasjonsform.value.kode,
                                                       u.organisasjonsform.value.beskrivelse)));
    response := response.(activity := Some([]));
    var a1 := Slot(1, u.naeringskode1);
    if a1.Failure? {
      return Failure(a1.error);
    }
    response := response.(activity := Some(response.activity.value + a1.value));
    var a2 := Slot(2, u.naeringskode2);
    if a2.Failure? {
      return Failure(a2.error);
    }
    response := response.(activity := Some(response.activity.value + a2.value));
    var a3 := Slot(3, u.naeringskode3);
    if a3.Failure? {
      return Failure(a3.error);
    }
    response := response.(activity := Some(response.activity.value + a3.value));
    response := response.(identifier := Some(Identifier(NorwayAuthority, u.organisasjonsnummer)));
    var code := NorwayLegalStatusCode(u);
    if code.Failure? {
      return Failure(code.error);
    }
    response := response.(legalStatus := Some(Legalstatus(code.value, LegalStatusName(code.value))));
    assert [] + a1.value + a2.value + a3.value == a1.value + a2.value + a3.value;
    return Success(response);
  }

  // ---------------------------------------------------------------------------------------
  // The unused status classification
  // ---------------------------------------------------------------------------------------

  /**
   * `NSGv1.MakeRequest<T>`. On a network failure the status reported is the one of the empty
   * `HttpResponseMessage` the method started with, which is 200.
   */
  function NsgMakeRequest<T>(reply: Reply<T>): Result<T, Fault> {
    match reply
    case NetworkFailure =>
      Failure(Nsg(Errors.ErrorFields(
        Some("TBD"), Some("urn:bronnoysundregistrene:error:network"), Some("network.error"), Some(""),
        Some("Request to remote api failed"), 200, Some("Network error"))))
    case Answer(status, _, payload, _) =>
      if !IsSuccessStatusCode(status) then
        Failure(Nsg(
          if status == 404 then NotFound
          else if status == 400 then
            Errors.ErrorFields(
              Some("TBD"), Some("urn:bronnoysundregistrene:error:network"), Some("server.error"), Some(""),
              Some("Request to remote api failed unexpectedly"), 400, Some("Not found"))
          else
            Errors.ErrorFields(
              Some("TBD"), Some("urn:bronnoysundregistrene:error"), Some("server.error"), Some(""),
              Some("Request to remote api failed unexpectedly"), status, Some("Error"))))
      else
        match payload
        case Parsed(v) => Success(v)
        case NullBody =>
          Failure(Evidence(PermanentServer(Metadata.ErrorUpstreamError,
            "Did not understand the data model returned from upstream source")))
        case Unparseable => Failure(Unhandled(JsonReader))
  }

  /**
   * Every failing status raises an `NsgException` carrying that status; 404 is the not-found
   * error of the Norwegian lookup; a network failure reports status 200; only a null body of a
   * successful answer raises the framework's permanent server error.
   */
  lemma NsgMakeRequestClassification<T>(reply: Reply<T>)
    ensures NsgMakeRequest(reply).Success? <==>
              reply.Answer? && IsSuccessStatusCode(reply.status) && reply.payload.Parsed?
    ensures reply.Answer? && !IsSuccessStatusCode(reply.status) ==>
              NsgMakeRequest(reply).Failure? && NsgMakeRequest(reply).error.Nsg?
              && NsgMakeRequest(reply).error.error.status == reply.status
    ensures reply.Answer? && reply.status == 404 ==> NsgMakeRequest(reply) == Failure(Nsg(NotFound))
    ensures reply.NetworkFailure? ==>
              NsgMakeRequest(reply).Failure? && NsgMakeRequest(reply).error.Nsg?
              && NsgMakeRequest(reply).error.error.status == 200
    ensures NsgMakeRequest(reply).Failure? && NsgMakeRequest(reply).error.Evidence? <==>
              reply.Answer? && IsSuccessStatusCode(reply.status) && reply.payload.NullBody?
  {
  }

  // ---------------------------------------------------------------------------------------
  // The Swedish access token
  // ---------------------------------------------------------------------------------------

  /** A cache entry: the token and the time to live it was stored with, in seconds. */
  datatype CachedToken = CachedToken(token: Token.TokenResponse, ttlSeconds: int)

  /** `Math.Max(0, token.ExpiresIn - 5)`, where the subtraction wraps around like an `int`. */
  function TtlSeconds(expiresIn: Token.Int32): (r: int)
    ensures 0 <= r < 0x8000_0000
  {
    var d := Token.Wrap32(expiresIn - 5);
    if d < 0 then 0 else d
  }

  /**
   * The time to live is five seconds short of the token's lifetime, and never negative; only
   * a lifetime within five of the smallest `int` wraps around to a large positive value.
   */
  lemma TtlSecondsValue(expiresIn: Token.Int32)
    ensures expiresIn >= -0x8000_0000 + 5 ==> TtlSeconds(expiresIn) == if expiresIn < 5 then 0 else expiresIn - 5
    ensures expiresIn < -0x8000_0000 + 5 ==> TtlSeconds(expiresIn) == expiresIn - 5 + 0x1_0000_0000
  {
  }

  /** A concrete instance of the wrap-around: a lifetime of `int.MinValue` lives 2147483643 seconds. */
  lemma TtlSecondsWrapExample()
    ensures TtlSeconds(-0x8000_0000) == 0x7FFF_FFFB
  {
  }

  /** Whether a call looks in the cache before going to the authorisation server. */
  predicate ConsultsCache(useCache: bool, tokenCaching: bool, cache: map<string, CachedToken>) {
    useCache && tokenCaching && TokenKey in cache
  }

  /**
   * `GetTokenSE`: the token it returns and the cache after the call. A cache hit needs both
   * flags and the key. Otherwise the token server's body is read whatever its status, and a
   * token read is stored under the key whether caching is on or not; a body reading as null
   * fails on `ExpiresIn` before anything is stored. The memory cache refuses an entry whose
   * absolute expiration relative to now is not positive, so a token with no time to live
   * (`ExpiresIn` of 5 or less, as in a body without `expires_in`) fails the store and is
   * neither stored nor returned.
   */
  function TokenOutcome(useCache: bool, tokenCaching: bool, cache: map<string, CachedToken>,
                        server: Reply<Token.TokenResponse>)
    : (Result<Token.TokenResponse, Fault>, map<string, CachedToken>)
  {
    if ConsultsCache(useCache, tokenCaching, cache) then (Success(cache[TokenKey].token), cache)
    else
      match server
      case NetworkFailure => (Failure(Unhandled(HttpRequest)), cache)
      case Answer(_, _, payload, _) =>
        match payload
        case Unparseable => (Failure(Unhandled(JsonReader)), cache)
        case NullBody => (Failure(Unhandled(NullReference)), cache)
        case Parsed(t) =>
          if TtlSeconds(t.expiresIn) == 0 then (Failure(Unhandled(ArgumentOutOfRange)), cache)
          else (Success(t), cache[TokenKey := CachedToken(t, TtlSeconds(t.expiresIn))])
  }

  /** A cached token is returned exactly on a hit, and a hit leaves the cache as it was. */
  lemma TokenCacheHit(useCache: bool, tokenCaching: bool, cache: map<string, CachedToken>,
                      server: Reply<Token.TokenResponse>)
    ensures ConsultsCache(useCache, tokenCaching, cache) ==>
              TokenOutcome(useCache, tokenCaching, cache, server) == (Success(cache[TokenKey].token), cache)
    ensures !ConsultsCache(useCache, tokenCaching, cache) ==>
              TokenOutcome(useCache, tokenCaching, cache, server) == TokenOutcome(false, false, cache, server)
    ensures !useCache || !tokenCaching ==>
              TokenOutcome(useCache, tokenCaching, cache, server) == TokenOutcome(false, false, cache, server)
  {
  }

  /**
   * A fetch stores the token read under `"TokenSE"` with five seconds less to live, even with
   * caching off, and changes no other entry, provided that time to live is positive; a token
   * with none fails the store; a fetch that fails changes nothing. The status of the token
   * server's answer plays no part.
   */
  lemma TokenFetch(cache: map<string, CachedToken>, server: Reply<Token.TokenResponse>, tokenCaching: bool)
    ensures var (r, after) := TokenOutcome(false, tokenCaching, cache, server);
            && (r.Success? <==> server.Answer? && server.payload.Parsed? && TtlSeconds(server.payload.value.expiresIn) > 0)
            && (server.Answer? && server.payload.Parsed? && TtlSeconds(server.payload.value.expiresIn) == 0 ==>
                  r == Failure(Unhandled(ArgumentOutOfRange)))
            && (r.Success? ==>
                  && r.value == server.payload.value
                  && after == cache[TokenKey := CachedToken(server.payload.value, TtlSeconds(server.payload.value.expiresIn))])
            && (r.Failure? ==> after == cache)
            && (forall key :: key in cache && key != TokenKey ==> key in after && after[key] == cache[key])
    ensures server.Answer? ==>
              forall status :: TokenOutcome(false, tokenCaching, cache, server) ==
                               TokenOutcome(false, tokenCaching, cache, server.(status := status))
  {
  }

  /**
   * The lifetimes the store refuses: from `int.MinValue + 5` up to 5 seconds. Below that range
   * the subtraction wraps around to a long, positive time to live.
   */
  lemma TokenStoreRefuses(expiresIn: Token.Int32)
    ensures TtlSeconds(expiresIn) == 0 <==> -0x8000_0000 + 5 <= expiresIn <= 5
  {
    TtlSecondsValue(expiresIn);
  }

  /**
   * A token-server error body without `expires_in` reads as a token with lifetime 0: the
   * store fails, nothing is cached, and Sweden is never asked.
   */
  lemma TokenWithoutLifetime(notation: string, cache: map<string, CachedToken>, s: Services)
    requires s.tokenServer == Answer(401, "Unauthorized", Parsed(Token.TokenResponse("", "", "", 0)), NullBody)
    requires TokenKey !in cache
    ensures TokenOutcome(true, true, cache, s.tokenServer) == (Failure(Unhandled(ArgumentOutOfRange)), cache)
    ensures SwedenOutcome(notation, true, cache, s) == (Failure(Unhandled(ArgumentOutOfRange)), cache)
  {
  }

  // ---------------------------------------------------------------------------------------
  // The endpoint
  // ---------------------------------------------------------------------------------------

  /** What the endpoint writes: the response record (possibly `null`), or an error envelope. */
  datatype Written = Info(info: Option<RegisteredInformationResponse>) | ErrorBody(envelope: Errors.ErrorEnvelope)

  /** The HTTP answer: `req.CreateResponse()` gives status 200 in both branches. */
  datatype HttpAnswer = HttpAnswer(status: int, body: Written)

  /** `GetFromSweden`'s outcome and the token cache after it. */
  function SwedenOutcome(notation: string, tokenCaching: bool, cache: map<string, CachedToken>, s: Services)
    : (Result<Option<RegisteredInformationResponse>, Fault>, map<string, CachedToken>)
  {
    var organisationNumber := Text.KeepDigits(notation);
    var (token, after) := TokenOutcome(true, tokenCaching, cache, s.tokenServer);
    match token
    case Failure(e) => (Failure(e), after)
    case Success(t) => (Forward(s.sweden(organisationNumber, t.accessToken)), after)
  }

  /** `GetRegisteredInformation`'s outcome and the token cache after it. */
  function RegisteredInformationOutcome(input: RegisteredInformationRequest, tokenCaching: bool,
                                        cache: map<string, CachedToken>, s: Services)
    : (Result<Option<RegisteredInformationResponse>, Fault>, map<string, CachedToken>)
  {
    match Route(input.country)
    case ToNorway =>
      (match NorwayResponse(input.notation, s)
       case Failure(e) => Failure(e)
       case Success(r) => Success(Some(r)), cache)
    case ToSweden => SwedenOutcome(input.notation, tokenCaching, cache, s)
    case ToFinland => (FromFinland(input.notation, s), cache)
    case ToIceland => (FromIceland(input.notation, s), cache)
    case ToDenmark => (Failure(NotImplemented), cache)
    case Unsupported => (Failure(Evidence(PermanentClient(Metadata.ErrorInvalidInput, "Invalid Country code"))), cache)
  }

  /**
   * The endpoint: an `NsgException` becomes an error envelope with the request id of the
   * `x-request-id` header (or `"NOT_SET"`) and the clock reading `now`; every answer has
   * HTTP status 200; any other failure is not caught.
   */
  function EndpointOutcome(input: Option<RegisteredInformationRequest>, header: Option<string>, now: Instant,
                           tokenCaching: bool, cache: map<string, CachedToken>, s: Services)
    : (Result<HttpAnswer, Fault>, map<string, CachedToken>)
  {
    match input
    case None => (Failure(Unhandled(NullReference)), cache)
    case Some(request) =>
      var (r, after) := RegisteredInformationOutcome(request, tokenCaching, cache, s);
      match r
      case Success(info) => (Success(HttpAnswer(200, Info(info))), after)
      case Failure(Nsg(f)) =>
        (Success(HttpAnswer(200, ErrorBody(Errors.EnvelopeWithRequestId(f, Some(header.GetOr(MissingRequestId)), now)))), after)
      case Failure(e) => (Failure(e), after)
  }

  /** Only the Swedish route touches the token cache. */
  lemma OnlySwedenTouchesCache(input: RegisteredInformationRequest, tokenCaching: bool,
                               cache: map<string, CachedToken>, s: Services)
    ensures Route(input.country) != ToSweden ==> RegisteredInformationOutcome(input, tokenCaching, cache, s).1 == cache
  {
  }

  /**
   * Sweden asks its register with the digits of the notation and the access token, after a
   * token call that may use the cache; a failed token call stops it.
   */
  lemma SwedenRequest(notation: string, tokenCaching: bool, cache: map<string, CachedToken>, s: Services)
    ensures var (token, after) := TokenOutcome(true, tokenCaching, cache, s.tokenServer);
            && SwedenOutcome(notation, tokenCaching, cache, s).1 == after
            && (token.Failure? ==> SwedenOutcome(notation, tokenCaching, cache, s).0 == Failure(token.error))
            && (token.Success? ==>
                  SwedenOutcome(notation, tokenCaching, cache, s).0 ==
                    Forward(s.sweden(Text.KeepDigits(notation), token.value.accessToken)))
  {
  }

  /**
   * Every `NsgException` reaches the caller as an envelope with the exception's seven error
   * fields, the header's request id and the clock reading, under HTTP status 200.
   */
  lemma EndpointEnvelope(input: RegisteredInformationRequest, header: Option<string>, now: Instant,
                         tokenCaching: bool, cache: map<string, CachedToken>, s: Services)
    requires RegisteredInformationOutcome(input, tokenCaching, cache, s).0.Failure?
    requires RegisteredInformationOutcome(input, tokenCaching, cache, s).0.error.Nsg?
    ensures var f := RegisteredInformationOutcome(input, tokenCaching, cache, s).0.error.error;
            var r := EndpointOutcome(Some(input), header, now, tokenCaching, cache, s).0;
            && r.Success? && r.value.status == 200 && r.value.body.ErrorBody?
            && Errors.FieldsOf(r.value.body.envelope) == f
            && r.value.body.envelope.requestId == Some(if header.Some? then header.value else MissingRequestId)
            && r.value.body.envelope.timestamp == now
  {
    var f := RegisteredInformationOutcome(input, tokenCaching, cache, s).0.error.error;
    Errors.EnvelopeRoundTrip(f, Some(header.GetOr(MissingRequestId)), now);
  }

  /** A Norwegian notation that is not nine digits reaches the caller as status 500 in the envelope. */
  lemma EndpointInvalidNorwegianNotation(notation: string, header: Option<string>, now: Instant,
                                         tokenCaching: bool, cache: map<string, CachedToken>, s: Services)
    requires |Text.KeepDigits(notation)| != 9
    ensures var r := EndpointOutcome(Some(RegisteredInformationRequest(Some("NO"), notation)), header, now, tokenCaching, cache, s).0;
            && r.Success? && r.value.status == 200 && r.value.body.ErrorBody?
            && r.value.body.envelope.status == 500
            && r.value.body.envelope.instance == Some("invalid")
  {
    NorwayNotationValidation(notation, s);
  }

  /** The service: the token-caching setting and the token cache it shares between calls. */
  class Service {
    const tokenCaching: bool
    var tokenCache: map<string, CachedToken>

    constructor (tokenCaching: bool, tokenCache: map<string, CachedToken>)
      ensures this.tokenCaching == tokenCaching && this.tokenCache == tokenCache
    {
      this.tokenCaching := tokenCaching;
      this.tokenCache := tokenCache;
    }

    /** `GetTokenSE(useCache)` against the token server's answer `server`. */
    method GetTokenSE(useCache: bool, server: Reply<Token.TokenResponse>) returns (r: Result<Token.TokenResponse, Fault>)
      modifies this
      ensures (r, tokenCache) == TokenOutcome(useCache, tokenCaching, old(tokenCache), server)
    {
      if useCache && tokenCaching {
        if TokenKey in tokenCache {
          return Success(tokenCache[TokenKey].token);
        }
      }
      if server.NetworkFailure? {
        return Failure(Unhandled(HttpRequest));
      }
      match server.payload
      case Unparseable =>
        return Failure(Unhandled(JsonReader));
      case NullBody =>
        return Failure(Unhandled(NullReference));
      case Parsed(token) =>
        var ttl := TtlSeconds(token.expiresIn);
        if ttl == 0 {
          return Failure(Unhandled(ArgumentOutOfRange));
        }
        tokenCache := tokenCache[TokenKey := CachedToken(token, ttl)];
        return Success(token);
    }

    /** `GetFromSweden`: keep the digits, get a token (from the cache if possible), forward. */
    method GetFromSweden(notation: string, s: Services) returns (r: Result<Option<RegisteredInformationResponse>, Fault>)
      modifies this
      ensures (r, tokenCache) == SwedenOutcome(notation, tokenCaching, old(tokenCache), s)
    {
      var organisationNumber := Text.KeepDigits(notation);
      var token := GetTokenSE(true, s.tokenServer);
      if token.Failure? {
        return Failure(token.error);
      }
      r := Forward(s.sweden(organisationNumber, token.value.accessToken));
    }

    /** `GetRegisteredInformation`: the country switch. */
    method GetRegisteredInformation(input: RegisteredInformationRequest, s: Services)
      returns (r: Result<Option<RegisteredInformationResponse>, Fault>)
      modifies this
      ensures (r, tokenCache) == RegisteredInformationOutcome(input, tokenCaching, old(tokenCache), s)
    {
      match Route(input.country)
      case ToNorway =>
        var n := GetFromNorway(input.notation, s);
        r := if n.Failure? then Failure(n.error) else Success(Some(n.value));
      case ToSweden =>
        r := GetFromSweden(input.notation, s);
      case ToFinland =>
        r := FromFinland(input.notation, s);
      case ToIceland =>
        r := FromIceland(input.notation, s);
      case ToDenmark =>
        r := Failure(NotImplemented);
      case Unsupported =>
        r := Failure(Evidence(PermanentClient(Metadata.ErrorInvalidInput, "Invalid Country code")));
    }

    /**
     * `RegisteredInformation`, the endpoint: the request id comes from the header, and an
     * `NsgException` is written as an error envelope filled in field by field.
     */
    method RegisteredInformation(input: Option<RegisteredInformationRequest>, header: Option<string>,
                                 now: Instant, s: Services)
      returns (r: Result<HttpAnswer, Fault>)
      modifies this
      ensures (r, tokenCache) == EndpointOutcome(input, header, now, tokenCaching, old(tokenCache), s)
    {
      var requestHeader := if header.Some? then header.value else MissingRequestId;
      if input.None? {
        return Failure(Unhandled(NullReference));
      }
      var info := GetRegisteredInformation(input.value, s);
      if info.Success? {
        return Success(HttpAnswer(200, Info(info.value)));
      }
      if !info.error.Nsg? {
        return Failure(info.error);
      }
      var ex := info.error.error;
      var errorResponse := new Errors.NsgErrorModel();
      errorResponse.code := ex.code;
      errorResponse.detail := ex.detail;
      errorResponse.instance := ex.instance;
      errorResponse.requestId := Some(requestHeader);
      errorResponse.source := ex.source;
      errorResponse.status := ex.status;
      errorResponse.timestamp := now;
      errorResponse.title := ex.title;
      errorResponse.errorType := ex.errorType;
      return Success(HttpAnswer(200, ErrorBody(errorResponse.Envelope())));
    }
  }
}
