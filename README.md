# NSG evidence source: a Dafny model

This project models the core of the NSG (Nordic Smart Government) evidence source, a set of
Azure functions that answer "which company is this?" for the Nordic business registers. The
model covers the plugin's two entry points:

- **The ICD-path endpoint** (`Plugin.cs`). This is module `Plugin`.
  - An identifier `"<ICD>:<national id>"` is split on `':'`.
  - `0192` goes to the Norwegian Central Coordinating Register and `0212` to the Finnish
    Patent and Registration Office.
  - The register's unit is mapped to the canonical `CompanyInformation` record (module
    `CompanyInformation`).
  - The status classification `MakeRequest` turns register answers into the evidence
    framework's exceptions.
- **The country-code endpoint** `registered-organisations` (`NSGv1.0.cs`). This is module
  `NsgV1`.
  - A request names a country and a national organisation number.
  - Norway is answered from the entity register, with digit filtering, nine-digit
    validation, the deleted-unit check, address and NACE activity assembly, and the legal
    status.
  - Iceland, Sweden and Finland are forwarded to their registers, and their error answers
    are translated.
  - Sweden first obtains an access token through the service's token cache.
  - Errors of type `NsgException` are written back as an error envelope `NSGErrorModel`.
- **The error records** `NsgException` and `NSGErrorModel` (module `Errors`). These are
  classes whose constructors assign their fields one by one.
- **The closed code tables** of `CompanyInformation.cs`. These are the 136-member legal-form
  `Code` and the two-member `LegalStatus`, with their JSON converters, and both are proved to
  be bijections.

The shared pieces are these modules:
- `Text` covers the .NET string operations the core uses: `Split`, `Join`, removing a
  character, filtering digits, the `^\d{9}$` pattern and integer rendering.
- `Ordering` covers the stable `OrderByDescending` and `FirstOrDefault` of the Finnish
  selection rule.
- `Outcomes` covers replies and failures.
- `Token` covers the token record and `int` wrap-around.
- `Metadata` holds the error codes.
- The register record types are `NorwayUnit`, `FinlandUnit`, `EntityRegistry` and
  `NsgModel`.

Everything that crosses the network is an input, not a computation:
- the registers, the entity-register lookup and the token server are functions from what is
  sent to the reply that comes back (`Plugin.Upstreams`, `NsgV1.Services`);
- a reply is a network failure or an answer with a status, a reason phrase and the body read
  as the expected type or as an error envelope;
- country-name lookup and date formatting are functions given to the model;
- the clock reading of an error envelope is a parameter.

Runtime exceptions are part of the model as explicit failures (`Outcomes.Crash`), not as
preconditions. Examples are a null dereference, `Results[0]` of an empty array,
`Substring(0, 4)` of a short code, `.Value` of an empty nullable and an unknown legal-form
code.

The stateful parts are imperative:
- `Errors.NsgException` and `Errors.NsgErrorModel` are classes with field-by-field
  constructors;
- `NsgV1.Service` holds the token cache as a `map` field;
- `GetFromNorway` builds its response step by step.

Each method is proved against a specification function (`NsgV1.TokenOutcome`,
`NsgV1.EndpointOutcome`, `NsgV1.NorwayResponse`, …). The properties are lemmas about those
functions.

### Where the code differs from the repository's description

The model follows the code in each of these cases:
- **Finnish addresses (`Plugin.cs:113-147`).** The code chooses one address and does not
  distinguish address types. It sets no dissolution date from the liquidations. Its postal
  line ends with the name of the address's `Language` value, not with a country.
- **Finnish error answers (`NSGv1.0.cs:187-207`).** They are never passed on, because the
  `catch (Exception)` also catches the `NsgException` raised inside the `try`. The generic
  error therefore always results (`NsgV1.FinlandErrorIsAlwaysGeneric`).
- **Uncaught network failures.** The Icelandic, Swedish and Finnish fetchers, and the token
  call, do not catch a network failure. It escapes as an `HttpRequestException`, not as a
  "network error".
- **Token storing and the cache (`NSGv1.0.cs:243-244`).** A fetched token is stored even when
  token caching is off. A token whose lifetime is 5 seconds or less cannot be stored: the
  store throws, and the request fails. The cache is consulted only when the caller asks
  for it *and* caching is on.
- **The token server's status (`NSGv1.0.cs:239-241`).** It is never checked: its body is read
  as a token whatever the status (`NsgV1.TokenFetch`).

## Model

| member | source | states |
|---|---|---|
| CompanyInformation.ReadLegalStatus | src/Altinn.Dan.Plugin.Nsg/Models/CompanyInformation.cs:247-253 | `"NO_REGISTERED"` reads as `NoRegistered` and `"SOME_REGISTERED"` as `SomeRegistered`, each in both directions |
| CompanyInformation.WriteLegalStatus | src/Altinn.Dan.Plugin.Nsg/Models/CompanyInformation.cs:264-273 | the writer's string for each status; its inverse is ReadLegalStatus, and LegalStatusJsonRoundTrip states the round trip |
| CompanyInformation.ReadLegalStatusJson | src/Altinn.Dan.Plugin.Nsg/Models/CompanyInformation.cs:243-255 | `LegalStatusConverter.ReadJson`: null reads as null, a known string as its status, anything else the unmarshal error; stated by LegalStatusJsonReadWrite |
| CompanyInformation.WriteLegalStatusJson | src/Altinn.Dan.Plugin.Nsg/Models/CompanyInformation.cs:257-275 | `LegalStatusConverter.WriteJson`: null writes null, a status its string; LegalStatusJsonRoundTrip states that ReadLegalStatusJson inverts it |
| CompanyInformation.LegalStatusJsonRoundTrip | src/Altinn.Dan.Plugin.Nsg/Models/CompanyInformation.cs:243-273 | writing a legal status (or null) and reading it back gives the same value |
| CompanyInformation.LegalStatusJsonReadWrite | src/Altinn.Dan.Plugin.Nsg/Models/CompanyInformation.cs:243-254 | every accepted token is what the writer produces for the result; reading fails, with "Cannot unmarshal type LegalStatus", exactly on the other strings; null reads as null |
| CompanyInformation.ReadCode | src/Altinn.Dan.Plugin.Nsg/Models/CompanyInformation.cs:288-562 | a member read from a string has exactly that string as its name |
| CompanyInformation.FinnishCodeRoundTrip | src/Altinn.Dan.Plugin.Nsg/Models/CompanyInformation.cs:290-425 | each of the 68 Finnish members reads back from its name, which starts with `FI_` |
| CompanyInformation.NorwegianCodeRoundTrip | src/Altinn.Dan.Plugin.Nsg/Models/CompanyInformation.cs:426-511 | each of the 43 Norwegian members reads back from its name, which starts with `NO_` |
| CompanyInformation.SwedishCodeRoundTrip | src/Altinn.Dan.Plugin.Nsg/Models/CompanyInformation.cs:512-561 | each of the 25 Swedish members reads back from its name, which starts with `SE_` |
| CompanyInformation.WriteCode | src/Altinn.Dan.Plugin.Nsg/Models/CompanyInformation.cs:574-984 | the writer's name of each of the 136 members; WriteCodeInjective, WriteCodePrefix and CodeRoundTrip state its properties |
| CompanyInformation.ReadCodeJson | src/Altinn.Dan.Plugin.Nsg/Models/CompanyInformation.cs:284-564 | `CodeConverter.ReadJson`: null reads as null, a name as its member, anything else the unmarshal error; stated by CodeJsonReadWrite |
| CompanyInformation.WriteCodeJson | src/Altinn.Dan.Plugin.Nsg/Models/CompanyInformation.cs:566-986 | `CodeConverter.WriteJson`: null writes null, a member its name; CodeJsonRoundTrip states that ReadCodeJson inverts it |
| CompanyInformation.CodeRoundTrip | src/Altinn.Dan.Plugin.Nsg/Models/CompanyInformation.cs:288-983 | reading the name the writer gives a member yields that member, for all 136 members |
| CompanyInformation.WriteCodeInjective | src/Altinn.Dan.Plugin.Nsg/Models/CompanyInformation.cs:574-983 | two members have the same name exactly when they are the same member |
| CompanyInformation.ReadCodeMeansWriteCode | src/Altinn.Dan.Plugin.Nsg/Models/CompanyInformation.cs:288-983 | a string reads as a member exactly when it is that member's name (write(read(s)) == s) |
| CompanyInformation.ReadCodeRejectsOthers | src/Altinn.Dan.Plugin.Nsg/Models/CompanyInformation.cs:288-563 | the reader rejects exactly the strings that are no member's name; there is no default member |
| CompanyInformation.WriteCodePrefix | src/Altinn.Dan.Plugin.Nsg/Models/CompanyInformation.cs:574-983 | every name is longer than three characters and starts with the prefix of its member's national scheme |
| CompanyInformation.AcceptedCodePrefix | src/Altinn.Dan.Plugin.Nsg/Models/CompanyInformation.cs:290-560 | every accepted string starts with exactly one of `FI_`, `NO_`, `SE_`, the one of the member it reads as |
| CompanyInformation.CodeJsonRoundTrip | src/Altinn.Dan.Plugin.Nsg/Models/CompanyInformation.cs:284-983 | writing a code (or null) and reading it back gives the same value |
| CompanyInformation.CodeJsonReadWrite | src/Altinn.Dan.Plugin.Nsg/Models/CompanyInformation.cs:284-563 | accepted tokens are what the writer produces; reading fails with "Cannot unmarshal type Code" exactly on strings that name no member; null reads as null |
| Text.KeepDigits | src/Altinn.Dan.Plugin.Nsg/NSGv1.0.cs:297 | the filtered string has only digits, is no longer than the input, and is the input itself when that has only digits |
| Text.KeepDigitsConcat | src/Altinn.Dan.Plugin.Nsg/NSGv1.0.cs:253 | filtering distributes over concatenation, so digits keep their order |
| Text.KeepDigitsCount | src/Altinn.Dan.Plugin.Nsg/NSGv1.0.cs:297 | each digit survives as often as it occurs; nothing else survives |
| Text.NineDigitsAfterFilter | src/Altinn.Dan.Plugin.Nsg/NSGv1.0.cs:297-298 | on a filtered string, `^\d{9}$` (including its final-newline case) holds exactly when the length is 9 |
| Text.Without | src/Altinn.Dan.Plugin.Nsg/NSGv1.0.cs:352 | removing `'.'` leaves no dot and shortens the string by the number of dots |
| Text.WithoutAbsent | src/Altinn.Dan.Plugin.Nsg/NSGv1.0.cs:352 | removing a character that does not occur changes nothing |
| Text.Split | src/Altinn.Dan.Plugin.Nsg/Plugin.cs:53 | splitting gives one more piece than there are separators, and no piece holds a separator |
| Text.JoinSplit | src/Altinn.Dan.Plugin.Nsg/Plugin.cs:53 | joining the pieces of a split with the separator restores the string |
| Text.SplitJoin | src/Altinn.Dan.Plugin.Nsg/Plugin.cs:96 | splitting a join of separator-free parts gives back the parts |
| Text.SplitInTwo | src/Altinn.Dan.Plugin.Nsg/Plugin.cs:53-54 | a string with exactly one separator splits into the text before and the text after it |
| Text.ParseNatToString | src/Altinn.Dan.Plugin.Nsg/Plugin.cs:175 | the decimal rendering of a natural number reads back as that number |
| Text.IntToStringSign | src/Altinn.Dan.Plugin.Nsg/Plugin.cs:175 | a rendering starts with `-` exactly for negative numbers |
| Text.IntToStringInjective | src/Altinn.Dan.Plugin.Nsg/Exceptions/NsgException.cs:50 | distinct integers render differently |
| Token.Wrap32 | src/Altinn.Dan.Plugin.Nsg/NSGv1.0.cs:244 | the wrapped result is an `int` congruent to the exact result modulo 2^32 |
| Ordering.Insert | src/Altinn.Dan.Plugin.Nsg/Plugin.cs:113 | insertion keeps every element, adds the new one, and keeps a descending sequence descending |
| Ordering.SortDescending | src/Altinn.Dan.Plugin.Nsg/Plugin.cs:113 | `OrderByDescending` gives a permutation of the input in descending key order |
| Ordering.FirstWhere | src/Altinn.Dan.Plugin.Nsg/Plugin.cs:114 | `FirstOrDefault(p)` is null exactly when no element satisfies `p`, and otherwise is an element satisfying `p` |
| Ordering.IsLatestUnique | src/Altinn.Dan.Plugin.Nsg/Plugin.cs:113-114 | at most one position is the latest element satisfying the condition |
| Ordering.FirstWhereInsert | src/Altinn.Dan.Plugin.Nsg/Plugin.cs:113-114 | inserting into a sorted sequence changes the first match only when the new element matches and is not ranked below it |
| Ordering.LatestIndexIsLatest | src/Altinn.Dan.Plugin.Nsg/Plugin.cs:113-114 | the computed position is the latest matching element, and is absent exactly when nothing matches |
| Ordering.FirstOfSortedAtLatestIndex | src/Altinn.Dan.Plugin.Nsg/Plugin.cs:113-114 | sorting stably by descending key, then taking the first match, gives the element at the latest position |
| Ordering.FirstOfSortedIsLatest | src/Altinn.Dan.Plugin.Nsg/Plugin.cs:113-116 | the selection is null exactly when nothing matches; otherwise it is a matching element with the greatest key, the first such in the input |
| Errors.NsgException.constructor | src/Altinn.Dan.Plugin.Nsg/Exceptions/NsgException.cs:25-34 | each of the seven arguments is stored in its own property, unchanged |
| Errors.NsgException.FromEnvelope | src/Altinn.Dan.Plugin.Nsg/Exceptions/NsgException.cs:36-45 | code, type, instance, source, detail, status and title are copied from the envelope |
| Errors.NsgErrorModel.constructor | src/Altinn.Dan.Plugin.Nsg/Models/RegisteredInformation/ErrorModel.cs:17-20 | every field keeps its default value |
| Errors.NsgErrorModel.FromException | src/Altinn.Dan.Plugin.Nsg/Models/RegisteredInformation/ErrorModel.cs:22-33 | the seven error fields are copied from the exception, the timestamp is the clock reading, and the request id stays null |
| Errors.ThroughEnvelope | src/Altinn.Dan.Plugin.Nsg/Models/RegisteredInformation/ErrorModel.cs:22-33 | exception → envelope → exception keeps all seven error fields |
| Errors.EnvelopeFromException | src/Altinn.Dan.Plugin.Nsg/Models/RegisteredInformation/ErrorModel.cs:22-33 | the envelope as the constructor is written, request id null; RequestIdDropped and EnvelopeRoundTrip state its properties, FromException is proved equal to it |
| Errors.EnvelopeWithRequestId | src/Altinn.Dan.Plugin.Nsg/Models/RegisteredInformation/ErrorModel.cs:22-33 | the corrected envelope, which keeps the request id; EnvelopeWithRequestIdKeepsIt states how it differs from the as-written one |
| Errors.Render | src/Altinn.Dan.Plugin.Nsg/Exceptions/NsgException.cs:47-51 | `ToString`: the seven labelled properties; RenderShowsStatus and RenderNullAsEmpty state its properties |
| Errors.EnvelopeRoundTrip | src/Altinn.Dan.Plugin.Nsg/Exceptions/NsgException.cs:36-45 | reading the fields back from either form of the envelope gives the original fields |
| Errors.FieldsOfIgnoresRequestAndTime | src/Altinn.Dan.Plugin.Nsg/Exceptions/NsgException.cs:36-45 | the envelope's timestamp and request id never reach the exception |
| Errors.RequestIdDropped | src/Altinn.Dan.Plugin.Nsg/Models/RegisteredInformation/ErrorModel.cs:27 | as written, the request id is null whatever id is passed, so a given id is lost |
| Errors.RequestIdDroppedExample | src/Altinn.Dan.Plugin.Nsg/Models/RegisteredInformation/ErrorModel.cs:27 | the id `"abc"` is lost |
| Errors.EnvelopeWithRequestIdKeepsIt | src/Altinn.Dan.Plugin.Nsg/Models/RegisteredInformation/ErrorModel.cs:22-33 | the corrected envelope keeps the given request id and the clock reading, and differs from the as-written one only in the request id |
| Errors.RenderShowsStatus | src/Altinn.Dan.Plugin.Nsg/Exceptions/NsgException.cs:47-51 | two errors that differ only in status render differently, and equal statuses render equally |
| Errors.RenderNullAsEmpty | src/Altinn.Dan.Plugin.Nsg/Exceptions/NsgException.cs:47-51 | a null property renders as the empty string |
| Plugin.MakeRequest | src/Altinn.Dan.Plugin.Nsg/Plugin.cs:152-187 | the status classification of a register reply; MakeRequestClassification and TransientMessageNamesStatus state it |
| Plugin.LegalFormCode | src/Altinn.Dan.Plugin.Nsg/Plugin.cs:90 | the string-to-`Code` conversion of the legal form; LegalFormCodeScheme states when it succeeds and in which scheme |
| Plugin.NorwayFullAddress | src/Altinn.Dan.Plugin.Nsg/Plugin.cs:96-99 | the `';'`-joined Norwegian postal line; NorwayAddressEndsWithCountry and NorwayMapping state it |
| Plugin.MapNorway | src/Altinn.Dan.Plugin.Nsg/Plugin.cs:75-103 | the Norwegian object initialiser; NorwayMapping, NorwayLegalStatusFlags and MapNorwayRaisesNothing state it |
| Plugin.GetFromNorway | src/Altinn.Dan.Plugin.Nsg/Plugin.cs:69-106 | fetch then map; RegistersRaiseOnlyRequestErrors states that its framework exceptions come from MakeRequest |
| Plugin.LatestOpenAddress | src/Altinn.Dan.Plugin.Nsg/Plugin.cs:113-114 | the address selection; LatestOpenAddressIsLatest proves it is the latest open address |
| Plugin.LatestLiquidation | src/Altinn.Dan.Plugin.Nsg/Plugin.cs:115-116 | the liquidation selection; LatestLiquidationIsLatest proves it is a latest liquidation |
| Plugin.FinlandFullAddress | src/Altinn.Dan.Plugin.Nsg/Plugin.cs:140-144 | the Finnish postal line; FinlandFullAddressFailure states its only failure |
| Plugin.MapFinland | src/Altinn.Dan.Plugin.Nsg/Plugin.cs:113-149 | the Finnish mapping of the first result; FinlandMapping, FinlandMappingFailures and FinlandAddressSelection state it |
| Plugin.GetFromFinland | src/Altinn.Dan.Plugin.Nsg/Plugin.cs:108-150 | fetch, take `Results[0]`, map; FinlandFirstResult states it |
| Plugin.GetCompanyInformation | src/Altinn.Dan.Plugin.Nsg/Plugin.cs:50-67 | the identifier split and ICD routing; IdentifierFormat and IcdRouting state it |
| Plugin.MakeRequestClassification | src/Altinn.Dan.Plugin.Nsg/Plugin.cs:160-184 | a payload exactly for a 2xx answer with a body; 404 is client error 2, 400 client error 1, other failing statuses and network failures are transient error 3, a null body is server error 3; a body that is not JSON is not classified |
| Plugin.TransientMessageNamesStatus | src/Altinn.Dan.Plugin.Nsg/Plugin.cs:174-175 | two transient status errors are equal exactly when their statuses are |
| Plugin.LegalFormCodeScheme | src/Altinn.Dan.Plugin.Nsg/Plugin.cs:90 | a prefixed national code is accepted exactly when some member has that name, and the member then belongs to the prefix's country |
| Plugin.NorwayMapping | src/Altinn.Dan.Plugin.Nsg/Plugin.cs:75-103 | the mapping succeeds exactly with a known legal form and a postal address with lines; the notation is the id unchanged, the authority is fixed, the code is `"NO_"+Kode` in the Norwegian scheme, and the postal line is the `';'`-joined format |
| Plugin.NorwayLegalStatusFlags | src/Altinn.Dan.Plugin.Nsg/Plugin.cs:85-87 | `SomeRegistered` exactly when one of the three flags is set, `NoRegistered` exactly when none is |
| Plugin.NorwayAddressEndsWithCountry | src/Altinn.Dan.Plugin.Nsg/Plugin.cs:96-99 | the postal line ends with `';'` and the looked-up country name |
| Plugin.LatestOpenAddressIsLatest | src/Altinn.Dan.Plugin.Nsg/Plugin.cs:113-114 | the chosen address is null exactly when every address has an end date; otherwise it is the open address with the latest registration date, the first listed among equals |
| Plugin.LatestLiquidationIsLatest | src/Altinn.Dan.Plugin.Nsg/Plugin.cs:115-116 | a liquidation is chosen exactly when one is listed, and it is one with the latest date |
| Plugin.FinlandFirstResult | src/Altinn.Dan.Plugin.Nsg/Plugin.cs:111-112 | an empty result list fails on `Results[0]`; otherwise only the first result is mapped |
| Plugin.MapFinlandNotIndexError | src/Altinn.Dan.Plugin.Nsg/Plugin.cs:113-149 | the mapping itself never fails with an index error |
| Plugin.FinlandAddressSelection | src/Altinn.Dan.Plugin.Nsg/Plugin.cs:113-147 | the record has no addresses exactly when every address has ended; otherwise its postal line is built from the latest open address |
| Plugin.FinlandMapping | src/Altinn.Dan.Plugin.Nsg/Plugin.cs:118-131 | the notation is the id unchanged, the authority is fixed, the code is `"FI_"+CompanyForm` in the Finnish scheme, and the status is `SomeRegistered` exactly when liquidations are listed |
| Plugin.FinlandMappingFailures | src/Altinn.Dan.Plugin.Nsg/Plugin.cs:113-147 | the Finnish mapping fails exactly on null addresses, an unknown company form, or a chosen address whose care-of is not text |
| Plugin.FinlandFullAddressFailure | src/Altinn.Dan.Plugin.Nsg/Plugin.cs:140 | the postal line fails only when the care-of value is not a string |
| Plugin.MapNorwayRaisesNothing | src/Altinn.Dan.Plugin.Nsg/Plugin.cs:75-103 | the Norwegian mapping raises no framework exception |
| Plugin.MapFinlandRaisesNothing | src/Altinn.Dan.Plugin.Nsg/Plugin.cs:112-149 | the Finnish mapping raises no framework exception |
| Plugin.RegistersRaiseOnlyRequestErrors | src/Altinn.Dan.Plugin.Nsg/Plugin.cs:69-150 | any framework exception of either register comes from its `MakeRequest` call |
| Plugin.IdentifierFormat | src/Altinn.Dan.Plugin.Nsg/Plugin.cs:53-57 | an identifier without exactly one `':'` fails with invalid input (1) and the message naming it; one with exactly one `':'` is an ICD and an id around it |
| Plugin.IcdRouting | src/Altinn.Dan.Plugin.Nsg/Plugin.cs:59-66 | `0192` goes to Norway and `0212` to Finland with the id unchanged; any other ICD fails with not-found (2); there is no default register |
| Plugin.MalformedIdentifierExamples | src/Altinn.Dan.Plugin.Nsg/Plugin.cs:53-57 | `"0192"` and `"a:b:c"` both fail with invalid input (1) |
| NsgV1.Route | src/Altinn.Dan.Plugin.Nsg/NSGv1.0.cs:93-102 | the country switch; RouteTable states the whole table |
| NsgV1.Forward | src/Altinn.Dan.Plugin.Nsg/NSGv1.0.cs:120-144 | the Icelandic and Swedish answer translation; ForwardTranslation states it |
| NsgV1.ForwardFinland | src/Altinn.Dan.Plugin.Nsg/NSGv1.0.cs:179-207 | the Finnish answer translation with its catch-all; FinlandErrorIsAlwaysGeneric and FinlandDropsUpstreamEnvelope state it |
| NsgV1.FromIceland | src/Altinn.Dan.Plugin.Nsg/NSGv1.0.cs:110-145 | `GetFromIceland`: the notation forwarded unchanged, the reply translated; ForwardTranslation states the translation |
| NsgV1.FromFinland | src/Altinn.Dan.Plugin.Nsg/NSGv1.0.cs:147-210 | `GetFromFinland`: the notation forwarded unchanged, the reply translated; FinlandErrorIsAlwaysGeneric states the translation |
| NsgV1.NaceActivities | src/Altinn.Dan.Plugin.Nsg/NSGv1.0.cs:346-376 | the three activity slots; NaceActivitiesShape and SlotShape state them |
| NsgV1.NorwayLegalStatusCode | src/Altinn.Dan.Plugin.Nsg/NSGv1.0.cs:383-386 | the legal status code from the three flags; NorwayLegalStatusFlags states it |
| NsgV1.NorwayRecord | src/Altinn.Dan.Plugin.Nsg/NSGv1.0.cs:313-391 | the Norwegian response record; NorwayRecordContent and NorwayRecordRaisesNoNsg state it |
| NsgV1.NorwayResponse | src/Altinn.Dan.Plugin.Nsg/NSGv1.0.cs:295-392 | `GetFromNorway`: validation, lookup, mapping; NorwayNotationValidation and NorwayNotFound state it, and the method GetFromNorway is proved equal to it |
| NsgV1.RouteTable | src/Altinn.Dan.Plugin.Nsg/NSGv1.0.cs:93-102 | `""` and `"NO"` go to Norway, `"SE"`, `"FI"`, `"IS"` to their fetchers, `"DE"` to Denmark, and every other value (null included) is unsupported |
| NsgV1.ForwardTranslation | src/Altinn.Dan.Plugin.Nsg/NSGv1.0.cs:125-144 | a successful body is passed on; an error answer with an envelope re-raises its fields; one whose body reads as null raises the generic error with the reply's status and reason |
| NsgV1.FinlandErrorIsAlwaysGeneric | src/Altinn.Dan.Plugin.Nsg/NSGv1.0.cs:179-207 | every Finnish error answer ends as the generic error, whatever its body; success is handled as for Iceland |
| NsgV1.FinlandDropsUpstreamEnvelope | src/Altinn.Dan.Plugin.Nsg/NSGv1.0.cs:187-207 | a 404 answer with an envelope is passed on by the Icelandic translation and replaced by the Finnish one |
| NsgV1.RemoteServerErrorCarriesStatus | src/Altinn.Dan.Plugin.Nsg/NSGv1.0.cs:137-138 | the generic error has the reply's status, and its detail ends with the reason phrase |
| NsgV1.NorwayNotationValidation | src/Altinn.Dan.Plugin.Nsg/NSGv1.0.cs:297-302 | the invalid-notation error (instance `"invalid"`, source `"Notation"`, status 500) arises exactly when the digits of the notation are not nine |
| NsgV1.NorwayRecordRaisesNoNsg | src/Altinn.Dan.Plugin.Nsg/NSGv1.0.cs:313-391 | the mapping of a found unit raises no `NsgException`; its failures are runtime exceptions |
| NsgV1.NorwayNotFound | src/Altinn.Dan.Plugin.Nsg/NSGv1.0.cs:304-311 | with nine digits, the not-found error (404) arises exactly when there is no unit or the unit has a deletion date; otherwise the unit is mapped |
| NsgV1.NorwayLegalStatusFlags | src/Altinn.Dan.Plugin.Nsg/NSGv1.0.cs:384-386 | the code is `"SOME"` exactly when a flag is true and `"NONE"` otherwise; it fails exactly when a flag read before the first true one is null |
| NsgV1.LegalStatusNameByCode | src/Altinn.Dan.Plugin.Nsg/NSGv1.0.cs:387-389 | the status name is determined by the code alone |
| NsgV1.NaceActivitiesShape | src/Altinn.Dan.Plugin.Nsg/NSGv1.0.cs:346-376 | at most three activities in slot order, one for slot k exactly when code k is present, with Sequence k, a four-character dot-free code from the start of `Kode`, and Reference = NACE base + code; failure exactly when a code is too short |
| NsgV1.SlotShape | src/Altinn.Dan.Plugin.Nsg/NSGv1.0.cs:348-356 | one slot gives no activity for an absent code, and otherwise one activity built from the code |
| NsgV1.NorwayRecordContent | src/Altinn.Dan.Plugin.Nsg/NSGv1.0.cs:313-391 | the number and name are unchanged, the legal form is `"NO_"+Kode` with its description, each address is set exactly when the unit has it, in the `", "` format, and the date is formatted |
| NsgV1.AddressLineEndsWithCountry | src/Altinn.Dan.Plugin.Nsg/NSGv1.0.cs:323-326 | an address line ends with `", "` and the looked-up country name |
| NsgV1.GetFromNorway | src/Altinn.Dan.Plugin.Nsg/NSGv1.0.cs:295-392 | building the response step by step gives the response of the Norwegian specification |
| NsgV1.NsgMakeRequest | src/Altinn.Dan.Plugin.Nsg/NSGv1.0.cs:394-426 | the unused request helper; NsgMakeRequestClassification states it |
| NsgV1.NsgMakeRequestClassification | src/Altinn.Dan.Plugin.Nsg/NSGv1.0.cs:394-426 | a payload exactly for a 2xx answer with a body; every failing status raises an `NsgException` with that status; 404 is the not-found error; a network failure reports status 200; a null body is the framework's server error |
| NsgV1.TtlSeconds | src/Altinn.Dan.Plugin.Nsg/NSGv1.0.cs:244 | the time to live is never negative and fits in an `int` |
| NsgV1.TtlSecondsValue | src/Altinn.Dan.Plugin.Nsg/NSGv1.0.cs:244 | the time to live is `max(0, ExpiresIn - 5)`, except that within five of `int.MinValue` the subtraction wraps to a large positive value |
| NsgV1.TtlSecondsWrapExample | src/Altinn.Dan.Plugin.Nsg/NSGv1.0.cs:244 | a lifetime of `int.MinValue` gives a time to live of 2147483643 seconds |
| NsgV1.TokenOutcome | src/Altinn.Dan.Plugin.Nsg/NSGv1.0.cs:212-248 | `GetTokenSE` with the cache before and after; TokenCacheHit, TokenFetch and TokenStoreRefuses state it, and Service.GetTokenSE is proved equal to it |
| NsgV1.TokenCacheHit | src/Altinn.Dan.Plugin.Nsg/NSGv1.0.cs:214-222 | a cached token is returned, with the cache unchanged, exactly when both flags are set and the key is present; otherwise the call behaves as a plain fetch |
| NsgV1.TokenFetch | src/Altinn.Dan.Plugin.Nsg/NSGv1.0.cs:223-246 | a fetch succeeds exactly on a token body with a positive time to live, and then stores it under `"TokenSE"` with that time to live, whatever the caching setting; a token with none fails the cache store with `ArgumentOutOfRangeException`; a failed fetch changes nothing; other keys are untouched; the status plays no part |
| NsgV1.TokenStoreRefuses | src/Altinn.Dan.Plugin.Nsg/NSGv1.0.cs:243-244 | the store is refused exactly for lifetimes from `int.MinValue + 5` up to 5 |
| NsgV1.TokenWithoutLifetime | src/Altinn.Dan.Plugin.Nsg/NSGv1.0.cs:239-244 | an error body without `expires_in` (lifetime 0) fails the store, leaves the cache untouched, and Sweden is not asked |
| NsgV1.SwedenOutcome | src/Altinn.Dan.Plugin.Nsg/NSGv1.0.cs:250-293 | `GetFromSweden` with the cache; SwedenRequest states it, and Service.GetFromSweden is proved equal to it |
| NsgV1.RegisteredInformationOutcome | src/Altinn.Dan.Plugin.Nsg/NSGv1.0.cs:91-103 | the dispatch with the cache; OnlySwedenTouchesCache states it, and Service.GetRegisteredInformation is proved equal to it |
| NsgV1.EndpointOutcome | src/Altinn.Dan.Plugin.Nsg/NSGv1.0.cs:54-89 | the endpoint's HTTP answer; EndpointEnvelope and EndpointInvalidNorwegianNotation state it, and Service.RegisteredInformation is proved equal to it |
| NsgV1.OnlySwedenTouchesCache | src/Altinn.Dan.Plugin.Nsg/NSGv1.0.cs:91-103 | only the Swedish route can change the token cache |
| NsgV1.SwedenRequest | src/Altinn.Dan.Plugin.Nsg/NSGv1.0.cs:250-272 | Sweden is asked with the digits of the notation and the access token; a failed token call ends the request with its failure |
| NsgV1.EndpointEnvelope | src/Altinn.Dan.Plugin.Nsg/NSGv1.0.cs:70-88 | every `NsgException` is written as an envelope with its seven fields, the header's request id (or `"NOT_SET"`) and the clock reading, under HTTP status 200 |
| NsgV1.EndpointInvalidNorwegianNotation | src/Altinn.Dan.Plugin.Nsg/NSGv1.0.cs:55-89 | a Norwegian notation whose digits are not nine is answered with HTTP 200 and an envelope of status 500 and instance `"invalid"` |
| NsgV1.Service.constructor | src/Altinn.Dan.Plugin.Nsg/NSGv1.0.cs:34-41 | the service starts with the given caching setting and cache |
| NsgV1.Service.GetTokenSE | src/Altinn.Dan.Plugin.Nsg/NSGv1.0.cs:212-248 | the token returned and the new cache are those of TokenOutcome: a hit, a stored fetch, a refused store that changes nothing, or a failure |
| NsgV1.Service.GetFromSweden | src/Altinn.Dan.Plugin.Nsg/NSGv1.0.cs:250-293 | the answer and the new cache are those of SwedenOutcome: Sweden is asked only with a token, and a failed token call (a refused store included) ends the request |
| NsgV1.Service.GetRegisteredInformation | src/Altinn.Dan.Plugin.Nsg/NSGv1.0.cs:91-103 | the answer and the new cache are those of the dispatch specification |
| NsgV1.Service.RegisteredInformation | src/Altinn.Dan.Plugin.Nsg/NSGv1.0.cs:55-89 | the HTTP answer and the new cache are those of the endpoint specification, with the envelope filled in field by field |

## Left out

- HTTP transport. This covers `HttpClient`, request construction and headers, the Finnish
  proxy and its certificate callback (`NSGv1.0.cs:155-177`), and the Basic-auth header set on
  the shared client (`NSGv1.0.cs:223-237`). Replies are inputs.
- JSON deserialisation by Newtonsoft and `ReadFromJsonAsync`. A reply carries its body
  already read as the expected type or as an error envelope. The two readings are
  independent inputs, although the code reads the same text.
- Date conversion and `"yyyy-MM-dd"` formatting. Dates are instants, and formatting is an
  input (`Services.formatDate`). `DateFormatConverter.cs` is not part of this model.
- The clock. `DateTime.Now` becomes the parameter `now`.
- Logging, the Azure function triggers, the evidence-harvester entry point of `Plugin.cs`
  (lines 1-48), which serialises the record with `EvidenceBuilder`, and the `Is-Alive` check
  (`NSGv1.0.cs:43-52`). That check only calls the external `IsMainUnit`.
- The entity-register service. `GetFull` comes from an external library, so the shape of
  `EntityRegistry.RegistryUnit` is inferred from its use at `NSGv1.0.cs:304-389`.
- `CountryCodesHelper.GetByCode`, which is external. It is an input function.
- `MemoryTokenCacheProvider`. The cache is a map from key to token and time to live. The
  time to live is recorded, and a time to live that is not positive is refused as the memory
  cache's `SetAbsoluteExpiration` refuses it (`Models/MemoryTokenCacheProvider.cs:28`), but
  entries are not aged, so a present key is a hit. Concurrent use of the cache is not
  modelled.
- Circuit breaker, retries and time-outs. They are configured outside the shown code.
- Number formatting. Integers in interpolated messages (`NsgException.cs:50`, `Plugin.cs:175`) are rendered with the current culture; the model renders them as the invariant culture does (ASCII digits, `-` for negatives).
- Digits. `char.IsDigit` and `\d` are modelled on the ASCII digits. .NET also accepts the
  other Unicode decimal digits.
- Null strings inside upstream records (`Navn`, `Kode`, `Postnummer`, address lines, …) and
  a null identifier or notation. They are modelled as present strings. A null `Kode` or a
  null identifier would throw where the model does not.
- Null elements inside upstream arrays: a null entry in the Finnish `results`, `addresses`
  or `liquidations`, or in the Norwegian address lines. Sequences hold no null, so the
  `NullReferenceException` such an entry causes in the key selectors of `OrderByDescending`
  and `FirstOrDefault` (`Plugin.cs:113-116`) or in the mapping is not modelled. A null
  array itself (`results`, `addresses`, `liquidations`, `Adresse`) is modelled.
- The enum ordinals of `Code` and `LegalStatus`. Numeric JSON for enums and the "Cannot
  marshal" branches of the writers cannot occur with datatypes. The 136 members of `Code`
  are grouped into three national datatypes under `CompanyInformation.Code`, with the same
  names and the same wire strings.
- `GetFromDenmark` throws only, and is modelled as the `NotImplemented` failure.
- Plugin.MakeRequestClassification: does not give the message texts. Only long literal
  messages differ among them, and Dafny does not compare them cheaply.
  `Plugin.TransientMessageNamesStatus` states the one message that depends on its input.

## Findings

| source | as written | input that shows it | evidently intended | confidence | as-written member | corrected member |
|---|---|---|---|---|---|---|
| src/Altinn.Dan.Plugin.Nsg/Models/RegisteredInformation/ErrorModel.cs:27 | `requestId = requestId` assigns the property to itself, so the envelope's request id stays null and the `requestIdValue` parameter is never read; the defect is latent, because the endpoint builds its envelopes with `new NSGErrorModel()` and an object initialiser (`NSGv1.0.cs:72-83`) and nothing in the code shown calls this constructor | `new NSGErrorModel(ex, "abc")` has request id null | store `requestIdValue`, as the endpoint's own catch block does with the header value (`NSGv1.0.cs:77`) | high, not executed | Errors.RequestIdDropped | Errors.EnvelopeWithRequestIdKeepsIt |

The endpoint (`NsgV1.EndpointOutcome`, `NsgV1.Service.RegisteredInformation`) builds its
envelopes with the corrected `Errors.EnvelopeWithRequestId`. The as-written constructor is
kept as `Errors.NsgErrorModel.FromException` and `Errors.EnvelopeFromException`.
