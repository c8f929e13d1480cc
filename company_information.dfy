/**
 * The canonical company record of the ICD-path endpoint and the two JSON converters that
 * give its enumerations their wire form, `LegalStatusConverter` and `CodeConverter`.
 * Each converter is a pair of closed tables: a reader from strings and a writer to strings.
 * A JSON `null` reads as null, and a null value writes as `null`.
 */
module CompanyInformation {
  import opened Wrappers
  import opened Dates

  /** The nationally registered legal status, reduced to two values. */
  datatype LegalStatus = NoRegistered | SomeRegistered

  /**
   * The legal form code of an agent. The source declares one flat enumeration of 136 members,
   * each a national code with a country prefix (`FI_`, `NO_` or `SE_`); here the members are
   * kept under their scheme, so `Fi(FiAhve)` is the member `FI_AHVE`. Nothing in the core
   * uses the members' ordinal values.
   */
  datatype Code = Fi(finnish: FinnishCode) | No(norwegian: NorwegianCode) | Se(swedish: SwedishCode)

  /** The 68 Finnish members of `Code`, in declaration order. */
  datatype FinnishCode =
    | FiAhve | FiAhvell | FiAoy | FiAsh | FiAsy | FiAy | FiAyh | FiElsyh
    | FiEsaa | FiEts | FiEty | FiEuokkt | FiEvl | FiEvlut | FiEyht | FiHyyh
    | FiKk | FiKonk | FiKoy | FiKp | FiKunt | FiKuntll | FiKuntlll | FiKuntyht
    | FiKvakyh | FiKvj | FiKvy | FiKy | FiLiy | FiMhy | FiMjuo | FiMohlo
    | FiMsaa | FiMtyh | FiMuu | FiMuukoy | FiMuve | FiMuyp | FiMyh | FiOk
    | FiOp | FiOrto | FiOy | FiOyj | FiPk | FiPy | FiSaa | FiSce
    | FiScp | FiSe | FiSl | FiSp | FiTeka | FiTyh | FiTyka | FiUlko
    | FiUyk | FiVakk | FiValt | FiValtll | FiVeyht | FiVoj | FiVoy | FiVy
    | FiYeh | FiYhme | FiYhte | FiYo

  /** The 43 Norwegian members of `Code`, in declaration order. */
  datatype NorwegianCode =
    | NoAafy | NoAdos | NoAnna | NoAns | NoAs | NoAsa | NoBa | NoBbl
    | NoBedr | NoBo | NoBrl | NoDa | NoEnk | NoEoefg | NoEsek | NoFkf
    | NoFli | NoFylk | NoGfs | NoIkjp | NoIks | NoKbo | NoKf | NoKirk
    | NoKomm | NoKs | NoKtrf | NoNuf | NoOpmv | NoOrgl | NoPers | NoPk
    | NoPre | NoSa | NoSaer | NoSam | NoSe | NoSf | NoSpa | NoStat
    | NoSti | NoTvam | NoVpfo

  /** The 25 Swedish members of `Code`, in declaration order. */
  datatype SwedishCode =
    | SeAb | SeBab | SeBf | SeBfl | SeBrf | SeE | SeEb | SeEeig
    | SeEgts | SeEk | SeFab | SeFl | SeFof | SeHb | SeI | SeKb
    | SeKhf | SeMb | SeOfb | SeS | SeSb | SeSce | SeSe | SeSf
    | SeTsf

  /** The national scheme a legal form code belongs to, and the prefix of its wire name. */
  datatype CodeCountry = Finland | Norway | Sweden

  function CountryPrefix(k: CodeCountry): string {
    match k
    case Finland => "FI_"
    case Norway => "NO_"
    case Sweden => "SE_"
  }

  function CountryOf(c: Code): CodeCountry {
    match c
    case Fi(_) => Finland
    case No(_) => Norway
    case Se(_) => Sweden
  }

  /** `PostalAddress`: only the full address, as one string. */
  datatype PostalAddress = PostalAddress(fullAddress: string)

  /** `RegisteredAddress`: only the full address, as one string. */
  datatype RegisteredAddress = RegisteredAddress(fullAddress: string)

  /** `Addresses`; each part is left out of the JSON when it is null. */
  datatype Addresses = Addresses(postalAddress: Option<PostalAddress>, registeredAddress: Option<RegisteredAddress>)

  /** `Identifier`: the registering authority and the national organisation number. */
  datatype Identifier = Identifier(issuingAuthorityName: string, notation: string)

  /** `LegalForm`: the code and its national name (`type` in JSON), which may be null. */
  datatype LegalForm = LegalForm(code: Code, formType: Option<string>)

  /** `CompanyInformation`, the record the ICD-path endpoint returns. */
  datatype CompanyInformation = CompanyInformation(
    addresses: Option<Addresses>,
    identifier: Identifier,
    legalform: LegalForm,
    legalStatus: LegalStatus,
    name: string,
    registrationDate: Instant)

  /** A JSON token as the converters receive it: `null` or a string. */
  datatype JsonToken = JsonNull | JsonString(text: string)

  const LegalStatusUnmarshalError := "Cannot unmarshal type LegalStatus"
  const CodeUnmarshalError := "Cannot unmarshal type Code"

  // ---------------------------------------------------------------------------------------
  // LegalStatusConverter
  // ---------------------------------------------------------------------------------------

  /** The switch of `LegalStatusConverter.ReadJson`: the two wire strings it accepts. */
  function ReadLegalStatus(s: string): (r: Option<LegalStatus>)
    ensures r == Some(NoRegistered) <==> s == "NO_REGISTERED"
    ensures r == Some(SomeRegistered) <==> s == "SOME_REGISTERED"
  {
    match s
    case "NO_REGISTERED" => Some(NoRegistered)
    case "SOME_REGISTERED" => Some(SomeRegistered)
    case _ => None
  }

  /** The switch of `LegalStatusConverter.WriteJson`. */
  function WriteLegalStatus(v: LegalStatus): string {
    match v
    case NoRegistered => "NO_REGISTERED"
    case SomeRegistered => "SOME_REGISTERED"
  }

  /** `LegalStatusConverter.ReadJson`: null stays null, an unknown string throws. */
  function ReadLegalStatusJson(t: JsonToken): Result<Option<LegalStatus>, string> {
    match t
    case JsonNull => Success(None)
    case JsonString(s) =>
      match ReadLegalStatus(s)
      case Some(v) => Success(Some(v))
      case None => Failure(LegalStatusUnmarshalError)
  }

  /** `LegalStatusConverter.WriteJson`: a null value writes `null`. */
  function WriteLegalStatusJson(v: Option<LegalStatus>): JsonToken {
    match v
    case None => JsonNull
    case Some(x) => JsonString(WriteLegalStatus(x))
  }

  /** Writing then reading gives back the value, null included. */
  lemma LegalStatusJsonRoundTrip(v: Option<LegalStatus>)
    ensures ReadLegalStatusJson(WriteLegalStatusJson(v)) == Success(v)
  {
  }

  /** Every token the reader accepts is exactly what the writer produces for the result. */
  lemma LegalStatusJsonReadWrite(t: JsonToken)
    ensures ReadLegalStatusJson(t).Success? ==> WriteLegalStatusJson(ReadLegalStatusJson(t).value) == t
    ensures ReadLegalStatusJson(t).Failure? <==>
              t.JsonString? && t.text != "NO_REGISTERED" && t.text != "SOME_REGISTERED"
    ensures ReadLegalStatusJson(t).Failure? ==> ReadLegalStatusJson(t).error == LegalStatusUnmarshalError
  {
  }

  // ---------------------------------------------------------------------------------------
  // CodeConverter: the writer
  // ---------------------------------------------------------------------------------------

  /** The switch of `CodeConverter.WriteJson`, one table per national scheme. */
  function WriteCode(c: Code): string {
    match c
    case Fi(f) => FinnishName(f)
    case No(n) => NorwegianName(n)
    case Se(e) => SwedishName(e)
  }

  /** The Finnish cases of `CodeConverter.WriteJson`. */
  function FinnishName(f: FinnishCode): string {
    match f
    case FiAhve => "FI_AHVE"
    case FiAhvell => "FI_AHVELL"
    case FiAoy => "FI_AOY"
    case FiAsh => "FI_ASH"
    case FiAsy => "FI_ASY"
    case FiAy => "FI_AY"
    case FiAyh => "FI_AYH"
    case FiElsyh => "FI_ELSYH"
    case FiEsaa => "FI_ESAA"
    case FiEts => "FI_ETS"
    case FiEty => "FI_ETY"
    case FiEuokkt => "FI_EUOKKT"
    case FiEvl => "FI_EVL"
    case FiEvlut => "FI_EVLUT"
    case FiEyht => "FI_EYHT"
    case FiHyyh => "FI_HYYH"
    case FiKk => "FI_KK"
    case FiKonk => "FI_KONK"
    case FiKoy => "FI_KOY"
    case FiKp => "FI_KP"
    case FiKunt => "FI_KUNT"
    case FiKuntll => "FI_KUNTLL"
    case FiKuntlll => "FI_KUNTLLL"
    case FiKuntyht => "FI_KUNTYHT"
    case FiKvakyh => "FI_KVAKYH"
    case FiKvj => "FI_KVJ"
    case FiKvy => "FI_KVY"
    case FiKy => "FI_KY"
    case FiLiy => "FI_LIY"
    case FiMhy => "FI_MHY"
    case FiMjuo => "FI_MJUO"
    case FiMohlo => "FI_MOHLO"
    case FiMsaa => "FI_MSAA"
    case FiMtyh => "FI_MTYH"
    case FiMuu => "FI_MUU"
    case FiMuukoy => "FI_MUUKOY"
    case FiMuve => "FI_MUVE"
    case FiMuyp => "FI_MUYP"
    case FiMyh => "FI_MYH"
    case FiOk => "FI_OK"
    case FiOp => "FI_OP"
    case FiOrto => "FI_ORTO"
    case FiOy => "FI_OY"
    case FiOyj => "FI_OYJ"
    case FiPk => "FI_PK"
    case FiPy => "FI_PY"
    case FiSaa => "FI_SAA"
    case FiSce => "FI_SCE"
    case FiScp => "FI_SCP"
    case FiSe => "FI_SE"
    case FiSl => "FI_SL"
    case FiSp => "FI_SP"
    case FiTeka => "FI_TEKA"
    case FiTyh => "FI_TYH"
    case FiTyka => "FI_TYKA"
    case FiUlko => "FI_ULKO"
    case FiUyk => "FI_UYK"
    case FiVakk => "FI_VAKK"
    case FiValt => "FI_VALT"
    case FiValtll => "FI_VALTLL"
    case FiVeyht => "FI_VEYHT"
    case FiVoj => "FI_VOJ"
    case FiVoy => "FI_VOY"
    case FiVy => "FI_VY"
    case FiYeh => "FI_YEH"
    case FiYhme => "FI_YHME"
    case FiYhte => "FI_YHTE"
    case FiYo => "FI_YO"
  }

  /** The Norwegian cases of `CodeConverter.WriteJson`. */
  function NorwegianName(n: NorwegianCode): string {
    match n
    case NoAafy => "NO_AAFY"
    case NoAdos => "NO_ADOS"
    case NoAnna => "NO_ANNA"
    case NoAns => "NO_ANS"
    case NoAs => "NO_AS"
    case NoAsa => "NO_ASA"
    case NoBa => "NO_BA"
    case NoBbl => "NO_BBL"
    case NoBedr => "NO_BEDR"
    case NoBo => "NO_BO"
    case NoBrl => "NO_BRL"
    case NoDa => "NO_DA"
    case NoEnk => "NO_ENK"
    case NoEoefg => "NO_EOEFG"
    case NoEsek => "NO_ESEK"
    case NoFkf => "NO_FKF"
    case NoFli => "NO_FLI"
    case NoFylk => "NO_FYLK"
    case NoGfs => "NO_GFS"
    case NoIkjp => "NO_IKJP"
    case NoIks => "NO_IKS"
    case NoKbo => "NO_KBO"
    case NoKf => "NO_KF"
    case NoKirk => "NO_KIRK"
    case NoKomm => "NO_KOMM"
    case NoKs => "NO_KS"
    case NoKtrf => "NO_KTRF"
    case NoNuf => "NO_NUF"
    case NoOpmv => "NO_OPMV"
    case NoOrgl => "NO_ORGL"
    case NoPers => "NO_PERS"
    case NoPk => "NO_PK"
    case NoPre => "NO_PRE"
    case NoSa => "NO_SA"
    case NoSaer => "NO_SAER"
    case NoSam => "NO_SAM"
    case NoSe => "NO_SE"
    case NoSf => "NO_SF"
    case NoSpa => "NO_SPA"
    case NoStat => "NO_STAT"
    case NoSti => "NO_STI"
    case NoTvam => "NO_TVAM"
    case NoVpfo => "NO_VPFO"
  }

  /** The Swedish cases of `CodeConverter.WriteJson`. */
  function SwedishName(e: SwedishCode): string {
    match e
    case SeAb => "SE_AB"
    case SeBab => "SE_BAB"
    case SeBf => "SE_BF"
    case SeBfl => "SE_BFL"
    case SeBrf => "SE_BRF"
    case SeE => "SE_E"
    case SeEb => "SE_EB"
    case SeEeig => "SE_EEIG"
    case SeEgts => "SE_EGTS"
    case SeEk => "SE_EK"
    case SeFab => "SE_FAB"
    case SeFl => "SE_FL"
    case SeFof => "SE_FOF"
    case SeHb => "SE_HB"
    case SeI => "SE_I"
    case SeKb => "SE_KB"
    case SeKhf => "SE_KHF"
    case SeMb => "SE_MB"
    case SeOfb => "SE_OFB"
    case SeS => "SE_S"
    case SeSb => "SE_SB"
    case SeSce => "SE_SCE"
    case SeSe => "SE_SE"
    case SeSf => "SE_SF"
    case SeTsf => "SE_TSF"
  }

  // ---------------------------------------------------------------------------------------
  // CodeConverter: the reader
  // ---------------------------------------------------------------------------------------

  /**
   * The switch of `CodeConverter.ReadJson`. It accepts exactly the 136 labels of the source
   * and maps each one to the same member. The labels are told apart by their first letter and
   * then by the first letter of the national code, so each group is a small switch of its own.
   */
  function ReadCode(s: string): (r: Option<Code>)
    ensures r.Some? ==> WriteCode(r.value) == s
  {
    if |s| < 1 then None
    else match s[0]
      case 'F' => ReadFinnishCode(s)
      case 'N' => ReadNorwegianCode(s)
      case 'S' => ReadSwedishCode(s)
      case _ => None
  }

  /** The labels that start with `F`: all of them are Finnish codes. */
  function ReadFinnishCode(s: string): (r: Option<Code>)
    ensures r.Some? ==> WriteCode(r.value) == s
  {
    if |s| < 4 then None
    else match s[3]
      case 'A' => ReadFinnishCodeA(s)
      case 'E' => ReadFinnishCodeE(s)
      case 'H' => ReadFinnishCodeH(s)
      case 'K' => ReadFinnishCodeK(s)
      case 'L' => ReadFinnishCodeL(s)
      case 'M' => ReadFinnishCodeM(s)
      case 'O' => ReadFinnishCodeO(s)
      case 'P' => ReadFinnishCodeP(s)
      case 'S' => ReadFinnishCodeS(s)
      case 'T' => ReadFinnishCodeT(s)
      case 'U' => ReadFinnishCodeU(s)
      case 'V' => ReadFinnishCodeV(s)
      case 'Y' => ReadFinnishCodeY(s)
      case _ => None
  }

  /** The Finnish labels whose national code starts with `A`, told apart by length. */
  function ReadFinnishCodeA(s: string): (r: Option<Code>)
    ensures r.Some? ==> WriteCode(r.value) == s
  {
    match |s|
    case 5 => ReadFinnishCodeA5(s)
    case 6 => ReadFinnishCodeA6(s)
    case 7 => ReadFinnishCodeA7(s)
    case 9 => ReadFinnishCodeA9(s)
    case _ => None
  }

  /** The Finnish labels of length 5 whose national code starts with `A`. */
  function ReadFinnishCodeA5(s: string): (r: Option<Code>)
    ensures r.Some? ==> WriteCode(r.value) == s
  {
    match s
    case "FI_AY" => Some(Fi(FiAy))
    case _ => None
  }

  /** The Finnish labels of length 6 whose national code starts with `A`. */
  function ReadFinnishCodeA6(s: string): (r: Option<Code>)
    ensures r.Some? ==> WriteCode(r.value) == s
  {
    match s
    case "FI_AOY" => Some(Fi(FiAoy))
    case "FI_ASH" => Some(Fi(FiAsh))
    case "FI_ASY" => Some(Fi(FiAsy))
    case "FI_AYH" => Some(Fi(FiAyh))
    case _ => None
  }

  /** The Finnish labels of length 7 whose national code starts with `A`. */
  function ReadFinnishCodeA7(s: string): (r: Option<Code>)
    ensures r.Some? ==> WriteCode(r.value) == s
  {
    match s
    case "FI_AHVE" => Some(Fi(FiAhve))
    case _ => None
  }

  /** The Finnish labels of length 9 whose national code starts with `A`. */
  function ReadFinnishCodeA9(s: string): (r: Option<Code>)
    ensures r.Some? ==> WriteCode(r.value) == s
  {
    match s
    case "FI_AHVELL" => Some(Fi(FiAhvell))
    case _ => None
  }

  /** The Finnish labels whose national code starts with `E`, told apart by length. */
  function ReadFinnishCodeE(s: string): (r: Option<Code>)
    ensures r.Some? ==> WriteCode(r.value) == s
  {
    match |s|
    case 6 => ReadFinnishCodeE6(s)
    case 7 => ReadFinnishCodeE7(s)
    case 8 => ReadFinnishCodeE8(s)
    case 9 => ReadFinnishCodeE9(s)
    case _ => None
  }

  /** The Finnish labels of length 6 whose national code starts with `E`. */
  function ReadFinnishCodeE6(s: string): (r: Option<Code>)
    ensures r.Some? ==> WriteCode(r.value) == s
  {
    match s
    case "FI_ETS" => Some(Fi(FiEts))
    case "FI_ETY" => Some(Fi(FiEty))
    case "FI_EVL" => Some(Fi(FiEvl))
    case _ => None
  }

  /** The Finnish labels of length 7 whose national code starts with `E`. */
  function ReadFinnishCodeE7(s: string): (r: Option<Code>)
    ensures r.Some? ==> WriteCode(r.value) == s
  {
    match s
    case "FI_ESAA" => Some(Fi(FiEsaa))
    case "FI_EYHT" => Some(Fi(FiEyht))
    case _ => None
  }

  /** The Finnish labels of length 8 whose national code starts with `E`. */
  function ReadFinnishCodeE8(s: string): (r: Option<Code>)
    ensures r.Some? ==> WriteCode(r.value) == s
  {
    match s
    case "FI_ELSYH" => Some(Fi(FiElsyh))
    case "FI_EVLUT" => Some(Fi(FiEvlut))
    case _ => None
  }

  /** The Finnish labels of length 9 whose national code starts with `E`. */
  function ReadFinnishCodeE9(s: string): (r: Option<Code>)
    ensures r.Some? ==> WriteCode(r.value) == s
  {
    match s
    case "FI_EUOKKT" => Some(Fi(FiEuokkt))
    case _ => None
  }

  /** The Finnish labels whose national code starts with `H`. */
  function ReadFinnishCodeH(s: string): (r: Option<Code>)
    ensures r.Some? ==> WriteCode(r.value) == s
  {
    match s
    case "FI_HYYH" => Some(Fi(FiHyyh))
    case _ => None
  }

  /** The Finnish labels whose national code starts with `K`, told apart by length. */
  function ReadFinnishCodeK(s: string): (r: Option<Code>)
    ensures r.Some? ==> WriteCode(r.value) == s
  {
    match |s|
    case 5 => ReadFinnishCodeK5(s)
    case 6 => ReadFinnishCodeK6(s)
    case 7 => ReadFinnishCodeK7(s)
    case 9 => ReadFinnishCodeK9(s)
    case 10 => ReadFinnishCodeK10(s)
    case _ => None
  }

  /** The Finnish labels of length 5 whose national code starts with `K`. */
  function ReadFinnishCodeK5(s: string): (r: Option<Code>)
    ensures r.Some? ==> WriteCode(r.value) == s
  {
    match s
    case "FI_KK" => Some(Fi(FiKk))
    case "FI_KP" => Some(Fi(FiKp))
    case "FI_KY" => Some(Fi(FiKy))
    case _ => None
  }

  /** The Finnish labels of length 6 whose national code starts with `K`. */
  function ReadFinnishCodeK6(s: string): (r: Option<Code>)
    ensures r.Some? ==> WriteCode(r.value) == s
  {
    match s
    case "FI_KOY" => Some(Fi(FiKoy))
    case "FI_KVJ" => Some(Fi(FiKvj))
    case "FI_KVY" => Some(Fi(FiKvy))
    case _ => None
  }

  /** The Finnish labels of length 7 whose national code starts with `K`. */
  function ReadFinnishCodeK7(s: string): (r: Option<Code>)
    ensures r.Some? ==> WriteCode(r.value) == s
  {
    match s
    case "FI_KONK" => Some(Fi(FiKonk))
    case "FI_KUNT" => Some(Fi(FiKunt))
    case _ => None
  }

  /** The Finnish labels of length 9 whose national code starts with `K`. */
  function ReadFinnishCodeK9(s: string): (r: Option<Code>)
    ensures r.Some? ==> WriteCode(r.value) == s
  {
    match s
    case "FI_KUNTLL" => Some(Fi(FiKuntll))
    case "FI_KVAKYH" => Some(Fi(FiKvakyh))
    case _ => None
  }

  /** The Finnish labels of length 10 whose national code starts with `K`. */
  function ReadFinnishCodeK10(s: string): (r: Option<Code>)
    ensures r.Some? ==> WriteCode(r.value) == s
  {
    match s
    case "FI_KUNTLLL" => Some(Fi(FiKuntlll))
    case "FI_KUNTYHT" => Some(Fi(FiKuntyht))
    case _ => None
  }

  /** The Finnish labels whose national code starts with `L`. */
  function ReadFinnishCodeL(s: string): (r: Option<Code>)
    ensures r.Some? ==> WriteCode(r.value) == s
  {
    match s
    case "FI_LIY" => Some(Fi(FiLiy))
    case _ => None
  }

  /** The Finnish labels whose national code starts with `M`, told apart by length. */
  function ReadFinnishCodeM(s: string): (r: Option<Code>)
    ensures r.Some? ==> WriteCode(r.value) == s
  {
    match |s|
    case 6 => ReadFinnishCodeM6(s)
    case 7 => ReadFinnishCodeM7(s)
    case 8 => ReadFinnishCodeM8(s)
    case 9 => ReadFinnishCodeM9(s)
    case _ => None
  }

  /** The Finnish labels of length 6 whose national code starts with `M`. */
  function ReadFinnishCodeM6(s: string): (r: Option<Code>)
    ensures r.Some? ==> WriteCode(r.value) == s
  {
    match s
    case "FI_MHY" => Some(Fi(FiMhy))
    case "FI_MUU" => Some(Fi(FiMuu))
    case "FI_MYH" => Some(Fi(FiMyh))
    case _ => None
  }

  /** The Finnish labels of length 7 whose national code starts with `M`. */
  function ReadFinnishCodeM7(s: string): (r: Option<Code>)
    ensures r.Some? ==> WriteCode(r.value) == s
  {
    match s
    case "FI_MJUO" => Some(Fi(FiMjuo))
    case "FI_MSAA" => Some(Fi(FiMsaa))
    case "FI_MTYH" => Some(Fi(FiMtyh))
    case "FI_MUVE" => Some(Fi(FiMuve))
    case "FI_MUYP" => Some(Fi(FiMuyp))
    case _ => None
  }

  /** The Finnish labels of length 8 whose national code starts with `M`. */
  function ReadFinnishCodeM8(s: string): (r: Option<Code>)
    ensures r.Some? ==> WriteCode(r.value) == s
  {
    match s
    case "FI_MOHLO" => Some(Fi(FiMohlo))
    case _ => None
  }

  /** The Finnish labels of length 9 whose national code starts with `M`. */
  function ReadFinnishCodeM9(s: string): (r: Option<Code>)
    ensures r.Some? ==> WriteCode(r.value) == s
  {
    match s
    case "FI_MUUKOY" => Some(Fi(FiMuukoy))
    case _ => None
  }

  /** The Finnish labels whose national code starts with `O`, told apart by length. */
  function ReadFinnishCodeO(s: string): (r: Option<Code>)
    ensures r.Some? ==> WriteCode(r.value) == s
  {
    match |s|
    case 5 => ReadFinnishCodeO5(s)
    case 6 => ReadFinnishCodeO6(s)
    case 7 => ReadFinnishCodeO7(s)
    case _ => None
  }

  /** The Finnish labels of length 5 whose national code starts with `O`. */
  function ReadFinnishCodeO5(s: string): (r: Option<Code>)
    ensures r.Some? ==> WriteCode(r.value) == s
  {
    match s
    case "FI_OK" => Some(Fi(FiOk))
    case "FI_OP" => Some(Fi(FiOp))
    case "FI_OY" => Some(Fi(FiOy))
    case _ => None
  }

  /** The Finnish labels of length 6 whose national code starts with `O`. */
  function ReadFinnishCodeO6(s: string): (r: Option<Code>)
    ensures r.Some? ==> WriteCode(r.value) == s
  {
    match s
    case "FI_OYJ" => Some(Fi(FiOyj))
    case _ => None
  }

  /** The Finnish labels of length 7 whose national code starts with `O`. */
  function ReadFinnishCodeO7(s: string): (r: Option<Code>)
    ensures r.Some? ==> WriteCode(r.value) == s
  {
    match s
    case "FI_ORTO" => Some(Fi(FiOrto))
    case _ => None
  }

  /** The Finnish labels whose national code starts with `P`. */
  function ReadFinnishCodeP(s: string): (r: Option<Code>)
    ensures r.Some? ==> WriteCode(r.value) == s
  {
    match s
    case "FI_PK" => Some(Fi(FiPk))
    case "FI_PY" => Some(Fi(FiPy))
    case _ => None
  }

  /** The Finnish labels whose national code starts with `S`, told apart by length. */
  function ReadFinnishCodeS(s: string): (r: Option<Code>)
    ensures r.Some? ==> WriteCode(r.value) == s
  {
    match |s|
    case 5 => ReadFinnishCodeS5(s)
    case 6 => ReadFinnishCodeS6(s)
    case _ => None
  }

  /** The Finnish labels of length 5 whose national code starts with `S`. */
  function ReadFinnishCodeS5(s: string): (r: Option<Code>)
    ensures r.Some? ==> WriteCode(r.value) == s
  {
    match s
    case "FI_SE" => Some(Fi(FiSe))
    case "FI_SL" => Some(Fi(FiSl))
    case "FI_SP" => Some(Fi(FiSp))
    case _ => None
  }

  /** The Finnish labels of length 6 whose national code starts with `S`. */
  function ReadFinnishCodeS6(s: string): (r: Option<Code>)
    ensures r.Some? ==> WriteCode(r.value) == s
  {
    match s
    case "FI_SAA" => Some(Fi(FiSaa))
    case "FI_SCE" => Some(Fi(FiSce))
    case "FI_SCP" => Some(Fi(FiScp))
    case _ => None
  }

  /** The Finnish labels whose national code starts with `T`. */
  function ReadFinnishCodeT(s: string): (r: Option<Code>)
    ensures r.Some? ==> WriteCode(r.value) == s
  {
    match s
    case "FI_TEKA" => Some(Fi(FiTeka))
    case "FI_TYH" => Some(Fi(FiTyh))
    case "FI_TYKA" => Some(Fi(FiTyka))
    case _ => None
  }

  /** The Finnish labels whose national code starts with `U`. */
  function ReadFinnishCodeU(s: string): (r: Option<Code>)
    ensures r.Some? ==> WriteCode(r.value) == s
  {
    match s
    case "FI_ULKO" => Some(Fi(FiUlko))
    case "FI_UYK" => Some(Fi(FiUyk))
    case _ => None
  }

  /** The Finnish labels whose national code starts with `V`, told apart by length. */
  function ReadFinnishCodeV(s: string): (r: Option<Code>)
    ensures r.Some? ==> WriteCode(r.value) == s
  {
    match |s|
    case 5 => ReadFinnishCodeV5(s)
    case 6 => ReadFinnishCodeV6(s)
    case 7 => ReadFinnishCodeV7(s)
    case 8 => ReadFinnishCodeV8(s)
    case 9 => ReadFinnishCodeV9(s)
    case _ => None
  }

  /** The Finnish labels of length 5 whose national code starts with `V`. */
  function ReadFinnishCodeV5(s: string): (r: Option<Code>)
    ensures r.Some? ==> WriteCode(r.value) == s
  {
    match s
    case "FI_VY" => Some(Fi(FiVy))
    case _ => None
  }

  /** The Finnish labels of length 6 whose national code starts with `V`. */
  function ReadFinnishCodeV6(s: string): (r: Option<Code>)
    ensures r.Some? ==> WriteCode(r.value) == s
  {
    match s
    case "FI_VOJ" => Some(Fi(FiVoj))
    case "FI_VOY" => Some(Fi(FiVoy))
    case _ => None
  }

  /** The Finnish labels of length 7 whose national code starts with `V`. */
  function ReadFinnishCodeV7(s: string): (r: Option<Code>)
    ensures r.Some? ==> WriteCode(r.value) == s
  {
    match s
    case "FI_VAKK" => Some(Fi(FiVakk))
    case "FI_VALT" => Some(Fi(FiValt))
    case _ => None
  }

  /** The Finnish labels of length 8 whose national code starts with `V`. */
  function ReadFinnishCodeV8(s: string): (r: Option<Code>)
    ensures r.Some? ==> WriteCode(r.value) == s
  {
    match s
    case "FI_VEYHT" => Some(Fi(FiVeyht))
    case _ => None
  }

  /** The Finnish labels of length 9 whose national code starts with `V`. */
  function ReadFinnishCodeV9(s: string): (r: Option<Code>)
    ensures r.Some? ==> WriteCode(r.value) == s
  {
    match s
    case "FI_VALTLL" => Some(Fi(FiValtll))
    case _ => None
  }

  /** The Finnish labels whose national code starts with `Y`, told apart by length. */
  function ReadFinnishCodeY(s: string): (r: Option<Code>)
    ensures r.Some? ==> WriteCode(r.value) == s
  {
    match |s|
    case 5 => ReadFinnishCodeY5(s)
    case 6 => ReadFinnishCodeY6(s)
    case 7 => ReadFinnishCodeY7(s)
    case _ => None
  }

  /** The Finnish labels of length 5 whose national code starts with `Y`. */
  function ReadFinnishCodeY5(s: string): (r: Option<Code>)
    ensures r.Some? ==> WriteCode(r.value) == s
  {
    match s
    case "FI_YO" => Some(Fi(FiYo))
    case _ => None
  }

  /** The Finnish labels of length 6 whose national code starts with `Y`. */
  function ReadFinnishCodeY6(s: string): (r: Option<Code>)
    ensures r.Some? ==> WriteCode(r.value) == s
  {
    match s
    case "FI_YEH" => Some(Fi(FiYeh))
    case _ => None
  }

  /** The Finnish labels of length 7 whose national code starts with `Y`. */
  function ReadFinnishCodeY7(s: string): (r: Option<Code>)
    ensures r.Some? ==> WriteCode(r.value) == s
  {
    match s
    case "FI_YHME" => Some(Fi(FiYhme))
    case "FI_YHTE" => Some(Fi(FiYhte))
    case _ => None
  }

  /** The labels that start with `N`: all of them are Norwegian codes. */
  function ReadNorwegianCode(s: string): (r: Option<Code>)
    ensures r.Some? ==> WriteCode(r.value) == s
  {
    if |s| < 4 then None
    else match s[3]
      case 'A' => ReadNorwegianCodeA(s)
      case 'B' => ReadNorwegianCodeB(s)
      case 'D' => ReadNorwegianCodeD(s)
      case 'E' => ReadNorwegianCodeE(s)
      case 'F' => ReadNorwegianCodeF(s)
      case 'G' => ReadNorwegianCodeG(s)
      case 'I' => ReadNorwegianCodeI(s)
      case 'K' => ReadNorwegianCodeK(s)
      case 'N' => ReadNorwegianCodeN(s)
      case 'O' => ReadNorwegianCodeO(s)
      case 'P' => ReadNorwegianCodeP(s)
      case 'S' => ReadNorwegianCodeS(s)
      case 'T' => ReadNorwegianCodeT(s)
      case 'V' => ReadNorwegianCodeV(s)
      case _ => None
  }

  /** The Norwegian labels whose national code starts with `A`, told apart by length. */
  function ReadNorwegianCodeA(s: string): (r: Option<Code>)
    ensures r.Some? ==> WriteCode(r.value) == s
  {
    match |s|
    case 5 => ReadNorwegianCodeA5(s)
    case 6 => ReadNorwegianCodeA6(s)
    case 7 => ReadNorwegianCodeA7(s)
    case _ => None
  }

  /** The Norwegian labels of length 5 whose national code starts with `A`. */
  function ReadNorwegianCodeA5(s: string): (r: Option<Code>)
    ensures r.Some? ==> WriteCode(r.value) == s
  {
    match s
    case "NO_AS" => Some(No(NoAs))
    case _ => None
  }

  /** The Norwegian labels of length 6 whose national code starts with `A`. */
  function ReadNorwegianCodeA6(s: string): (r: Option<Code>)
    ensures r.Some? ==> WriteCode(r.value) == s
  {
    match s
    case "NO_ANS" => Some(No(NoAns))
    case "NO_ASA" => Some(No(NoAsa))
    case _ => None
  }

  /** The Norwegian labels of length 7 whose national code starts with `A`. */
  function ReadNorwegianCodeA7(s: string): (r: Option<Code>)
    ensures r.Some? ==> WriteCode(r.value) == s
  {
    match s
    case "NO_AAFY" => Some(No(NoAafy))
    case "NO_ADOS" => Some(No(NoAdos))
    case "NO_ANNA" => Some(No(NoAnna))
    case _ => None
  }

  /** The Norwegian labels whose national code starts with `B`, told apart by length. */
  function ReadNorwegianCodeB(s: string): (r: Option<Code>)
    ensures r.Some? ==> WriteCode(r.value) == s
  {
    match |s|
    case 5 => ReadNorwegianCodeB5(s)
    case 6 => ReadNorwegianCodeB6(s)
    case 7 => ReadNorwegianCodeB7(s)
    case _ => None
  }

  /** The Norwegian labels of length 5 whose national code starts with `B`. */
  function ReadNorwegianCodeB5(s: string): (r: Option<Code>)
    ensures r.Some? ==> WriteCode(r.value) == s
  {
    match s
    case "NO_BA" => Some(No(NoBa))
    case "NO_BO" => Some(No(NoBo))
    case _ => None
  }

  /** The Norwegian labels of length 6 whose national code starts with `B`. */
  function ReadNorwegianCodeB6(s: string): (r: Option<Code>)
    ensures r.Some? ==> WriteCode(r.value) == s
  {
    match s
    case "NO_BBL" => Some(No(NoBbl))
    case "NO_BRL" => Some(No(NoBrl))
    case _ => None
  }

  /** The Norwegian labels of length 7 whose national code starts with `B`. */
  function ReadNorwegianCodeB7(s: string): (r: Option<Code>)
    ensures r.Some? ==> WriteCode(r.value) == s
  {
    match s
    case "NO_BEDR" => Some(No(NoBedr))
    case _ => None
  }

  /** The Norwegian labels whose national code starts with `D`. */
  function ReadNorwegianCodeD(s: string): (r: Option<Code>)
    ensures r.Some? ==> WriteCode(r.value) == s
  {
    match s
    case "NO_DA" => Some(No(NoDa))
    case _ => None
  }

  /** The Norwegian labels whose national code starts with `E`. */
  function ReadNorwegianCodeE(s: string): (r: Option<Code>)
    ensures r.Some? ==> WriteCode(r.value) == s
  {
    match s
    case "NO_ENK" => Some(No(NoEnk))
    case "NO_EOEFG" => Some(No(NoEoefg))
    case "NO_ESEK" => Some(No(NoEsek))
    case _ => None
  }

  /** The Norwegian labels whose national code starts with `F`. */
  function ReadNorwegianCodeF(s: string): (r: Option<Code>)
    ensures r.Some? ==> WriteCode(r.value) == s
  {
    match s
    case "NO_FKF" => Some(No(NoFkf))
    case "NO_FLI" => Some(No(NoFli))
    case "NO_FYLK" => Some(No(NoFylk))
    case _ => None
  }

  /** The Norwegian labels whose national code starts with `G`. */
  function ReadNorwegianCodeG(s: string): (r: Option<Code>)
    ensures r.Some? ==> WriteCode(r.value) == s
  {
    match s
    case "NO_GFS" => Some(No(NoGfs))
    case _ => None
  }

  /** The Norwegian labels whose national code starts with `I`. */
  function ReadNorwegianCodeI(s: string): (r: Option<Code>)
    ensures r.Some? ==> WriteCode(r.value) == s
  {
    match s
    case "NO_IKJP" => Some(No(NoIkjp))
    case "NO_IKS" => Some(No(NoIks))
    case _ => None
  }

  /** The Norwegian labels whose national code starts with `K`, told apart by length. */
  function ReadNorwegianCodeK(s: string): (r: Option<Code>)
    ensures r.Some? ==> WriteCode(r.value) == s
  {
    match |s|
    case 5 => ReadNorwegianCodeK5(s)
    case 6 => ReadNorwegianCodeK6(s)
    case 7 => ReadNorwegianCodeK7(s)
    case _ => None
  }

  /** The Norwegian labels of length 5 whose national code starts with `K`. */
  function ReadNorwegianCodeK5(s: string): (r: Option<Code>)
    ensures r.Some? ==> WriteCode(r.value) == s
  {
    match s
    case "NO_KF" => Some(No(NoKf))
    case "NO_KS" => Some(No(NoKs))
    case _ => None
  }

  /** The Norwegian labels of length 6 whose national code starts with `K`. */
  function ReadNorwegianCodeK6(s: string): (r: Option<Code>)
    ensures r.Some? ==> WriteCode(r.value) == s
  {
    match s
    case "NO_KBO" => Some(No(NoKbo))
    case _ => None
  }

  /** The Norwegian labels of length 7 whose national code starts with `K`. */
  function ReadNorwegianCodeK7(s: string): (r: Option<Code>)
    ensures r.Some? ==> WriteCode(r.value) == s
  {
    match s
    case "NO_KIRK" => Some(No(NoKirk))
    case "NO_KOMM" => Some(No(NoKomm))
    case "NO_KTRF" => Some(No(NoKtrf))
    case _ => None
  }

  /** The Norwegian labels whose national code starts with `N`. */
  function ReadNorwegianCodeN(s: string): (r: Option<Code>)
    ensures r.Some? ==> WriteCode(r.value) == s
  {
    match s
    case "NO_NUF" => Some(No(NoNuf))
    case _ => None
  }

  /** The Norwegian labels whose national code starts with `O`. */
  function ReadNorwegianCodeO(s: string): (r: Option<Code>)
    ensures r.Some? ==> WriteCode(r.value) == s
  {
    match s
    case "NO_OPMV" => Some(No(NoOpmv))
    case "NO_ORGL" => Some(No(NoOrgl))
    case _ => None
  }

  /** The Norwegian labels whose national code starts with `P`. */
  function ReadNorwegianCodeP(s: string): (r: Option<Code>)
    ensures r.Some? ==> WriteCode(r.value) == s
  {
    match s
    case "NO_PERS" => Some(No(NoPers))
    case "NO_PK" => Some(No(NoPk))
    case "NO_PRE" => Some(No(NoPre))
    case _ => None
  }

  /** The Norwegian labels whose national code starts with `S`, told apart by length. */
  function ReadNorwegianCodeS(s: string): (r: Option<Code>)
    ensures r.Some? ==> WriteCode(r.value) == s
  {
    match |s|
    case 5 => ReadNorwegianCodeS5(s)
    case 6 => ReadNorwegianCodeS6(s)
    case 7 => ReadNorwegianCodeS7(s)
    case _ => None
  }

  /** The Norwegian labels of length 5 whose national code starts with `S`. */
  function ReadNorwegianCodeS5(s: string): (r: Option<Code>)
    ensures r.Some? ==> WriteCode(r.value) == s
  {
    match s
    case "NO_SA" => Some(No(NoSa))
    case "NO_SE" => Some(No(NoSe))
    case "NO_SF" => Some(No(NoSf))
    case _ => None
  }

  /** The Norwegian labels of length 6 whose national code starts with `S`. */
  function ReadNorwegianCodeS6(s: string): (r: Option<Code>)
    ensures r.Some? ==> WriteCode(r.value) == s
  {
    match s
    case "NO_SAM" => Some(No(NoSam))
    case "NO_SPA" => Some(No(NoSpa))
    case "NO_STI" => Some(No(NoSti))
    case _ => None
  }

  /** The Norwegian labels of length 7 whose national code starts with `S`. */
  function ReadNorwegianCodeS7(s: string): (r: Option<Code>)
    ensures r.Some? ==> WriteCode(r.value) == s
  {
    match s
    case "NO_SAER" => Some(No(NoSaer))
    case "NO_STAT" => Some(No(NoStat))
    case _ => None
  }

  /** The Norwegian labels whose national code starts with `T`. */
  function ReadNorwegianCodeT(s: string): (r: Option<Code>)
    ensures r.Some? ==> WriteCode(r.value) == s
  {
    match s
    case "NO_TVAM" => Some(No(NoTvam))
    case _ => None
  }

  /** The Norwegian labels whose national code starts with `V`. */
  function ReadNorwegianCodeV(s: string): (r: Option<Code>)
    ensures r.Some? ==> WriteCode(r.value) == s
  {
    match s
    case "NO_VPFO" => Some(No(NoVpfo))
    case _ => None
  }

  /** The labels that start with `S`: all of them are Swedish codes. */
  function ReadSwedishCode(s: string): (r: Option<Code>)
    ensures r.Some? ==> WriteCode(r.value) == s
  {
    if |s| < 4 then None
    else match s[3]
      case 'A' => ReadSwedishCodeA(s)
      case 'B' => ReadSwedishCodeB(s)
      case 'E' => ReadSwedishCodeE(s)
      case 'F' => ReadSwedishCodeF(s)
      case 'H' => ReadSwedishCodeH(s)
      case 'I' => ReadSwedishCodeI(s)
      case 'K' => ReadSwedishCodeK(s)
      case 'M' => ReadSwedishCodeM(s)
      case 'O' => ReadSwedishCodeO(s)
      case 'S' => ReadSwedishCodeS(s)
      case 'T' => ReadSwedishCodeT(s)
      case _ => None
  }

  /** The Swedish labels whose national code starts with `A`. */
  function ReadSwedishCodeA(s: string): (r: Option<Code>)
    ensures r.Some? ==> WriteCode(r.value) == s
  {
    match s
    case "SE_AB" => Some(Se(SeAb))
    case _ => None
  }

  /** The Swedish labels whose national code starts with `B`, told apart by length. */
  function ReadSwedishCodeB(s: string): (r: Option<Code>)
    ensures r.Some? ==> WriteCode(r.value) == s
  {
    match |s|
    case 5 => ReadSwedishCodeB5(s)
    case 6 => ReadSwedishCodeB6(s)
    case _ => None
  }

  /** The Swedish labels of length 5 whose national code starts with `B`. */
  function ReadSwedishCodeB5(s: string): (r: Option<Code>)
    ensures r.Some? ==> WriteCode(r.value) == s
  {
    match s
    case "SE_BF" => Some(Se(SeBf))
    case _ => None
  }

  /** The Swedish labels of length 6 whose national code starts with `B`. */
  function ReadSwedishCodeB6(s: string): (r: Option<Code>)
    ensures r.Some? ==> WriteCode(r.value) == s
  {
    match s
    case "SE_BAB" => Some(Se(SeBab))
    case "SE_BFL" => Some(Se(SeBfl))
    case "SE_BRF" => Some(Se(SeBrf))
    case _ => None
  }

  /** The Swedish labels whose national code starts with `E`, told apart by length. */
  function ReadSwedishCodeE(s: string): (r: Option<Code>)
    ensures r.Some? ==> WriteCode(r.value) == s
  {
    match |s|
    case 4 => ReadSwedishCodeE4(s)
    case 5 => ReadSwedishCodeE5(s)
    case 7 => ReadSwedishCodeE7(s)
    case _ => None
  }

  /** The Swedish labels of length 4 whose national code starts with `E`. */
  function ReadSwedishCodeE4(s: string): (r: Option<Code>)
    ensures r.Some? ==> WriteCode(r.value) == s
  {
    match s
    case "SE_E" => Some(Se(SeE))
    case _ => None
  }

  /** The Swedish labels of length 5 whose national code starts with `E`. */
  function ReadSwedishCodeE5(s: string): (r: Option<Code>)
    ensures r.Some? ==> WriteCode(r.value) == s
  {
    match s
    case "SE_EB" => Some(Se(SeEb))
    case "SE_EK" => Some(Se(SeEk))
    case _ => None
  }

  /** The Swedish labels of length 7 whose national code starts with `E`. */
  function ReadSwedishCodeE7(s: string): (r: Option<Code>)
    ensures r.Some? ==> WriteCode(r.value) == s
  {
    match s
    case "SE_EEIG" => Some(Se(SeEeig))
    case "SE_EGTS" => Some(Se(SeEgts))
    case _ => None
  }

  /** The Swedish labels whose national code starts with `F`. */
  function ReadSwedishCodeF(s: string): (r: Option<Code>)
    ensures r.Some? ==> WriteCode(r.value) == s
  {
    match s
    case "SE_FAB" => Some(Se(SeFab))
    case "SE_FL" => Some(Se(SeFl))
    case "SE_FOF" => Some(Se(SeFof))
    case _ => None
  }

  /** The Swedish labels whose national code starts with `H`. */
  function ReadSwedishCodeH(s: string): (r: Option<Code>)
    ensures r.Some? ==> WriteCode(r.value) == s
  {
    match s
    case "SE_HB" => Some(Se(SeHb))
    case _ => None
  }

  /** The Swedish labels whose national code starts with `I`. */
  function ReadSwedishCodeI(s: string): (r: Option<Code>)
    ensures r.Some? ==> WriteCode(r.value) == s
  {
    match s
    case "SE_I" => Some(Se(SeI))
    case _ => None
  }

  /** The Swedish labels whose national code starts with `K`. */
  function ReadSwedishCodeK(s: string): (r: Option<Code>)
    ensures r.Some? ==> WriteCode(r.value) == s
  {
    match s
    case "SE_KB" => Some(Se(SeKb))
    case "SE_KHF" => Some(Se(SeKhf))
    case _ => None
  }

  /** The Swedish labels whose national code starts with `M`. */
  function ReadSwedishCodeM(s: string): (r: Option<Code>)
    ensures r.Some? ==> WriteCode(r.value) == s
  {
    match s
    case "SE_MB" => Some(Se(SeMb))
    case _ => None
  }

  /** The Swedish labels whose national code starts with `O`. */
  function ReadSwedishCodeO(s: string): (r: Option<Code>)
    ensures r.Some? ==> WriteCode(r.value) == s
  {
    match s
    case "SE_OFB" => Some(Se(SeOfb))
    case _ => None
  }

  /** The Swedish labels whose national code starts with `S`, told apart by length. */
  function ReadSwedishCodeS(s: string): (r: Option<Code>)
    ensures r.Some? ==> WriteCode(r.value) == s
  {
    match |s|
    case 4 => ReadSwedishCodeS4(s)
    case 5 => ReadSwedishCodeS5(s)
    case 6 => ReadSwedishCodeS6(s)
    case _ => None
  }

  /** The Swedish labels of length 4 whose national code starts with `S`. */
  function ReadSwedishCodeS4(s: string): (r: Option<Code>)
    ensures r.Some? ==> WriteCode(r.value) == s
  {
    match s
    case "SE_S" => Some(Se(SeS))
    case _ => None
  }

  /** The Swedish labels of length 5 whose national code starts with `S`. */
  function ReadSwedishCodeS5(s: string): (r: Option<Code>)
    ensures r.Some? ==> WriteCode(r.value) == s
  {
    match s
    case "SE_SB" => Some(Se(SeSb))
    case "SE_SE" => Some(Se(SeSe))
    case "SE_SF" => Some(Se(SeSf))
    case _ => None
  }

  /** The Swedish labels of length 6 whose national code starts with `S`. */
  function ReadSwedishCodeS6(s: string): (r: Option<Code>)
    ensures r.Some? ==> WriteCode(r.value) == s
  {
    match s
    case "SE_SCE" => Some(Se(SeSce))
    case _ => None
  }

  /** The Swedish labels whose national code starts with `T`. */
  function ReadSwedishCodeT(s: string): (r: Option<Code>)
    ensures r.Some? ==> WriteCode(r.value) == s
  {
    match s
    case "SE_TSF" => Some(Se(SeTsf))
    case _ => None
  }

  // ---------------------------------------------------------------------------------------
  // The code table is a bijection
  // ---------------------------------------------------------------------------------------


  /** The members read by `ReadFinnishCodeA5`. */
  lemma FinnishCodeRoundTripA5(f: FinnishCode)
    requires f == FiAy
    ensures ReadCode(FinnishName(f)) == Some(Fi(f))
    ensures 3 < |FinnishName(f)| && FinnishName(f)[..3] == "FI_"
  {
  }

  /** The first members read by `ReadFinnishCodeA6`. */
  lemma FinnishCodeRoundTripA6a(f: FinnishCode)
    requires f == FiAoy || f == FiAsh
    ensures ReadCode(FinnishName(f)) == Some(Fi(f))
    ensures 3 < |FinnishName(f)| && FinnishName(f)[..3] == "FI_"
  {
  }

  /** The other members read by `ReadFinnishCodeA6`. */
  lemma FinnishCodeRoundTripA6b(f: FinnishCode)
    requires f == FiAsy || f == FiAyh
    ensures ReadCode(FinnishName(f)) == Some(Fi(f))
    ensures 3 < |FinnishName(f)| && FinnishName(f)[..3] == "FI_"
  {
  }

  /** The members read by `ReadFinnishCodeA7`. */
  lemma FinnishCodeRoundTripA7(f: FinnishCode)
    requires f == FiAhve
    ensures ReadCode(FinnishName(f)) == Some(Fi(f))
    ensures 3 < |FinnishName(f)| && FinnishName(f)[..3] == "FI_"
  {
  }

  /** The members read by `ReadFinnishCodeA9`. */
  lemma FinnishCodeRoundTripA9(f: FinnishCode)
    requires f == FiAhvell
    ensures ReadCode(FinnishName(f)) == Some(Fi(f))
    ensures 3 < |FinnishName(f)| && FinnishName(f)[..3] == "FI_"
  {
  }

  /** The members read by `ReadFinnishCodeE6`. */
  lemma FinnishCodeRoundTripE6(f: FinnishCode)
    requires f == FiEts || f == FiEty || f == FiEvl
    ensures ReadCode(FinnishName(f)) == Some(Fi(f))
    ensures 3 < |FinnishName(f)| && FinnishName(f)[..3] == "FI_"
  {
  }

  /** The members read by `ReadFinnishCodeE7`. */
  lemma FinnishCodeRoundTripE7(f: FinnishCode)
    requires f == FiEsaa || f == FiEyht
    ensures ReadCode(FinnishName(f)) == Some(Fi(f))
    ensures 3 < |FinnishName(f)| && FinnishName(f)[..3] == "FI_"
  {
  }

  /** The members read by `ReadFinnishCodeE8`. */
  lemma FinnishCodeRoundTripE8(f: FinnishCode)
    requires f == FiElsyh || f == FiEvlut
    ensures ReadCode(FinnishName(f)) == Some(Fi(f))
    ensures 3 < |FinnishName(f)| && FinnishName(f)[..3] == "FI_"
  {
  }

  /** The members read by `ReadFinnishCodeE9`. */
  lemma FinnishCodeRoundTripE9(f: FinnishCode)
    requires f == FiEuokkt
    ensures ReadCode(FinnishName(f)) == Some(Fi(f))
    ensures 3 < |FinnishName(f)| && FinnishName(f)[..3] == "FI_"
  {
  }

  /** The members read by `ReadFinnishCodeH`. */
  lemma FinnishCodeRoundTripH(f: FinnishCode)
    requires f == FiHyyh
    ensures ReadCode(FinnishName(f)) == Some(Fi(f))
    ensures 3 < |FinnishName(f)| && FinnishName(f)[..3] == "FI_"
  {
  }

  /** The members read by `ReadFinnishCodeK5`. */
  lemma FinnishCodeRoundTripK5(f: FinnishCode)
    requires f == FiKk || f == FiKp || f == FiKy
    ensures ReadCode(FinnishName(f)) == Some(Fi(f))
    ensures 3 < |FinnishName(f)| && FinnishName(f)[..3] == "FI_"
  {
  }

  /** The members read by `ReadFinnishCodeK6`. */
  lemma FinnishCodeRoundTripK6(f: FinnishCode)
    requires f == FiKoy || f == FiKvj || f == FiKvy
    ensures ReadCode(FinnishName(f)) == Some(Fi(f))
    ensures 3 < |FinnishName(f)| && FinnishName(f)[..3] == "FI_"
  {
  }

  /** The members read by `ReadFinnishCodeK7`. */
  lemma FinnishCodeRoundTripK7(f: FinnishCode)
    requires f == FiKonk || f == FiKunt
    ensures ReadCode(FinnishName(f)) == Some(Fi(f))
    ensures 3 < |FinnishName(f)| && FinnishName(f)[..3] == "FI_"
  {
  }

  /** The members read by `ReadFinnishCodeK9`. */
  lemma FinnishCodeRoundTripK9(f: FinnishCode)
    requires f == FiKuntll || f == FiKvakyh
    ensures ReadCode(FinnishName(f)) == Some(Fi(f))
    ensures 3 < |FinnishName(f)| && FinnishName(f)[..3] == "FI_"
  {
  }

  /** The members read by `ReadFinnishCodeK10`. */
  lemma FinnishCodeRoundTripK10(f: FinnishCode)
    requires f == FiKuntlll || f == FiKuntyht
    ensures ReadCode(FinnishName(f)) == Some(Fi(f))
    ensures 3 < |FinnishName(f)| && FinnishName(f)[..3] == "FI_"
  {
  }

  /** The members read by `ReadFinnishCodeL`. */
  lemma FinnishCodeRoundTripL(f: FinnishCode)
    requires f == FiLiy
    ensures ReadCode(FinnishName(f)) == Some(Fi(f))
    ensures 3 < |FinnishName(f)| && FinnishName(f)[..3] == "FI_"
  {
  }

  /** The members read by `ReadFinnishCodeM6`. */
  lemma FinnishCodeRoundTripM6(f: FinnishCode)
    requires f == FiMhy || f == FiMuu || f == FiMyh
    ensures ReadCode(FinnishName(f)) == Some(Fi(f))
    ensures 3 < |FinnishName(f)| && FinnishName(f)[..3] == "FI_"
  {
  }

  /** The first members read by `ReadFinnishCodeM7`. */
  lemma FinnishCodeRoundTripM7a(f: FinnishCode)
    requires f == FiMjuo || f == FiMsaa || f == FiMtyh
    ensures ReadCode(FinnishName(f)) == Some(Fi(f))
    ensures 3 < |FinnishName(f)| && FinnishName(f)[..3] == "FI_"
  {
  }

  /** The other members read by `ReadFinnishCodeM7`. */
  lemma FinnishCodeRoundTripM7b(f: FinnishCode)
    requires f == FiMuve || f == FiMuyp
    ensures ReadCode(FinnishName(f)) == Some(Fi(f))
    ensures 3 < |FinnishName(f)| && FinnishName(f)[..3] == "FI_"
  {
  }

  /** The members read by `ReadFinnishCodeM8`. */
  lemma FinnishCodeRoundTripM8(f: FinnishCode)
    requires f == FiMohlo
    ensures ReadCode(FinnishName(f)) == Some(Fi(f))
    ensures 3 < |FinnishName(f)| && FinnishName(f)[..3] == "FI_"
  {
  }

  /** The members read by `ReadFinnishCodeM9`. */
  lemma FinnishCodeRoundTripM9(f: FinnishCode)
    requires f == FiMuukoy
    ensures ReadCode(FinnishName(f)) == Some(Fi(f))
    ensures 3 < |FinnishName(f)| && FinnishName(f)[..3] == "FI_"
  {
  }

  /** The members read by `ReadFinnishCodeO5`. */
  lemma FinnishCodeRoundTripO5(f: FinnishCode)
    requires f == FiOk || f == FiOp || f == FiOy
    ensures ReadCode(FinnishName(f)) == Some(Fi(f))
    ensures 3 < |FinnishName(f)| && FinnishName(f)[..3] == "FI_"
  {
  }

  /** The members read by `ReadFinnishCodeO6`. */
  lemma FinnishCodeRoundTripO6(f: FinnishCode)
    requires f == FiOyj
    ensures ReadCode(FinnishName(f)) == Some(Fi(f))
    ensures 3 < |FinnishName(f)| && FinnishName(f)[..3] == "FI_"
  {
  }

  /** The members read by `ReadFinnishCodeO7`. */
  lemma FinnishCodeRoundTripO7(f: FinnishCode)
    requires f == FiOrto
    ensures ReadCode(FinnishName(f)) == Some(Fi(f))
    ensures 3 < |FinnishName(f)| && FinnishName(f)[..3] == "FI_"
  {
  }

  /** The members read by `ReadFinnishCodeP`. */
  lemma FinnishCodeRoundTripP(f: FinnishCode)
    requires f == FiPk || f == FiPy
    ensures ReadCode(FinnishName(f)) == Some(Fi(f))
    ensures 3 < |FinnishName(f)| && FinnishName(f)[..3] == "FI_"
  {
  }

  /** The members read by `ReadFinnishCodeS5`. */
  lemma FinnishCodeRoundTripS5(f: FinnishCode)
    requires f == FiSe || f == FiSl || f == FiSp
    ensures ReadCode(FinnishName(f)) == Some(Fi(f))
    ensures 3 < |FinnishName(f)| && FinnishName(f)[..3] == "FI_"
  {
  }

  /** The members read by `ReadFinnishCodeS6`. */
  lemma FinnishCodeRoundTripS6(f: FinnishCode)
    requires f == FiSaa || f == FiSce || f == FiScp
    ensures ReadCode(FinnishName(f)) == Some(Fi(f))
    ensures 3 < |FinnishName(f)| && FinnishName(f)[..3] == "FI_"
  {
  }

  /** The members read by `ReadFinnishCodeT`. */
  lemma FinnishCodeRoundTripT(f: FinnishCode)
    requires f == FiTeka || f == FiTyh || f == FiTyka
    ensures ReadCode(FinnishName(f)) == Some(Fi(f))
    ensures 3 < |FinnishName(f)| && FinnishName(f)[..3] == "FI_"
  {
  }

  /** The members read by `ReadFinnishCodeU`. */
  lemma FinnishCodeRoundTripU(f: FinnishCode)
    requires f == FiUlko || f == FiUyk
    ensures ReadCode(FinnishName(f)) == Some(Fi(f))
    ensures 3 < |FinnishName(f)| && FinnishName(f)[..3] == "FI_"
  {
  }

  /** The members read by `ReadFinnishCodeV5`. */
  lemma FinnishCodeRoundTripV5(f: FinnishCode)
    requires f == FiVy
    ensures ReadCode(FinnishName(f)) == Some(Fi(f))
    ensures 3 < |FinnishName(f)| && FinnishName(f)[..3] == "FI_"
  {
  }

  /** The members read by `ReadFinnishCodeV6`. */
  lemma FinnishCodeRoundTripV6(f: FinnishCode)
    requires f == FiVoj || f == FiVoy
    ensures ReadCode(FinnishName(f)) == Some(Fi(f))
    ensures 3 < |FinnishName(f)| && FinnishName(f)[..3] == "FI_"
  {
  }

  /** The members read by `ReadFinnishCodeV7`. */
  lemma FinnishCodeRoundTripV7(f: FinnishCode)
    requires f == FiVakk || f == FiValt
    ensures ReadCode(FinnishName(f)) == Some(Fi(f))
    ensures 3 < |FinnishName(f)| && FinnishName(f)[..3] == "FI_"
  {
  }

  /** The members read by `ReadFinnishCodeV8`. */
  lemma FinnishCodeRoundTripV8(f: FinnishCode)
    requires f == FiVeyht
    ensures ReadCode(FinnishName(f)) == Some(Fi(f))
    ensures 3 < |FinnishName(f)| && FinnishName(f)[..3] == "FI_"
  {
  }

  /** The members read by `ReadFinnishCodeV9`. */
  lemma FinnishCodeRoundTripV9(f: FinnishCode)
    requires f == FiValtll
    ensures ReadCode(FinnishName(f)) == Some(Fi(f))
    ensures 3 < |FinnishName(f)| && FinnishName(f)[..3] == "FI_"
  {
  }

  /** The members read by `ReadFinnishCodeY5`. */
  lemma FinnishCodeRoundTripY5(f: FinnishCode)
    requires f == FiYo
    ensures ReadCode(FinnishName(f)) == Some(Fi(f))
    ensures 3 < |FinnishName(f)| && FinnishName(f)[..3] == "FI_"
  {
  }

  /** The members read by `ReadFinnishCodeY6`. */
  lemma FinnishCodeRoundTripY6(f: FinnishCode)
    requires f == FiYeh
    ensures ReadCode(FinnishName(f)) == Some(Fi(f))
    ensures 3 < |FinnishName(f)| && FinnishName(f)[..3] == "FI_"
  {
  }

  /** The members read by `ReadFinnishCodeY7`. */
  lemma FinnishCodeRoundTripY7(f: FinnishCode)
    requires f == FiYhme || f == FiYhte
    ensures ReadCode(FinnishName(f)) == Some(Fi(f))
    ensures 3 < |FinnishName(f)| && FinnishName(f)[..3] == "FI_"
  {
  }

  /**
   * Reading the name of a Finnish member gives back that member, and the name is `FI_`
   * followed by a non-empty national code. The proof goes group by group as the reader does.
   */
  lemma FinnishCodeRoundTrip(f: FinnishCode)
    ensures ReadCode(FinnishName(f)) == Some(Fi(f))
    ensures 3 < |FinnishName(f)| && FinnishName(f)[..3] == "FI_"
  {
    match f
    case FiAy => FinnishCodeRoundTripA5(f);
    case FiAoy | FiAsh => FinnishCodeRoundTripA6a(f);
    case FiAsy | FiAyh => FinnishCodeRoundTripA6b(f);
    case FiAhve => FinnishCodeRoundTripA7(f);
    case FiAhvell => FinnishCodeRoundTripA9(f);
    case FiEts | FiEty | FiEvl => FinnishCodeRoundTripE6(f);
    case FiEsaa | FiEyht => FinnishCodeRoundTripE7(f);
    case FiElsyh | FiEvlut => FinnishCodeRoundTripE8(f);
    case FiEuokkt => FinnishCodeRoundTripE9(f);
    case FiHyyh => FinnishCodeRoundTripH(f);
    case FiKk | FiKp | FiKy => FinnishCodeRoundTripK5(f);
    case FiKoy | FiKvj | FiKvy => FinnishCodeRoundTripK6(f);
    case FiKonk | FiKunt => FinnishCodeRoundTripK7(f);
    case FiKuntll | FiKvakyh => FinnishCodeRoundTripK9(f);
    case FiKuntlll | FiKuntyht => FinnishCodeRoundTripK10(f);
    case FiLiy => FinnishCodeRoundTripL(f);
    case FiMhy | FiMuu | FiMyh => FinnishCodeRoundTripM6(f);
    case FiMjuo | FiMsaa | FiMtyh => FinnishCodeRoundTripM7a(f);
    case FiMuve | FiMuyp => FinnishCodeRoundTripM7b(f);
    case FiMohlo => FinnishCodeRoundTripM8(f);
    case FiMuukoy => FinnishCodeRoundTripM9(f);
    case FiOk | FiOp | FiOy => FinnishCodeRoundTripO5(f);
    case FiOyj => FinnishCodeRoundTripO6(f);
    case FiOrto => FinnishCodeRoundTripO7(f);
    case FiPk | FiPy => FinnishCodeRoundTripP(f);
    case FiSe | FiSl | FiSp => FinnishCodeRoundTripS5(f);
    case FiSaa | FiSce | FiScp => FinnishCodeRoundTripS6(f);
    case FiTeka | FiTyh | FiTyka => FinnishCodeRoundTripT(f);
    case FiUlko | FiUyk => FinnishCodeRoundTripU(f);
    case FiVy => FinnishCodeRoundTripV5(f);
    case FiVoj | FiVoy => FinnishCodeRoundTripV6(f);
    case FiVakk | FiValt => FinnishCodeRoundTripV7(f);
    case FiVeyht => FinnishCodeRoundTripV8(f);
    case FiValtll => FinnishCodeRoundTripV9(f);
    case FiYo => FinnishCodeRoundTripY5(f);
    case FiYeh => FinnishCodeRoundTripY6(f);
    case FiYhme | FiYhte => FinnishCodeRoundTripY7(f);
  }

  /** The members read by `ReadNorwegianCodeA5`. */
  lemma NorwegianCodeRoundTripA5(n: NorwegianCode)
    requires n == NoAs
    ensures ReadCode(NorwegianName(n)) == Some(No(n))
    ensures 3 < |NorwegianName(n)| && NorwegianName(n)[..3] == "NO_"
  {
  }

  /** The members read by `ReadNorwegianCodeA6`. */
  lemma NorwegianCodeRoundTripA6(n: NorwegianCode)
    requires n == NoAns || n == NoAsa
    ensures ReadCode(NorwegianName(n)) == Some(No(n))
    ensures 3 < |NorwegianName(n)| && NorwegianName(n)[..3] == "NO_"
  {
  }

  /** The members read by `ReadNorwegianCodeA7`. */
  lemma NorwegianCodeRoundTripA7(n: NorwegianCode)
    requires n == NoAafy || n == NoAdos || n == NoAnna
    ensures ReadCode(NorwegianName(n)) == Some(No(n))
    ensures 3 < |NorwegianName(n)| && NorwegianName(n)[..3] == "NO_"
  {
  }

  /** The members read by `ReadNorwegianCodeB5`. */
  lemma NorwegianCodeRoundTripB5(n: NorwegianCode)
    requires n == NoBa || n == NoBo
    ensures ReadCode(NorwegianName(n)) == Some(No(n))
    ensures 3 < |NorwegianName(n)| && NorwegianName(n)[..3] == "NO_"
  {
  }

  /** The members read by `ReadNorwegianCodeB6`. */
  lemma NorwegianCodeRoundTripB6(n: NorwegianCode)
    requires n == NoBbl || n == NoBrl
    ensures ReadCode(NorwegianName(n)) == Some(No(n))
    ensures 3 < |NorwegianName(n)| && NorwegianName(n)[..3] == "NO_"
  {
  }

  /** The members read by `ReadNorwegianCodeB7`. */
  lemma NorwegianCodeRoundTripB7(n: NorwegianCode)
    requires n == NoBedr
    ensures ReadCode(NorwegianName(n)) == Some(No(n))
    ensures 3 < |NorwegianName(n)| && NorwegianName(n)[..3] == "NO_"
  {
  }

  /** The members read by `ReadNorwegianCodeD`. */
  lemma NorwegianCodeRoundTripD(n: NorwegianCode)
    requires n == NoDa
    ensures ReadCode(NorwegianName(n)) == Some(No(n))
    ensures 3 < |NorwegianName(n)| && NorwegianName(n)[..3] == "NO_"
  {
  }

  /** The members read by `ReadNorwegianCodeE`. */
  lemma NorwegianCodeRoundTripE(n: NorwegianCode)
    requires n == NoEnk || n == NoEoefg || n == NoEsek
    ensures ReadCode(NorwegianName(n)) == Some(No(n))
    ensures 3 < |NorwegianName(n)| && NorwegianName(n)[..3] == "NO_"
  {
  }

  /** The members read by `ReadNorwegianCodeF`. */
  lemma NorwegianCodeRoundTripF(n: NorwegianCode)
    requires n == NoFkf || n == NoFli || n == NoFylk
    ensures ReadCode(NorwegianName(n)) == Some(No(n))
    ensures 3 < |NorwegianName(n)| && NorwegianName(n)[..3] == "NO_"
  {
  }

  /** The members read by `ReadNorwegianCodeG`. */
  lemma NorwegianCodeRoundTripG(n: NorwegianCode)
    requires n == NoGfs
    ensures ReadCode(NorwegianName(n)) == Some(No(n))
    ensures 3 < |NorwegianName(n)| && NorwegianName(n)[..3] == "NO_"
  {
  }

  /** The members read by `ReadNorwegianCodeI`. */
  lemma NorwegianCodeRoundTripI(n: NorwegianCode)
    requires n == NoIkjp || n == NoIks
    ensures ReadCode(NorwegianName(n)) == Some(No(n))
    ensures 3 < |NorwegianName(n)| && NorwegianName(n)[..3] == "NO_"
  {
  }

  /** The members read by `ReadNorwegianCodeK5`. */
  lemma NorwegianCodeRoundTripK5(n: NorwegianCode)
    requires n == NoKf || n == NoKs
    ensures ReadCode(NorwegianName(n)) == Some(No(n))
    ensures 3 < |NorwegianName(n)| && NorwegianName(n)[..3] == "NO_"
  {
  }

  /** The members read by `ReadNorwegianCodeK6`. */
  lemma NorwegianCodeRoundTripK6(n: NorwegianCode)
    requires n == NoKbo
    ensures ReadCode(NorwegianName(n)) == Some(No(n))
    ensures 3 < |NorwegianName(n)| && NorwegianName(n)[..3] == "NO_"
  {
  }

  /** The members read by `ReadNorwegianCodeK7`. */
  lemma NorwegianCodeRoundTripK7(n: NorwegianCode)
    requires n == NoKirk || n == NoKomm || n == NoKtrf
    ensures ReadCode(NorwegianName(n)) == Some(No(n))
    ensures 3 < |NorwegianName(n)| && NorwegianName(n)[..3] == "NO_"
  {
  }

  /** The members read by `ReadNorwegianCodeN`. */
  lemma NorwegianCodeRoundTripN(n: NorwegianCode)
    requires n == NoNuf
    ensures ReadCode(NorwegianName(n)) == Some(No(n))
    ensures 3 < |NorwegianName(n)| && NorwegianName(n)[..3] == "NO_"
  {
  }

  /** The members read by `ReadNorwegianCodeO`. */
  lemma NorwegianCodeRoundTripO(n: NorwegianCode)
    requires n == NoOpmv || n == NoOrgl
    ensures ReadCode(NorwegianName(n)) == Some(No(n))
    ensures 3 < |NorwegianName(n)| && NorwegianName(n)[..3] == "NO_"
  {
  }

  /** The members read by `ReadNorwegianCodeP`. */
  lemma NorwegianCodeRoundTripP(n: NorwegianCode)
    requires n == NoPers || n == NoPk || n == NoPre
    ensures ReadCode(NorwegianName(n)) == Some(No(n))
    ensures 3 < |NorwegianName(n)| && NorwegianName(n)[..3] == "NO_"
  {
  }

  /** The members read by `ReadNorwegianCodeS5`. */
  lemma NorwegianCodeRoundTripS5(n: NorwegianCode)
    requires n == NoSa || n == NoSe || n == NoSf
    ensures ReadCode(NorwegianName(n)) == Some(No(n))
    ensures 3 < |NorwegianName(n)| && NorwegianName(n)[..3] == "NO_"
  {
  }

  /** The members read by `ReadNorwegianCodeS6`. */
  lemma NorwegianCodeRoundTripS6(n: NorwegianCode)
    requires n == NoSam || n == NoSpa || n == NoSti
    ensures ReadCode(NorwegianName(n)) == Some(No(n))
    ensures 3 < |NorwegianName(n)| && NorwegianName(n)[..3] == "NO_"
  {
  }

  /** The members read by `ReadNorwegianCodeS7`. */
  lemma NorwegianCodeRoundTripS7(n: NorwegianCode)
    requires n == NoSaer || n == NoStat
    ensures ReadCode(NorwegianName(n)) == Some(No(n))
    ensures 3 < |NorwegianName(n)| && NorwegianName(n)[..3] == "NO_"
  {
  }

  /** The members read by `ReadNorwegianCodeT`. */
  lemma NorwegianCodeRoundTripT(n: NorwegianCode)
    requires n == NoTvam
    ensures ReadCode(NorwegianName(n)) == Some(No(n))
    ensures 3 < |NorwegianName(n)| && NorwegianName(n)[..3] == "NO_"
  {
  }

  /** The members read by `ReadNorwegianCodeV`. */
  lemma NorwegianCodeRoundTripV(n: NorwegianCode)
    requires n == NoVpfo
    ensures ReadCode(NorwegianName(n)) == Some(No(n))
    ensures 3 < |NorwegianName(n)| && NorwegianName(n)[..3] == "NO_"
  {
  }

  /**
   * Reading the name of a Norwegian member gives back that member, and the name is `NO_`
   * followed by a non-empty national code. The proof goes group by group as the reader does.
   */
  lemma NorwegianCodeRoundTrip(n: NorwegianCode)
    ensures ReadCode(NorwegianName(n)) == Some(No(n))
    ensures 3 < |NorwegianName(n)| && NorwegianName(n)[..3] == "NO_"
  {
    match n
    case NoAs => NorwegianCodeRoundTripA5(n);
    case NoAns | NoAsa => NorwegianCodeRoundTripA6(n);
    case NoAafy | NoAdos | NoAnna => NorwegianCodeRoundTripA7(n);
    case NoBa | NoBo => NorwegianCodeRoundTripB5(n);
    case NoBbl | NoBrl => NorwegianCodeRoundTripB6(n);
    case NoBedr => NorwegianCodeRoundTripB7(n);
    case NoDa => NorwegianCodeRoundTripD(n);
    case NoEnk | NoEoefg | NoEsek => NorwegianCodeRoundTripE(n);
    case NoFkf | NoFli | NoFylk => NorwegianCodeRoundTripF(n);
    case NoGfs => NorwegianCodeRoundTripG(n);
    case NoIkjp | NoIks => NorwegianCodeRoundTripI(n);
    case NoKf | NoKs => NorwegianCodeRoundTripK5(n);
    case NoKbo => NorwegianCodeRoundTripK6(n);
    case NoKirk | NoKomm | NoKtrf => NorwegianCodeRoundTripK7(n);
    case NoNuf => NorwegianCodeRoundTripN(n);
    case NoOpmv | NoOrgl => NorwegianCodeRoundTripO(n);
    case NoPers | NoPk | NoPre => NorwegianCodeRoundTripP(n);
    case NoSa | NoSe | NoSf => NorwegianCodeRoundTripS5(n);
    case NoSam | NoSpa | NoSti => NorwegianCodeRoundTripS6(n);
    case NoSaer | NoStat => NorwegianCodeRoundTripS7(n);
    case NoTvam => NorwegianCodeRoundTripT(n);
    case NoVpfo => NorwegianCodeRoundTripV(n);
  }

  /** The members read by `ReadSwedishCodeA`. */
  lemma SwedishCodeRoundTripA(e: SwedishCode)
    requires e == SeAb
    ensures ReadCode(SwedishName(e)) == Some(Se(e))
    ensures 3 < |SwedishName(e)| && SwedishName(e)[..3] == "SE_"
  {
  }

  /** The members read by `ReadSwedishCodeB5`. */
  lemma SwedishCodeRoundTripB5(e: SwedishCode)
    requires e == SeBf
    ensures ReadCode(SwedishName(e)) == Some(Se(e))
    ensures 3 < |SwedishName(e)| && SwedishName(e)[..3] == "SE_"
  {
  }

  /** The members read by `ReadSwedishCodeB6`. */
  lemma SwedishCodeRoundTripB6(e: SwedishCode)
    requires e == SeBab || e == SeBfl || e == SeBrf
    ensures ReadCode(SwedishName(e)) == Some(Se(e))
    ensures 3 < |SwedishName(e)| && SwedishName(e)[..3] == "SE_"
  {
  }

  /** The members read by `ReadSwedishCodeE4`. */
  lemma SwedishCodeRoundTripE4(e: SwedishCode)
    requires e == SeE
    ensures ReadCode(SwedishName(e)) == Some(Se(e))
    ensures 3 < |SwedishName(e)| && SwedishName(e)[..3] == "SE_"
  {
  }

  /** The members read by `ReadSwedishCodeE5`. */
  lemma SwedishCodeRoundTripE5(e: SwedishCode)
    requires e == SeEb || e == SeEk
    ensures ReadCode(SwedishName(e)) == Some(Se(e))
    ensures 3 < |SwedishName(e)| && SwedishName(e)[..3] == "SE_"
  {
  }

  /** The members read by `ReadSwedishCodeE7`. */
  lemma SwedishCodeRoundTripE7(e: SwedishCode)
    requires e == SeEeig || e == SeEgts
    ensures ReadCode(SwedishName(e)) == Some(Se(e))
    ensures 3 < |SwedishName(e)| && SwedishName(e)[..3] == "SE_"
  {
  }

  /** The members read by `ReadSwedishCodeF`. */
  lemma SwedishCodeRoundTripF(e: SwedishCode)
    requires e == SeFab || e == SeFl || e == SeFof
    ensures ReadCode(SwedishName(e)) == Some(Se(e))
    ensures 3 < |SwedishName(e)| && SwedishName(e)[..3] == "SE_"
  {
  }

  /** The members read by `ReadSwedishCodeH`. */
  lemma SwedishCodeRoundTripH(e: SwedishCode)
    requires e == SeHb
    ensures ReadCode(SwedishName(e)) == Some(Se(e))
    ensures 3 < |SwedishName(e)| && SwedishName(e)[..3] == "SE_"
  {
  }

  /** The members read by `ReadSwedishCodeI`. */
  lemma SwedishCodeRoundTripI(e: SwedishCode)
    requires e == SeI
    ensures ReadCode(SwedishName(e)) == Some(Se(e))
    ensures 3 < |SwedishName(e)| && SwedishName(e)[..3] == "SE_"
  {
  }

  /** The members read by `ReadSwedishCodeK`. */
  lemma SwedishCodeRoundTripK(e: SwedishCode)
    requires e == SeKb || e == SeKhf
    ensures ReadCode(SwedishName(e)) == Some(Se(e))
    ensures 3 < |SwedishName(e)| && SwedishName(e)[..3] == "SE_"
  {
  }

  /** The members read by `ReadSwedishCodeM`. */
  lemma SwedishCodeRoundTripM(e: SwedishCode)
    requires e == SeMb
    ensures ReadCode(SwedishName(e)) == Some(Se(e))
    ensures 3 < |SwedishName(e)| && SwedishName(e)[..3] == "SE_"
  {
  }

  /** The members read by `ReadSwedishCodeO`. */
  lemma SwedishCodeRoundTripO(e: SwedishCode)
    requires e == SeOfb
    ensures ReadCode(SwedishName(e)) == Some(Se(e))
    ensures 3 < |SwedishName(e)| && SwedishName(e)[..3] == "SE_"
  {
  }

  /** The members read by `ReadSwedishCodeS4`. */
  lemma SwedishCodeRoundTripS4(e: SwedishCode)
    requires e == SeS
    ensures ReadCode(SwedishName(e)) == Some(Se(e))
    ensures 3 < |SwedishName(e)| && SwedishName(e)[..3] == "SE_"
  {
  }

  /** The members read by `ReadSwedishCodeS5`. */
  lemma SwedishCodeRoundTripS5(e: SwedishCode)
    requires e == SeSb || e == SeSe || e == SeSf
    ensures ReadCode(SwedishName(e)) == Some(Se(e))
    ensures 3 < |SwedishName(e)| && SwedishName(e)[..3] == "SE_"
  {
  }

  /** The members read by `ReadSwedishCodeS6`. */
  lemma SwedishCodeRoundTripS6(e: SwedishCode)
    requires e == SeSce
    ensures ReadCode(SwedishName(e)) == Some(Se(e))
    ensures 3 < |SwedishName(e)| && SwedishName(e)[..3] == "SE_"
  {
  }

  /** The members read by `ReadSwedishCodeT`. */
  lemma SwedishCodeRoundTripT(e: SwedishCode)
    requires e == SeTsf
    ensures ReadCode(SwedishName(e)) == Some(Se(e))
    ensures 3 < |SwedishName(e)| && SwedishName(e)[..3] == "SE_"
  {
  }

  /**
   * Reading the name of a Swedish member gives back that member, and the name is `SE_`
   * followed by a non-empty national code. The proof goes group by group as the reader does.
   */
  lemma SwedishCodeRoundTrip(e: SwedishCode)
    ensures ReadCode(SwedishName(e)) == Some(Se(e))
    ensures 3 < |SwedishName(e)| && SwedishName(e)[..3] == "SE_"
  {
    match e
    case SeAb => SwedishCodeRoundTripA(e);
    case SeBf => SwedishCodeRoundTripB5(e);
    case SeBab | SeBfl | SeBrf => SwedishCodeRoundTripB6(e);
    case SeE => SwedishCodeRoundTripE4(e);
    case SeEb | SeEk => SwedishCodeRoundTripE5(e);
    case SeEeig | SeEgts => SwedishCodeRoundTripE7(e);
    case SeFab | SeFl | SeFof => SwedishCodeRoundTripF(e);
    case SeHb => SwedishCodeRoundTripH(e);
    case SeI => SwedishCodeRoundTripI(e);
    case SeKb | SeKhf => SwedishCodeRoundTripK(e);
    case SeMb => SwedishCodeRoundTripM(e);
    case SeOfb => SwedishCodeRoundTripO(e);
    case SeS => SwedishCodeRoundTripS4(e);
    case SeSb | SeSe | SeSf => SwedishCodeRoundTripS5(e);
    case SeSce => SwedishCodeRoundTripS6(e);
    case SeTsf => SwedishCodeRoundTripT(e);
  }

  /** Every one of the 136 members survives writing and reading. */
  lemma CodeRoundTrip(c: Code)
    ensures ReadCode(WriteCode(c)) == Some(c)
  {
    match c
    case Fi(f) => FinnishCodeRoundTrip(f);
    case No(n) => NorwegianCodeRoundTrip(n);
    case Se(e) => SwedishCodeRoundTrip(e);
  }

  /** Distinct members have distinct names. */
  lemma WriteCodeInjective(a: Code, b: Code)
    ensures WriteCode(a) == WriteCode(b) <==> a == b
  {
    CodeRoundTrip(a);
    CodeRoundTrip(b);
  }

  /** The reader maps a string to a member exactly when the string is that member's name. */
  lemma ReadCodeMeansWriteCode(s: string, c: Code)
    ensures ReadCode(s) == Some(c) <==> WriteCode(c) == s
  {
    CodeRoundTrip(c);
  }

  /** The reader rejects exactly the strings that are no member's name: there is no default. */
  lemma ReadCodeRejectsOthers(s: string)
    ensures ReadCode(s).None? <==> forall c: Code :: WriteCode(c) != s
  {
    if ReadCode(s).None? {
      forall c: Code
        ensures WriteCode(c) != s
      {
        CodeRoundTrip(c);
      }
    }
  }

  /** The name of every member starts with the prefix of its scheme. */
  lemma WriteCodePrefix(c: Code)
    ensures 3 < |WriteCode(c)| && WriteCode(c)[..3] == CountryPrefix(CountryOf(c))
  {
    match c
    case Fi(f) => FinnishCodeRoundTrip(f);
    case No(n) => NorwegianCodeRoundTrip(n);
    case Se(e) => SwedishCodeRoundTrip(e);
  }

  /**
   * Every accepted string starts with `FI_`, `NO_` or `SE_`, and the prefix it starts with is
   * the scheme of the member it reads as.
   */
  lemma AcceptedCodePrefix(s: string)
    requires ReadCode(s).Some?
    ensures 3 < |s|
    ensures forall k: CodeCountry :: s[..3] == CountryPrefix(k) <==> k == CountryOf(ReadCode(s).value)
  {
    WriteCodePrefix(ReadCode(s).value);
  }

  // ---------------------------------------------------------------------------------------
  // CodeConverter at the JSON level
  // ---------------------------------------------------------------------------------------

  /** `CodeConverter.ReadJson`: null stays null, an unknown string throws. */
  function ReadCodeJson(t: JsonToken): Result<Option<Code>, string> {
    match t
    case JsonNull => Success(None)
    case JsonString(s) =>
      match ReadCode(s)
      case Some(c) => Success(Some(c))
      case None => Failure(CodeUnmarshalError)
  }

  /** `CodeConverter.WriteJson`: a null value writes `null`. */
  function WriteCodeJson(v: Option<Code>): JsonToken {
    match v
    case None => JsonNull
    case Some(c) => JsonString(WriteCode(c))
  }

  /** Writing then reading gives back the value, null included. */
  lemma CodeJsonRoundTrip(v: Option<Code>)
    ensures ReadCodeJson(WriteCodeJson(v)) == Success(v)
  {
    if v.Some? {
      CodeRoundTrip(v.value);
    }
  }

  /**
   * Every token the reader accepts is what the writer produces for the result, and the reader
   * fails, with the source's message, on exactly the strings that name no member.
   */
  lemma CodeJsonReadWrite(t: JsonToken)
    ensures ReadCodeJson(t).Success? ==> WriteCodeJson(ReadCodeJson(t).value) == t
    ensures ReadCodeJson(t).Failure? <==> t.JsonString? && forall c: Code :: WriteCode(c) != t.text
    ensures ReadCodeJson(t).Failure? ==> ReadCodeJson(t).error == CodeUnmarshalError
  {
    if t.JsonString? {
      ReadCodeRejectsOthers(t.text);
    }
  }
}
