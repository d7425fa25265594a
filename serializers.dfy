/**
 * The ELMv3 document schema and its serialisation: one node type per
 * pydantic model, each with its fixed `id`/`type` constants, rendered with
 * camelCase aliases (`context` as `@context`) and with absent optional
 * values left out, as `model_dump_json(by_alias=True, exclude_none=True)`
 * does. Also the query-parameter model and its dump.
 */
module Serializers {
  import opened Wrappers
  import opened Strings
  import opened JsonValues
  import opened Utils

  // ---------------------------------------------------------------------------
  // Aliases

  /** The output key of a field: its camelCase alias, or `@context` for `context`. */
  function Alias(name: string): string {
    if name == "context" then "@context" else ToCamel(name)
  }

  /** A one-word field keeps its name. */
  lemma AliasOfWord(name: string)
    requires '_' !in name && name != "context"
    ensures Alias(name) == name
  {
    ToCamelWithoutUnderscore(name);
  }

  /** A two-word field `a_b` becomes `a` followed by `b` with its first letter upper-cased. */
  lemma AliasOfTwoWords(name: string, a: string, b: string, camel: string)
    requires name == a + "_" + b
    requires '_' !in a && LaterPiece(b)
    requires camel == a + [Upper(b[0])] + b[1..]
    ensures Alias(name) == camel
  {
    NotContext(a, b);
    LaterPieceHasNoUnderscore(b);
    ToCamelTwoPieces(a, b);
    CapitalizeLaterPiece(b);
  }

  lemma NotContext(a: string, b: string)
    ensures a + "_" + b != "context"
  {
    assert (a + "_" + b)[|a|] == '_';
  }

  // The alias of each field name the schema declares, one name at a time.

  lemma AliasId() ensures Alias("id") == "id" {
    AliasOfWord("id");
  }

  lemma AliasType() ensures Alias("type") == "type" {
    AliasOfWord("type");
  }

  lemma AliasNotation() ensures Alias("notation") == "notation" {
    AliasOfWord("notation");
  }

  lemma AliasAddress() ensures Alias("address") == "address" {
    AliasOfWord("address");
  }

  lemma AliasLocation() ensures Alias("location") == "location" {
    AliasOfWord("location");
  }

  lemma AliasTitle() ensures Alias("title") == "title" {
    AliasOfWord("title");
  }

  lemma AliasLanguage() ensures Alias("language") == "language" {
    AliasOfWord("language");
  }

  lemma AliasMode() ensures Alias("mode") == "mode" {
    AliasOfWord("mode");
  }

  lemma AliasGrade() ensures Alias("grade") == "grade" {
    AliasOfWord("grade");
  }

  lemma AliasIssued() ensures Alias("issued") == "issued" {
    AliasOfWord("issued");
  }

  lemma AliasIssuer() ensures Alias("issuer") == "issuer" {
    AliasOfWord("issuer");
  }

  lemma AliasCredential() ensures Alias("credential") == "credential" {
    AliasOfWord("credential");
  }

  lemma AliasContext() ensures Alias("context") == "@context" {
  }

  lemma AliasInScheme() ensures Alias("in_scheme") == "inScheme" {
    AliasOfTwoWords("in_scheme", "in", "scheme", "inScheme");
  }

  lemma AliasCountryCode() ensures Alias("country_code") == "countryCode" {
    AliasOfTwoWords("country_code", "country", "code", "countryCode");
  }

  lemma AliasPrefLabel() ensures Alias("pref_label") == "prefLabel" {
    AliasOfTwoWords("pref_label", "pref", "label", "prefLabel");
  }

  lemma AliasAltLabel() ensures Alias("alt_label") == "altLabel" {
    AliasOfTwoWords("alt_label", "alt", "label", "altLabel");
  }

  lemma AliasLegalName() ensures Alias("legal_name") == "legalName" {
    AliasOfTwoWords("legal_name", "legal", "name", "legalName");
  }

  lemma AliasNoteLiteral() ensures Alias("note_literal") == "noteLiteral" {
    AliasOfTwoWords("note_literal", "note", "literal", "noteLiteral");
  }

  lemma AliasAwardingBody() ensures Alias("awarding_body") == "awardingBody" {
    AliasOfTwoWords("awarding_body", "awarding", "body", "awardingBody");
  }

  lemma AliasAwardingDate() ensures Alias("awarding_date") == "awardingDate" {
    AliasOfTwoWords("awarding_date", "awarding", "date", "awardingDate");
  }

  lemma AliasAwardedBy() ensures Alias("awarded_by") == "awardedBy" {
    AliasOfTwoWords("awarded_by", "awarded", "by", "awardedBy");
  }

  lemma AliasIdVerification() ensures Alias("id_verification") == "idVerification" {
    AliasOfTwoWords("id_verification", "id", "verification", "idVerification");
  }

  lemma AliasProvenBy() ensures Alias("proven_by") == "provenBy" {
    AliasOfTwoWords("proven_by", "proven", "by", "provenBy");
  }

  lemma AliasSpecifiedBy() ensures Alias("specified_by") == "specifiedBy" {
    AliasOfTwoWords("specified_by", "specified", "by", "specifiedBy");
  }

  lemma AliasPrimaryLanguage() ensures Alias("primary_language") == "primaryLanguage" {
    AliasOfTwoWords("primary_language", "primary", "language", "primaryLanguage");
  }

  lemma AliasGivenName() ensures Alias("given_name") == "givenName" {
    AliasOfTwoWords("given_name", "given", "name", "givenName");
  }

  lemma AliasFamilyName() ensures Alias("family_name") == "familyName" {
    AliasOfTwoWords("family_name", "family", "name", "familyName");
  }

  lemma AliasFullName() ensures Alias("full_name") == "fullName" {
    AliasOfTwoWords("full_name", "full", "name", "fullName");
  }

  lemma AliasHasClaim() ensures Alias("has_claim") == "hasClaim" {
    AliasOfTwoWords("has_claim", "has", "claim", "hasClaim");
  }

  lemma AliasDeliveryAddress() ensures Alias("delivery_address") == "deliveryAddress" {
    AliasOfTwoWords("delivery_address", "delivery", "address", "deliveryAddress");
  }

  lemma AliasCredentialSchema() ensures Alias("credential_schema") == "credentialSchema" {
    AliasOfTwoWords("credential_schema", "credential", "schema", "credentialSchema");
  }

  lemma AliasValidUntil() ensures Alias("valid_until") == "validUntil" {
    AliasOfTwoWords("valid_until", "valid", "until", "validUntil");
  }

  lemma AliasExpirationDate() ensures Alias("expiration_date") == "expirationDate" {
    AliasOfTwoWords("expiration_date", "expiration", "date", "expirationDate");
  }

  lemma AliasValidFrom() ensures Alias("valid_from") == "validFrom" {
    AliasOfTwoWords("valid_from", "valid", "from", "validFrom");
  }

  lemma AliasIssuanceDate() ensures Alias("issuance_date") == "issuanceDate" {
    AliasOfTwoWords("issuance_date", "issuance", "date", "issuanceDate");
  }

  lemma AliasCredentialSubject() ensures Alias("credential_subject") == "credentialSubject" {
    AliasOfTwoWords("credential_subject", "credential", "subject", "credentialSubject");
  }

  lemma AliasDisplayParameter() ensures Alias("display_parameter") == "displayParameter" {
    AliasOfTwoWords("display_parameter", "display", "parameter", "displayParameter");
  }

  lemma AliasDeliveryDetails() ensures Alias("delivery_details") == "deliveryDetails" {
    AliasOfTwoWords("delivery_details", "delivery", "details", "deliveryDetails");
  }

  // ---------------------------------------------------------------------------
  // Dumping a model

  /**
   * The members of a dumped model: each present value under its key, in
   * declaration order; an absent (`None`) value writes nothing.
   */
  function Members(keys: seq<string>, values: seq<Option<Json>>): seq<(string, Json)>
    requires |keys| == |values|
  {
    if keys == [] then []
    else
      var head := if values[0].Some? then [(keys[0], values[0].value)] else [];
      head + Members(keys[1..], values[1..])
  }

  /** `model_dump(by_alias=True, exclude_none=True)` of a model with these keys and values. */
  function Dump(keys: seq<string>, values: seq<Option<Json>>): Json
    requires |keys| == |values|
  {
    JObject(Members(keys, values))
  }

  /** A key is written exactly when some field under it has a value. */
  lemma {:induction false} MembersKeys(keys: seq<string>, values: seq<Option<Json>>, key: string)
    requires |keys| == |values|
    ensures key in Keys(Members(keys, values))
      <==> exists i :: 0 <= i < |keys| && values[i].Some? && keys[i] == key
  {
    if keys != [] {
      var head := if values[0].Some? then [(keys[0], values[0].value)] else [];
      KeysAppend(head, Members(keys[1..], values[1..]));
      MembersKeys(keys[1..], values[1..], key);
      if key in Keys(Members(keys, values)) {
        if key !in Keys(head) {
          var j :| 0 <= j < |keys| - 1 && values[1..][j].Some? && keys[1..][j] == key;
          assert values[j + 1].Some? && keys[j + 1] == key;
        }
      } else {
        forall i | 0 <= i < |keys| && values[i].Some?
          ensures keys[i] != key
        {
          if i > 0 {
            assert values[1..][i - 1] == values[i] && keys[1..][i - 1] == keys[i];
          }
        }
      }
    }
  }

  /** With every value present, the dump has exactly the keys, in order. */
  lemma {:induction false} DumpKeys(keys: seq<string>, values: seq<Option<Json>>)
    requires |keys| == |values|
    requires None !in values
    ensures ObjectKeys(Dump(keys, values)) == keys
  {
    if keys != [] {
      assert values[0] in values && None !in values[1..];
      var head := [(keys[0], values[0].value)];
      KeysAppend(head, Members(keys[1..], values[1..]));
      DumpKeys(keys[1..], values[1..]);
      assert keys == [keys[0]] + keys[1..];
    }
  }

  /** With distinct keys, each field's value (or its absence) is found under its key. */
  lemma {:induction false} DumpGet(keys: seq<string>, values: seq<Option<Json>>, i: nat)
    requires |keys| == |values| && i < |keys|
    requires Distinct(keys)
    ensures Get(Dump(keys, values), keys[i]) == values[i]
  {
    var head := if values[0].Some? then [(keys[0], values[0].value)] else [];
    var tail := Members(keys[1..], values[1..]);
    LookupAppend(head, tail, keys[i]);
    assert Distinct(keys[1..]);
    if i == 0 {
      if values[0].None? {
        MembersKeys(keys[1..], values[1..], keys[0]);
        forall j | 0 <= j < |keys| - 1
          ensures keys[1..][j] != keys[0]
        {
          assert keys[0] != keys[j + 1];
        }
        LookupNone(tail, keys[0]);
      }
    } else {
      assert keys[0] != keys[i];
      DumpGet(keys[1..], values[1..], i - 1);
    }
  }

  /** `exclude_none`: with distinct keys, a field's key is written exactly when it has a value. */
  lemma DumpHas(keys: seq<string>, values: seq<Option<Json>>, i: nat)
    requires |keys| == |values| && i < |keys|
    requires Distinct(keys)
    ensures keys[i] in ObjectKeys(Dump(keys, values)) <==> values[i].Some?
  {
    DumpGet(keys, values, i);
    PresentIffFound(Dump(keys, values), keys[i]);
  }

  /** A key is among an object's keys exactly when looking it up finds something. */
  lemma PresentIffFound(j: Json, key: string)
    requires j.JObject?
    ensures key in ObjectKeys(j) <==> Get(j, key).Some?
  {
    LookupNone(j.members, key);
  }

  // ---------------------------------------------------------------------------
  // Plain dictionaries and constants

  /** A language map such as `{"en": "Demo Course"}`. */
  type Text = seq<(string, string)>

  function En(s: string): Text {
    [("en", s)]
  }

  function TextJson(t: Text): Json {
    JObject(StringMembers(t))
  }

  /** The English entry of a one-language map. */
  lemma EnglishEntry(s: string)
    ensures Get(TextJson(En(s)), "en") == Some(JString(s))
    ensures ObjectKeys(TextJson(En(s))) == ["en"]
  {
  }

  function S(s: string): Option<Json> {
    Some(JString(s))
  }

  /** An `in_scheme` dictionary: the scheme's id and the type `ConceptScheme`. */
  function ConceptScheme(id: string): Json {
    JObject([("id", JString(id)), ("type", JString("ConceptScheme"))])
  }

  const LANGUAGE_AUTHORITY := "http://publications.europa.eu/resource/authority/language"
  const COUNTRY_AUTHORITY := "http://publications.europa.eu/resource/authority/country"

  // ---------------------------------------------------------------------------
  // The three id serialisers

  /** `LanguageBase.get_id`. */
  function LanguageUri(code: string): (r: string)
    ensures r == LANGUAGE_AUTHORITY + "/" + code
  {
    "http://publications.europa.eu/resource/authority/language/" + code
  }

  /** `CountryCode.get_id`. */
  function CountryUri(code: string): (r: string)
    ensures r == COUNTRY_AUTHORITY + "/" + code
  {
    "http://publications.europa.eu/resource/authority/country/" + code
  }

  /** `Issuer.get_id`. */
  function IssuerUri(value: string): string {
    "urn:epass:org:" + value
  }

  /** The last path segment of a language id is the code, for codes without `/`. */
  lemma LanguageUriLastSegment(code: string)
    requires '/' !in code
    ensures LastPiece(LanguageUri(code), '/') == code
  {
    assert LanguageUri(code) == LANGUAGE_AUTHORITY + ['/'] + code;
    LastPieceAfterSep(LANGUAGE_AUTHORITY, code, '/');
  }

  /** The last path segment of a country id is the code, for codes without `/`. */
  lemma CountryUriLastSegment(code: string)
    requires '/' !in code
    ensures LastPiece(CountryUri(code), '/') == code
  {
    assert CountryUri(code) == COUNTRY_AUTHORITY + ['/'] + code;
    LastPieceAfterSep(COUNTRY_AUTHORITY, code, '/');
  }

  /** The issuer id keeps its value after a fixed prefix, so distinct values give distinct ids. */
  lemma IssuerUriInjective(a: string, b: string)
    requires IssuerUri(a) == IssuerUri(b)
    ensures a == b
  {
    assert a == IssuerUri(a)[14..];
    assert b == IssuerUri(b)[14..];
  }

  // ---------------------------------------------------------------------------
  // The nodes

  /** `Language` and `PrimaryLanguage` (both `LanguageBase`): a language code. */
  datatype LanguageConcept = LanguageConcept(code: string)

  /** `CountryCode`: a country code. */
  datatype CountryCode = CountryCode(code: string)

  datatype Address = Address(countryCode: CountryCode)
  datatype Location = Location(address: Address)
  datatype AwardingBody = AwardingBody(altLabel: Text, legalName: Text, location: Location)
  datatype Grade = Grade(noteLiteral: Text)
  /** `SpecifiedBy`; its required `mode` has only defaulted fields, so it carries no data here. */
  datatype SpecifiedBy = SpecifiedBy(title: Text, language: LanguageConcept)
  datatype AwardedBy = AwardedBy(awardingBody: AwardingBody, awardingDate: string)
  /** `ProvenBy`; its required `id_verification` has only defaulted fields, so it carries no data here. */
  datatype ProvenBy = ProvenBy(awardedBy: AwardedBy, title: Text, grade: Grade)

  /** `HasClaim`; `proven_by` and `specified_by` are required by the schema but may be unset here. */
  datatype HasClaim = HasClaim(
    title: Text, provenBy: Option<ProvenBy>, awardedBy: AwardedBy, specifiedBy: Option<SpecifiedBy>)

  datatype DisplayParameter = DisplayParameter(primaryLanguage: LanguageConcept, title: Text)
  datatype CredentialSubject = CredentialSubject(
    givenName: Text, familyName: Text, fullName: Text, hasClaim: HasClaim)

  /** `Issuer`; `id` is required by the schema but may be unset here. */
  datatype Issuer = Issuer(id: Option<string>, altLabel: Text, legalName: Text)
  datatype DeliveryDetails = DeliveryDetails(deliveryAddress: string)

  /** `ELMBody`: the fields a caller supplies; the defaulted ones are supplied at serialisation. */
  datatype ElmBody = ElmBody(
    validUntil: Option<string>, expirationDate: Option<string>,
    issuer: Issuer, credentialSubject: CredentialSubject, displayParameter: DisplayParameter)

  datatype ElmCredentialModel = ElmCredentialModel(credential: ElmBody, deliveryDetails: DeliveryDetails)

  /**
   * The `uuid4()` in `ELMBody`'s default id. The default is evaluated once,
   * when the class is defined, so one value serves the whole process; which
   * value it is, is not known.
   */
  const CREDENTIAL_UUID: string

  /**
   * The values `ELMBody`'s clock-derived fields take: the three
   * `get_current_datetime` strings, which the default factories produce for
   * each model.
   */
  datatype BodyDefaults = BodyDefaults(validFrom: string, issuanceDate: string, issued: string)


  // ---------------------------------------------------------------------------
  // The node serialisers. Each node writes its fields under the keys listed
  // in its `..._KEYS` constant; the `...Aliases` lemma beside it shows that
  // those keys are the aliases of the declared field names.

  function OptionJson<T>(o: Option<T>, f: T -> Json): Option<Json> {
    if o.Some? then Some(f(o.value)) else None
  }

  function OptionString(o: Option<string>): Option<Json> {
    if o.Some? then S(o.value) else None
  }

  /** The serialised issuer id. */
  function IssuerIdJson(value: string): Json {
    JString(IssuerUri(value))
  }

  /** `urn:credential:<uuid>`, the default id of every `ELMBody`. */
  function CredentialId(credentialUuid: string): string {
    "urn:credential:" + credentialUuid
  }

  /** The defaults when the three default factories read the clock at `validFrom`, `issuanceDate` and `issued`. */
  function BodyDefaultsAt(validFrom: Timestamp, issuanceDate: Timestamp, issued: Timestamp): BodyDefaults {
    BodyDefaults(ToIsoFormat(validFrom), ToIsoFormat(issuanceDate), ToIsoFormat(issued))
  }

  const CREDENTIAL_TYPES := JArray([JString("VerifiableCredential"), JString("EuropeanDigitalCredential")])
  const CREDENTIAL_CONTEXT := JArray([
    JString("https://www.w3.org/2018/credentials/v1"),
    JString("https://data.europa.eu/snb/model/context/edc-ap")])
  const CREDENTIAL_SCHEMA := JObject([
    ("id", JString("http://data.europa.eu/snb/model/ap/edc-generic-no-cv")),
    ("type", JString("ShaclValidator2017"))])

  const LANGUAGE_KEYS := ["id", "type", "inScheme", "notation"]

  /** `LanguageBase` and `CountryCode` both declare `id`, `type`, `in_scheme`, `notation`. */
  lemma LanguageAliases()
    ensures Alias("id") == "id" && Alias("type") == "type" && Alias("in_scheme") == "inScheme"
    ensures Alias("notation") == "notation"
  {
    AliasId(); AliasType(); AliasInScheme(); AliasNotation();
  }

  /** The field values of `Language`, in declaration order. */
  function LanguageValues(l: LanguageConcept): (v: seq<Option<Json>>)
    ensures |v| == |LANGUAGE_KEYS|
  {
    [S(LanguageUri(l.code)), S("Concept"), Some(ConceptScheme(LANGUAGE_AUTHORITY)), S("language")]
  }

  /** `Language` / `PrimaryLanguage`: the code written as a language authority URL. */
  function LanguageJson(l: LanguageConcept): Json {
    Dump(LANGUAGE_KEYS, LanguageValues(l))
  }

  /**
   * A language concept: its code as an authority URL, in the language scheme, with
   * notation `language`.
   */
  lemma LanguageShape(l: LanguageConcept)
    ensures ObjectKeys(LanguageJson(l)) == LANGUAGE_KEYS
    ensures Get(LanguageJson(l), "id") == S(LanguageUri(l.code))
    ensures Get(LanguageJson(l), "type") == S("Concept")
    ensures Get(LanguageJson(l), "inScheme") == Some(ConceptScheme(LANGUAGE_AUTHORITY))
    ensures Get(LanguageJson(l), "notation") == S("language")
  {
    var v := LanguageValues(l);
    DumpGet(LANGUAGE_KEYS, v, 0);
    DumpGet(LANGUAGE_KEYS, v, 1);
    DumpGet(LANGUAGE_KEYS, v, 2);
    DumpGet(LANGUAGE_KEYS, v, 3);
    DumpKeys(LANGUAGE_KEYS, v);
  }

  /** The field values of `CountryCode`, in declaration order. */
  function CountryCodeValues(c: CountryCode): (v: seq<Option<Json>>)
    ensures |v| == |LANGUAGE_KEYS|
  {
    [S(CountryUri(c.code)), S("Concept"), Some(ConceptScheme(COUNTRY_AUTHORITY)), S("country")]
  }

  /** `CountryCode`: the code written as a country authority URL. */
  function CountryCodeJson(c: CountryCode): Json {
    Dump(LANGUAGE_KEYS, CountryCodeValues(c))
  }

  /**
   * A country concept: its code as an authority URL, in the country scheme, with
   * notation `country`.
   */
  lemma CountryCodeShape(c: CountryCode)
    ensures ObjectKeys(CountryCodeJson(c)) == LANGUAGE_KEYS
    ensures Get(CountryCodeJson(c), "id") == S(CountryUri(c.code))
    ensures Get(CountryCodeJson(c), "type") == S("Concept")
    ensures Get(CountryCodeJson(c), "inScheme") == Some(ConceptScheme(COUNTRY_AUTHORITY))
    ensures Get(CountryCodeJson(c), "notation") == S("country")
  {
    var v := CountryCodeValues(c);
    DumpGet(LANGUAGE_KEYS, v, 0);
    DumpGet(LANGUAGE_KEYS, v, 1);
    DumpGet(LANGUAGE_KEYS, v, 2);
    DumpGet(LANGUAGE_KEYS, v, 3);
    DumpKeys(LANGUAGE_KEYS, v);
  }

  const ADDRESS_KEYS := ["id", "type", "countryCode"]

  lemma AddressAliases()
    ensures Alias("id") == "id" && Alias("type") == "type" && Alias("country_code") == "countryCode"
  {
    AliasId(); AliasType(); AliasCountryCode();
  }

  /** The field values of `Address`, in declaration order, its nested models already dumped. */
  function AddressValues(countryCode: Json): (v: seq<Option<Json>>)
    ensures |v| == |ADDRESS_KEYS|
  {
    [S("urn:epass:address:1"), S("Address"), Some(countryCode)]
  }

  /** `Address` dumped, given the dumps of its nested models. */
  function AddressObject(countryCode: Json): Json {
    Dump(ADDRESS_KEYS, AddressValues(countryCode))
  }

  function AddressJson(a: Address): Json {
    AddressObject(CountryCodeJson(a.countryCode))
  }

  /** The address node: fixed id and type, and the country concept. */
  lemma AddressShape(countryCode: Json)
    ensures ObjectKeys(AddressObject(countryCode)) == ADDRESS_KEYS
    ensures Get(AddressObject(countryCode), "id") == S("urn:epass:address:1")
    ensures Get(AddressObject(countryCode), "type") == S("Address")
    ensures Get(AddressObject(countryCode), "countryCode") == Some(countryCode)
  {
    var v := AddressValues(countryCode);
    DumpGet(ADDRESS_KEYS, v, 0);
    DumpGet(ADDRESS_KEYS, v, 1);
    DumpGet(ADDRESS_KEYS, v, 2);
    DumpKeys(ADDRESS_KEYS, v);
  }

  const LOCATION_KEYS := ["id", "type", "address"]

  lemma LocationAliases()
    ensures Alias("id") == "id" && Alias("type") == "type" && Alias("address") == "address"
  {
    AliasId(); AliasType(); AliasAddress();
  }

  /** The field values of `Location`, in declaration order, its nested models already dumped. */
  function LocationValues(address: Json): (v: seq<Option<Json>>)
    ensures |v| == |LOCATION_KEYS|
  {
    [S("urn:epass:location:1"), S("Location"), Some(address)]
  }

  /** `Location` dumped, given the dumps of its nested models. */
  function LocationObject(address: Json): Json {
    Dump(LOCATION_KEYS, LocationValues(address))
  }

  function LocationJson(l: Location): Json {
    LocationObject(AddressJson(l.address))
  }

  /** The location node: fixed id and type, and the address. */
  lemma LocationShape(address: Json)
    ensures ObjectKeys(LocationObject(address)) == LOCATION_KEYS
    ensures Get(LocationObject(address), "id") == S("urn:epass:location:1")
    ensures Get(LocationObject(address), "type") == S("Location")
    ensures Get(LocationObject(address), "address") == Some(address)
  {
    var v := LocationValues(address);
    DumpGet(LOCATION_KEYS, v, 0);
    DumpGet(LOCATION_KEYS, v, 1);
    DumpGet(LOCATION_KEYS, v, 2);
    DumpKeys(LOCATION_KEYS, v);
  }

  const CONCEPT_KEYS := ["id", "type", "inScheme", "prefLabel"]

  /** `Mode` and `IdVerification` both declare `id`, `type`, `in_scheme`, `pref_label`. */
  lemma ConceptAliases()
    ensures Alias("id") == "id" && Alias("type") == "type" && Alias("in_scheme") == "inScheme"
    ensures Alias("pref_label") == "prefLabel"
  {
    AliasId(); AliasType(); AliasInScheme(); AliasPrefLabel();
  }

  /** The field values of `Mode`, in declaration order. */
  function ModeValues(): (v: seq<Option<Json>>)
    ensures |v| == |CONCEPT_KEYS|
  {
    [S("http://data.europa.eu/snb/learning-assessment/920fbb3cbe"), S("Concept"),
     Some(ConceptScheme("http://data.europa.eu/snb/learning-assessment/25831c2")),
     Some(TextJson(En("Online")))]
  }

  /** `Mode` with its defaults. */
  function ModeJson(): Json {
    Dump(CONCEPT_KEYS, ModeValues())
  }

  /** `Mode` with its defaults: online learning assessment. */
  lemma ModeShape()
    ensures ObjectKeys(ModeJson()) == CONCEPT_KEYS
    ensures Get(ModeJson(), "id") == S("http://data.europa.eu/snb/learning-assessment/920fbb3cbe")
    ensures Get(ModeJson(), "type") == S("Concept")
    ensures Get(ModeJson(), "inScheme") == Some(ConceptScheme("http://data.europa.eu/snb/learning-assessment/25831c2"))
    ensures Get(ModeJson(), "prefLabel") == Some(TextJson(En("Online")))
  {
    var v := ModeValues();
    DumpGet(CONCEPT_KEYS, v, 0);
    DumpGet(CONCEPT_KEYS, v, 1);
    DumpGet(CONCEPT_KEYS, v, 2);
    DumpGet(CONCEPT_KEYS, v, 3);
    DumpKeys(CONCEPT_KEYS, v);
  }

  /** The field values of `IdVerification`, in declaration order. */
  function IdVerificationValues(): (v: seq<Option<Json>>)
    ensures |v| == |CONCEPT_KEYS|
  {
    [S("http://data.europa.eu/snb/supervision-verification/df2880c5cb"), S("Concept"),
     Some(ConceptScheme("http://data.europa.eu/snb/supervision-verification/25831c2")),
     Some(TextJson(En("Unsupervised with ID verification")))]
  }

  /** `IdVerification` with its defaults. */
  function IdVerificationJson(): Json {
    Dump(CONCEPT_KEYS, IdVerificationValues())
  }

  /** `IdVerification` with its defaults: unsupervised with ID verification. */
  lemma IdVerificationShape()
    ensures ObjectKeys(IdVerificationJson()) == CONCEPT_KEYS
    ensures Get(IdVerificationJson(), "id") == S("http://data.europa.eu/snb/supervision-verification/df2880c5cb")
    ensures Get(IdVerificationJson(), "type") == S("Concept")
    ensures Get(IdVerificationJson(), "inScheme") == Some(ConceptScheme("http://data.europa.eu/snb/supervision-verification/25831c2"))
    ensures Get(IdVerificationJson(), "prefLabel") == Some(TextJson(En("Unsupervised with ID verification")))
  {
    var v := IdVerificationValues();
    DumpGet(CONCEPT_KEYS, v, 0);
    DumpGet(CONCEPT_KEYS, v, 1);
    DumpGet(CONCEPT_KEYS, v, 2);
    DumpGet(CONCEPT_KEYS, v, 3);
    DumpKeys(CONCEPT_KEYS, v);
  }

  const AWARDING_BODY_KEYS := ["id", "type", "altLabel", "legalName", "location"]

  lemma AwardingBodyAliases()
    ensures Alias("id") == "id" && Alias("type") == "type" && Alias("alt_label") == "altLabel"
    ensures Alias("legal_name") == "legalName" && Alias("location") == "location"
  {
    AliasId(); AliasType(); AliasAltLabel(); AliasLegalName(); AliasLocation();
  }

  /** The field values of `AwardingBody`, in declaration order, its nested models already dumped. */
  function AwardingBodyValues(b: AwardingBody, location: Json): (v: seq<Option<Json>>)
    ensures |v| == |AWARDING_BODY_KEYS|
  {
    [S("urn:epass:org:1"), S("Organisation"), Some(TextJson(b.altLabel)), Some(TextJson(b.legalName)),
     Some(location)]
  }

  /** `AwardingBody` dumped, given the dumps of its nested models. */
  function AwardingBodyObject(b: AwardingBody, location: Json): Json {
    Dump(AWARDING_BODY_KEYS, AwardingBodyValues(b, location))
  }

  function AwardingBodyJson(b: AwardingBody): Json {
    AwardingBodyObject(b, LocationJson(b.location))
  }

  /** The awarding organisation: fixed id and type, its two names and its location. */
  lemma AwardingBodyShape(b: AwardingBody, location: Json)
    ensures ObjectKeys(AwardingBodyObject(b, location)) == AWARDING_BODY_KEYS
    ensures Get(AwardingBodyObject(b, location), "id") == S("urn:epass:org:1")
    ensures Get(AwardingBodyObject(b, location), "type") == S("Organisation")
    ensures Get(AwardingBodyObject(b, location), "altLabel") == Some(TextJson(b.altLabel))
    ensures Get(AwardingBodyObject(b, location), "legalName") == Some(TextJson(b.legalName))
    ensures Get(AwardingBodyObject(b, location), "location") == Some(location)
  {
    var v := AwardingBodyValues(b, location);
    DumpGet(AWARDING_BODY_KEYS, v, 0);
    DumpGet(AWARDING_BODY_KEYS, v, 1);
    DumpGet(AWARDING_BODY_KEYS, v, 2);
    DumpGet(AWARDING_BODY_KEYS, v, 3);
    DumpGet(AWARDING_BODY_KEYS, v, 4);
    DumpKeys(AWARDING_BODY_KEYS, v);
  }

  const GRADE_KEYS := ["id", "type", "noteLiteral"]

  lemma GradeAliases()
    ensures Alias("id") == "id" && Alias("type") == "type" && Alias("note_literal") == "noteLiteral"
  {
    AliasId(); AliasType(); AliasNoteLiteral();
  }

  /** The field values of `Grade`, in declaration order. */
  function GradeValues(g: Grade): (v: seq<Option<Json>>)
    ensures |v| == |GRADE_KEYS|
  {
    [S("urn:epass:note:1"), S("Note"), Some(TextJson(g.noteLiteral))]
  }

  function GradeJson(g: Grade): Json {
    Dump(GRADE_KEYS, GradeValues(g))
  }

  /** The grade note: fixed id and type, and the note text. */
  lemma GradeShape(g: Grade)
    ensures ObjectKeys(GradeJson(g)) == GRADE_KEYS
    ensures Get(GradeJson(g), "id") == S("urn:epass:note:1")
    ensures Get(GradeJson(g), "type") == S("Note")
    ensures Get(GradeJson(g), "noteLiteral") == Some(TextJson(g.noteLiteral))
  {
    var v := GradeValues(g);
    DumpGet(GRADE_KEYS, v, 0);
    DumpGet(GRADE_KEYS, v, 1);
    DumpGet(GRADE_KEYS, v, 2);
    DumpKeys(GRADE_KEYS, v);
  }

  const SPECIFIED_BY_KEYS := ["id", "type", "title", "language", "mode"]

  lemma SpecifiedByAliases()
    ensures Alias("id") == "id" && Alias("type") == "type" && Alias("title") == "title"
    ensures Alias("language") == "language" && Alias("mode") == "mode"
  {
    AliasId(); AliasType(); AliasTitle(); AliasLanguage(); AliasMode();
  }

  /** The field values of `SpecifiedBy`, in declaration order, its nested models already dumped. */
  function SpecifiedByValues(s: SpecifiedBy, language: Json, mode: Json): (v: seq<Option<Json>>)
    ensures |v| == |SPECIFIED_BY_KEYS|
  {
    [S("urn:epass:learningAchievementSpec:1"), S("LearningAchievementSpecification"),
     Some(TextJson(s.title)), Some(language), Some(mode)]
  }

  /** `SpecifiedBy` dumped, given the dumps of its nested models. */
  function SpecifiedByObject(s: SpecifiedBy, language: Json, mode: Json): Json {
    Dump(SPECIFIED_BY_KEYS, SpecifiedByValues(s, language, mode))
  }

  function SpecifiedByJson(s: SpecifiedBy): Json {
    SpecifiedByObject(s, LanguageJson(s.language), ModeJson())
  }

  /**
   * The achievement specification: fixed id and type, title, language and mode.
   * `mode` is a required field; a `Mode` has only defaulted fields, so its
   * dump is always `ModeJson()`.
   */
  lemma SpecifiedByShape(s: SpecifiedBy, language: Json, mode: Json)
    ensures ObjectKeys(SpecifiedByObject(s, language, mode)) == SPECIFIED_BY_KEYS
    ensures Get(SpecifiedByObject(s, language, mode), "id") == S("urn:epass:learningAchievementSpec:1")
    ensures Get(SpecifiedByObject(s, language, mode), "type") == S("LearningAchievementSpecification")
    ensures Get(SpecifiedByObject(s, language, mode), "title") == Some(TextJson(s.title))
    ensures Get(SpecifiedByObject(s, language, mode), "language") == Some(language)
    ensures Get(SpecifiedByObject(s, language, mode), "mode") == Some(mode)
  {
    var v := SpecifiedByValues(s, language, mode);
    DumpGet(SPECIFIED_BY_KEYS, v, 0);
    DumpGet(SPECIFIED_BY_KEYS, v, 1);
    DumpGet(SPECIFIED_BY_KEYS, v, 2);
    DumpGet(SPECIFIED_BY_KEYS, v, 3);
    DumpGet(SPECIFIED_BY_KEYS, v, 4);
    DumpKeys(SPECIFIED_BY_KEYS, v);
  }

  const AWARDED_BY_KEYS := ["id", "type", "awardingBody", "awardingDate"]

  lemma AwardedByAliases()
    ensures Alias("id") == "id" && Alias("type") == "type" && Alias("awarding_body") == "awardingBody"
    ensures Alias("awarding_date") == "awardingDate"
  {
    AliasId(); AliasType(); AliasAwardingBody(); AliasAwardingDate();
  }

  /** The field values of `AwardedBy`, in declaration order, its nested models already dumped. */
  function AwardedByValues(a: AwardedBy, awardingBody: Json): (v: seq<Option<Json>>)
    ensures |v| == |AWARDED_BY_KEYS|
  {
    [S("urn:epass:awardingProcess:1"), S("AwardingProcess"), Some(awardingBody), S(a.awardingDate)]
  }

  /** `AwardedBy` dumped, given the dumps of its nested models. */
  function AwardedByObject(a: AwardedBy, awardingBody: Json): Json {
    Dump(AWARDED_BY_KEYS, AwardedByValues(a, awardingBody))
  }

  function AwardedByJson(a: AwardedBy): Json {
    AwardedByObject(a, AwardingBodyJson(a.awardingBody))
  }

  /** The awarding process: fixed id and type, the awarding body and the awarding date. */
  lemma AwardedByShape(a: AwardedBy, awardingBody: Json)
    ensures ObjectKeys(AwardedByObject(a, awardingBody)) == AWARDED_BY_KEYS
    ensures Get(AwardedByObject(a, awardingBody), "id") == S("urn:epass:awardingProcess:1")
    ensures Get(AwardedByObject(a, awardingBody), "type") == S("AwardingProcess")
    ensures Get(AwardedByObject(a, awardingBody), "awardingBody") == Some(awardingBody)
    ensures Get(AwardedByObject(a, awardingBody), "awardingDate") == S(a.awardingDate)
  {
    var v := AwardedByValues(a, awardingBody);
    DumpGet(AWARDED_BY_KEYS, v, 0);
    DumpGet(AWARDED_BY_KEYS, v, 1);
    DumpGet(AWARDED_BY_KEYS, v, 2);
    DumpGet(AWARDED_BY_KEYS, v, 3);
    DumpKeys(AWARDED_BY_KEYS, v);
  }

  const PROVEN_BY_KEYS := ["id", "type", "awardedBy", "title", "grade", "idVerification"]

  lemma ProvenByAliases()
    ensures Alias("id") == "id" && Alias("type") == "type" && Alias("awarded_by") == "awardedBy"
    ensures Alias("title") == "title" && Alias("grade") == "grade" && Alias("id_verification") == "idVerification"
  {
    AliasId(); AliasType(); AliasAwardedBy(); AliasTitle(); AliasGrade(); AliasIdVerification();
  }

  /** The field values of `ProvenBy`, in declaration order, its nested models already dumped. */
  function ProvenByValues(p: ProvenBy, awardedBy: Json, grade: Json, idVerification: Json): (v: seq<Option<Json>>)
    ensures |v| == |PROVEN_BY_KEYS|
  {
    [S("urn:epass:learningAssessment:1"), S("LearningAssessment"), Some(awardedBy), Some(TextJson(p.title)),
     Some(grade), Some(idVerification)]
  }

  /** `ProvenBy` dumped, given the dumps of its nested models. */
  function ProvenByObject(p: ProvenBy, awardedBy: Json, grade: Json, idVerification: Json): Json {
    Dump(PROVEN_BY_KEYS, ProvenByValues(p, awardedBy, grade, idVerification))
  }

  function ProvenByJson(p: ProvenBy): Json {
    ProvenByObject(p, AwardedByJson(p.awardedBy), GradeJson(p.grade), IdVerificationJson())
  }

  /**
   * The assessment: fixed id and type, awarding process, title, grade and id
   * verification. `id_verification` is a required field; an `IdVerification`
   * has only defaulted fields, so its dump is always `IdVerificationJson()`.
   */
  lemma ProvenByShape(p: ProvenBy, awardedBy: Json, grade: Json, idVerification: Json)
    ensures ObjectKeys(ProvenByObject(p, awardedBy, grade, idVerification)) == PROVEN_BY_KEYS
    ensures Get(ProvenByObject(p, awardedBy, grade, idVerification), "id") == S("urn:epass:learningAssessment:1")
    ensures Get(ProvenByObject(p, awardedBy, grade, idVerification), "type") == S("LearningAssessment")
    ensures Get(ProvenByObject(p, awardedBy, grade, idVerification), "awardedBy") == Some(awardedBy)
    ensures Get(ProvenByObject(p, awardedBy, grade, idVerification), "title") == Some(TextJson(p.title))
    ensures Get(ProvenByObject(p, awardedBy, grade, idVerification), "grade") == Some(grade)
    ensures Get(ProvenByObject(p, awardedBy, grade, idVerification), "idVerification") == Some(idVerification)
  {
    var v := ProvenByValues(p, awardedBy, grade, idVerification);
    DumpGet(PROVEN_BY_KEYS, v, 0);
    DumpGet(PROVEN_BY_KEYS, v, 1);
    DumpGet(PROVEN_BY_KEYS, v, 2);
    DumpGet(PROVEN_BY_KEYS, v, 3);
    DumpGet(PROVEN_BY_KEYS, v, 4);
    DumpGet(PROVEN_BY_KEYS, v, 5);
    DumpKeys(PROVEN_BY_KEYS, v);
  }

  const HAS_CLAIM_KEYS := ["id", "type", "title", "provenBy", "awardedBy", "specifiedBy"]

  lemma HasClaimAliases()
    ensures Alias("id") == "id" && Alias("type") == "type" && Alias("title") == "title"
    ensures Alias("proven_by") == "provenBy" && Alias("awarded_by") == "awardedBy" && Alias("specified_by") == "specifiedBy"
  {
    AliasId(); AliasType(); AliasTitle(); AliasProvenBy(); AliasAwardedBy(); AliasSpecifiedBy();
  }

  /** The field values of `HasClaim`, in declaration order, its nested models already dumped. */
  function HasClaimValues(c: HasClaim, provenBy: Option<Json>, awardedBy: Json, specifiedBy: Option<Json>): (v: seq<Option<Json>>)
    ensures |v| == |HAS_CLAIM_KEYS|
  {
    [S("urn:epass:learningAchievement:1"), S("LearningAchievement"), Some(TextJson(c.title)), provenBy,
     Some(awardedBy), specifiedBy]
  }

  /** `HasClaim` dumped, given the dumps of its nested models. */
  function HasClaimObject(c: HasClaim, provenBy: Option<Json>, awardedBy: Json, specifiedBy: Option<Json>): Json {
    Dump(HAS_CLAIM_KEYS, HasClaimValues(c, provenBy, awardedBy, specifiedBy))
  }

  function HasClaimJson(c: HasClaim): Json {
    HasClaimObject(c, OptionJson(c.provenBy, ProvenByJson), AwardedByJson(c.awardedBy), OptionJson(c.specifiedBy, SpecifiedByJson))
  }

  /**
   * The claim: fixed id and type, title and awarding process; `provenBy` and
   * `specifiedBy` only when set.
   */
  lemma HasClaimShape(c: HasClaim, provenBy: Option<Json>, awardedBy: Json, specifiedBy: Option<Json>)
    ensures Get(HasClaimObject(c, provenBy, awardedBy, specifiedBy), "id") == S("urn:epass:learningAchievement:1")
    ensures Get(HasClaimObject(c, provenBy, awardedBy, specifiedBy), "type") == S("LearningAchievement")
    ensures Get(HasClaimObject(c, provenBy, awardedBy, specifiedBy), "title") == Some(TextJson(c.title))
    ensures Get(HasClaimObject(c, provenBy, awardedBy, specifiedBy), "provenBy") == provenBy
    ensures Get(HasClaimObject(c, provenBy, awardedBy, specifiedBy), "awardedBy") == Some(awardedBy)
    ensures Get(HasClaimObject(c, provenBy, awardedBy, specifiedBy), "specifiedBy") == specifiedBy
    ensures "provenBy" in ObjectKeys(HasClaimObject(c, provenBy, awardedBy, specifiedBy)) <==> provenBy.Some?
    ensures "specifiedBy" in ObjectKeys(HasClaimObject(c, provenBy, awardedBy, specifiedBy)) <==> specifiedBy.Some?
    ensures provenBy.Some? && specifiedBy.Some? ==> ObjectKeys(HasClaimObject(c, provenBy, awardedBy, specifiedBy)) == HAS_CLAIM_KEYS
  {
    var v := HasClaimValues(c, provenBy, awardedBy, specifiedBy);
    DumpGet(HAS_CLAIM_KEYS, v, 0);
    DumpGet(HAS_CLAIM_KEYS, v, 1);
    DumpGet(HAS_CLAIM_KEYS, v, 2);
    DumpGet(HAS_CLAIM_KEYS, v, 3);
    DumpGet(HAS_CLAIM_KEYS, v, 4);
    DumpGet(HAS_CLAIM_KEYS, v, 5);
    DumpHas(HAS_CLAIM_KEYS, v, 3);
    DumpHas(HAS_CLAIM_KEYS, v, 5);
    if provenBy.Some? && specifiedBy.Some? {
      DumpKeys(HAS_CLAIM_KEYS, v);
    }
  }

  const DISPLAY_PARAMETER_KEYS := ["id", "type", "primaryLanguage", "title"]

  lemma DisplayParameterAliases()
    ensures Alias("id") == "id" && Alias("type") == "type" && Alias("primary_language") == "primaryLanguage"
    ensures Alias("title") == "title"
  {
    AliasId(); AliasType(); AliasPrimaryLanguage(); AliasTitle();
  }

  /** The field values of `DisplayParameter`, in declaration order, its nested models already dumped. */
  function DisplayParameterValues(d: DisplayParameter, primaryLanguage: Json): (v: seq<Option<Json>>)
    ensures |v| == |DISPLAY_PARAMETER_KEYS|
  {
    [S("urn:epass:displayParameter:1"), S("DisplayParameter"), Some(primaryLanguage), Some(TextJson(d.title))]
  }

  /** `DisplayParameter` dumped, given the dumps of its nested models. */
  function DisplayParameterObject(d: DisplayParameter, primaryLanguage: Json): Json {
    Dump(DISPLAY_PARAMETER_KEYS, DisplayParameterValues(d, primaryLanguage))
  }

  function DisplayParameterJson(d: DisplayParameter): Json {
    DisplayParameterObject(d, LanguageJson(d.primaryLanguage))
  }

  /** The display parameters: fixed id and type, the primary language and the title. */
  lemma DisplayParameterShape(d: DisplayParameter, primaryLanguage: Json)
    ensures ObjectKeys(DisplayParameterObject(d, primaryLanguage)) == DISPLAY_PARAMETER_KEYS
    ensures Get(DisplayParameterObject(d, primaryLanguage), "id") == S("urn:epass:displayParameter:1")
    ensures Get(DisplayParameterObject(d, primaryLanguage), "type") == S("DisplayParameter")
    ensures Get(DisplayParameterObject(d, primaryLanguage), "primaryLanguage") == Some(primaryLanguage)
    ensures Get(DisplayParameterObject(d, primaryLanguage), "title") == Some(TextJson(d.title))
  {
    var v := DisplayParameterValues(d, primaryLanguage);
    DumpGet(DISPLAY_PARAMETER_KEYS, v, 0);
    DumpGet(DISPLAY_PARAMETER_KEYS, v, 1);
    DumpGet(DISPLAY_PARAMETER_KEYS, v, 2);
    DumpGet(DISPLAY_PARAMETER_KEYS, v, 3);
    DumpKeys(DISPLAY_PARAMETER_KEYS, v);
  }

  const CREDENTIAL_SUBJECT_KEYS := ["id", "type", "givenName", "familyName", "fullName", "hasClaim"]

  lemma CredentialSubjectAliases()
    ensures Alias("id") == "id" && Alias("type") == "type" && Alias("given_name") == "givenName"
    ensures Alias("family_name") == "familyName" && Alias("full_name") == "fullName"
    ensures Alias("has_claim") == "hasClaim"
  {
    AliasId(); AliasType(); AliasGivenName(); AliasFamilyName(); AliasFullName(); AliasHasClaim();
  }

  /** The field values of `CredentialSubject`, in declaration order, its nested models already dumped. */
  function CredentialSubjectValues(c: CredentialSubject, hasClaim: Json): (v: seq<Option<Json>>)
    ensures |v| == |CREDENTIAL_SUBJECT_KEYS|
  {
    [S("urn:epass:person:1"), S("Person"), Some(TextJson(c.givenName)), Some(TextJson(c.familyName)),
     Some(TextJson(c.fullName)), Some(hasClaim)]
  }

  /** `CredentialSubject` dumped, given the dumps of its nested models. */
  function CredentialSubjectObject(c: CredentialSubject, hasClaim: Json): Json {
    Dump(CREDENTIAL_SUBJECT_KEYS, CredentialSubjectValues(c, hasClaim))
  }

  function CredentialSubjectJson(c: CredentialSubject): Json {
    CredentialSubjectObject(c, HasClaimJson(c.hasClaim))
  }

  /** The learner: fixed id and type, the three names and the claim. */
  lemma CredentialSubjectShape(c: CredentialSubject, hasClaim: Json)
    ensures ObjectKeys(CredentialSubjectObject(c, hasClaim)) == CREDENTIAL_SUBJECT_KEYS
    ensures Get(CredentialSubjectObject(c, hasClaim), "id") == S("urn:epass:person:1")
    ensures Get(CredentialSubjectObject(c, hasClaim), "type") == S("Person")
    ensures Get(CredentialSubjectObject(c, hasClaim), "givenName") == Some(TextJson(c.givenName))
    ensures Get(CredentialSubjectObject(c, hasClaim), "familyName") == Some(TextJson(c.familyName))
    ensures Get(CredentialSubjectObject(c, hasClaim), "fullName") == Some(TextJson(c.fullName))
    ensures Get(CredentialSubjectObject(c, hasClaim), "hasClaim") == Some(hasClaim)
  {
    var v := CredentialSubjectValues(c, hasClaim);
    DumpGet(CREDENTIAL_SUBJECT_KEYS, v, 0);
    DumpGet(CREDENTIAL_SUBJECT_KEYS, v, 1);
    DumpGet(CREDENTIAL_SUBJECT_KEYS, v, 2);
    DumpGet(CREDENTIAL_SUBJECT_KEYS, v, 3);
    DumpGet(CREDENTIAL_SUBJECT_KEYS, v, 4);
    DumpGet(CREDENTIAL_SUBJECT_KEYS, v, 5);
    DumpKeys(CREDENTIAL_SUBJECT_KEYS, v);
  }

  const ISSUER_KEYS := ["id", "type", "altLabel", "legalName"]

  lemma IssuerAliases()
    ensures Alias("id") == "id" && Alias("type") == "type" && Alias("alt_label") == "altLabel"
    ensures Alias("legal_name") == "legalName"
  {
    AliasId(); AliasType(); AliasAltLabel(); AliasLegalName();
  }

  /** The field values of `Issuer`, in declaration order. */
  function IssuerValues(i: Issuer): (v: seq<Option<Json>>)
    ensures |v| == |ISSUER_KEYS|
  {
    [OptionJson(i.id, IssuerIdJson), S("Organisation"), Some(TextJson(i.altLabel)),
     Some(TextJson(i.legalName))]
  }

  function IssuerJson(i: Issuer): Json {
    Dump(ISSUER_KEYS, IssuerValues(i))
  }

  /**
   * The issuer: its id written as `urn:epass:org:<value>` only when set, the fixed
   * type and its two names.
   */
  lemma IssuerShape(i: Issuer)
    ensures Get(IssuerJson(i), "id") == OptionJson(i.id, IssuerIdJson)
    ensures Get(IssuerJson(i), "type") == S("Organisation")
    ensures Get(IssuerJson(i), "altLabel") == Some(TextJson(i.altLabel))
    ensures Get(IssuerJson(i), "legalName") == Some(TextJson(i.legalName))
    ensures "id" in ObjectKeys(IssuerJson(i)) <==> i.id.Some?
    ensures i.id.Some? ==> ObjectKeys(IssuerJson(i)) == ISSUER_KEYS
  {
    var v := IssuerValues(i);
    DumpGet(ISSUER_KEYS, v, 0);
    DumpGet(ISSUER_KEYS, v, 1);
    DumpGet(ISSUER_KEYS, v, 2);
    DumpGet(ISSUER_KEYS, v, 3);
    DumpHas(ISSUER_KEYS, v, 0);
    if i.id.Some? {
      DumpKeys(ISSUER_KEYS, v);
    }
  }

  const DELIVERY_DETAILS_KEYS := ["deliveryAddress"]

  lemma DeliveryDetailsAliases()
    ensures Alias("delivery_address") == "deliveryAddress"
  {
    AliasDeliveryAddress();
  }

  /** The field values of `DeliveryDetails`, in declaration order. */
  function DeliveryDetailsValues(d: DeliveryDetails): (v: seq<Option<Json>>)
    ensures |v| == |DELIVERY_DETAILS_KEYS|
  {
    [S(d.deliveryAddress)]
  }

  function DeliveryDetailsJson(d: DeliveryDetails): Json {
    Dump(DELIVERY_DETAILS_KEYS, DeliveryDetailsValues(d))
  }

  /** The delivery details: the delivery address. */
  lemma DeliveryDetailsShape(d: DeliveryDetails)
    ensures ObjectKeys(DeliveryDetailsJson(d)) == DELIVERY_DETAILS_KEYS
    ensures Get(DeliveryDetailsJson(d), "deliveryAddress") == S(d.deliveryAddress)
  {
    var v := DeliveryDetailsValues(d);
    DumpGet(DELIVERY_DETAILS_KEYS, v, 0);
    DumpKeys(DELIVERY_DETAILS_KEYS, v);
  }

  const ELM_BODY_KEYS := [
    "id", "type", "@context", "credentialSchema", "validUntil", "expirationDate",
    "validFrom", "issuanceDate", "issued", "issuer", "credentialSubject", "displayParameter"]

  /** `context` is written under its serialisation alias `@context`; every other field under its camelCase alias. */
  lemma ElmBodyAliases()
    ensures Alias("id") == "id" && Alias("type") == "type" && Alias("context") == "@context"
    ensures Alias("credential_schema") == "credentialSchema" && Alias("valid_until") == "validUntil"
    ensures Alias("expiration_date") == "expirationDate" && Alias("valid_from") == "validFrom"
    ensures Alias("issuance_date") == "issuanceDate" && Alias("issued") == "issued"
    ensures Alias("issuer") == "issuer" && Alias("credential_subject") == "credentialSubject"
    ensures Alias("display_parameter") == "displayParameter"
  {
    AliasId(); AliasType(); AliasContext(); AliasCredentialSchema(); AliasValidUntil(); AliasExpirationDate(); AliasValidFrom(); AliasIssuanceDate(); AliasIssued(); AliasIssuer(); AliasCredentialSubject(); AliasDisplayParameter();
  }

  /** The field values of `ElmBody`, in declaration order, its nested models already dumped. */
  function ElmBodyValues(b: ElmBody, defaults: BodyDefaults, issuer: Json, credentialSubject: Json, displayParameter: Json): (v: seq<Option<Json>>)
    ensures |v| == |ELM_BODY_KEYS|
  {
    [S(CredentialId(CREDENTIAL_UUID)), Some(CREDENTIAL_TYPES), Some(CREDENTIAL_CONTEXT),
     Some(CREDENTIAL_SCHEMA), OptionString(b.validUntil), OptionString(b.expirationDate),
     S(defaults.validFrom), S(defaults.issuanceDate),
     S(defaults.issued), Some(issuer), Some(credentialSubject), Some(displayParameter)]
  }

  /** `ElmBody` dumped, given the dumps of its nested models. */
  function ElmBodyObject(b: ElmBody, defaults: BodyDefaults, issuer: Json, credentialSubject: Json, displayParameter: Json): Json {
    Dump(ELM_BODY_KEYS, ElmBodyValues(b, defaults, issuer, credentialSubject, displayParameter))
  }

  /** The credential body. */
  function ElmBodyJson(b: ElmBody, defaults: BodyDefaults): Json {
    ElmBodyObject(b, defaults, IssuerJson(b.issuer), CredentialSubjectJson(b.credentialSubject), DisplayParameterJson(b.displayParameter))
  }

  /** The credential body's fixed fields: the shared default id, the types, `@context` and schema. */
  lemma ElmBodyShape(b: ElmBody, defaults: BodyDefaults, issuer: Json, credentialSubject: Json, displayParameter: Json)
    ensures Get(ElmBodyObject(b, defaults, issuer, credentialSubject, displayParameter), "id") == S(CredentialId(CREDENTIAL_UUID))
    ensures Get(ElmBodyObject(b, defaults, issuer, credentialSubject, displayParameter), "type") == Some(CREDENTIAL_TYPES)
    ensures Get(ElmBodyObject(b, defaults, issuer, credentialSubject, displayParameter), "@context") == Some(CREDENTIAL_CONTEXT)
    ensures Get(ElmBodyObject(b, defaults, issuer, credentialSubject, displayParameter), "credentialSchema") == Some(CREDENTIAL_SCHEMA)
  {
    var v := ElmBodyValues(b, defaults, issuer, credentialSubject, displayParameter);
    DumpGet(ELM_BODY_KEYS, v, 0);
    DumpGet(ELM_BODY_KEYS, v, 1);
    DumpGet(ELM_BODY_KEYS, v, 2);
    DumpGet(ELM_BODY_KEYS, v, 3);
  }

  /** The two validity fields are written only when they are set. */
  lemma ElmBodyValidity(b: ElmBody, defaults: BodyDefaults, issuer: Json, credentialSubject: Json, displayParameter: Json)
    ensures Get(ElmBodyObject(b, defaults, issuer, credentialSubject, displayParameter), "validUntil") == OptionString(b.validUntil)
    ensures Get(ElmBodyObject(b, defaults, issuer, credentialSubject, displayParameter), "expirationDate") == OptionString(b.expirationDate)
    ensures "validUntil" in ObjectKeys(ElmBodyObject(b, defaults, issuer, credentialSubject, displayParameter)) <==> b.validUntil.Some?
    ensures "expirationDate" in ObjectKeys(ElmBodyObject(b, defaults, issuer, credentialSubject, displayParameter)) <==> b.expirationDate.Some?
  {
    var v := ElmBodyValues(b, defaults, issuer, credentialSubject, displayParameter);
    DumpGet(ELM_BODY_KEYS, v, 4);
    DumpGet(ELM_BODY_KEYS, v, 5);
    DumpHas(ELM_BODY_KEYS, v, 4);
    DumpHas(ELM_BODY_KEYS, v, 5);
  }

  /** With both validity fields set, the body writes every one of its keys, in declaration order. */
  lemma ElmBodyKeys(b: ElmBody, defaults: BodyDefaults, issuer: Json, credentialSubject: Json, displayParameter: Json)
    requires b.validUntil.Some? && b.expirationDate.Some?
    ensures ObjectKeys(ElmBodyObject(b, defaults, issuer, credentialSubject, displayParameter)) == ELM_BODY_KEYS
  {
    DumpKeys(ELM_BODY_KEYS, ElmBodyValues(b, defaults, issuer, credentialSubject, displayParameter));
  }

  /** The credential body's clock readings and nested nodes. */
  lemma ElmBodyParts(b: ElmBody, defaults: BodyDefaults, issuer: Json, credentialSubject: Json, displayParameter: Json)
    ensures Get(ElmBodyObject(b, defaults, issuer, credentialSubject, displayParameter), "validFrom") == S(defaults.validFrom)
    ensures Get(ElmBodyObject(b, defaults, issuer, credentialSubject, displayParameter), "issuanceDate") == S(defaults.issuanceDate)
    ensures Get(ElmBodyObject(b, defaults, issuer, credentialSubject, displayParameter), "issued") == S(defaults.issued)
    ensures Get(ElmBodyObject(b, defaults, issuer, credentialSubject, displayParameter), "issuer") == Some(issuer)
    ensures Get(ElmBodyObject(b, defaults, issuer, credentialSubject, displayParameter), "credentialSubject") == Some(credentialSubject)
    ensures Get(ElmBodyObject(b, defaults, issuer, credentialSubject, displayParameter), "displayParameter") == Some(displayParameter)
  {
    var v := ElmBodyValues(b, defaults, issuer, credentialSubject, displayParameter);
    DumpGet(ELM_BODY_KEYS, v, 6);
    DumpGet(ELM_BODY_KEYS, v, 7);
    DumpGet(ELM_BODY_KEYS, v, 8);
    DumpGet(ELM_BODY_KEYS, v, 9);
    DumpGet(ELM_BODY_KEYS, v, 10);
    DumpGet(ELM_BODY_KEYS, v, 11);
  }

  const ELM_CREDENTIAL_KEYS := ["credential", "deliveryDetails"]

  lemma ElmCredentialAliases()
    ensures Alias("credential") == "credential" && Alias("delivery_details") == "deliveryDetails"
  {
    AliasCredential(); AliasDeliveryDetails();
  }

  /** The field values of `ElmCredential`, in declaration order, its nested models already dumped. */
  function ElmCredentialValues(credential: Json, deliveryDetails: Json): (v: seq<Option<Json>>)
    ensures |v| == |ELM_CREDENTIAL_KEYS|
  {
    [Some(credential), Some(deliveryDetails)]
  }

  /** `ElmCredential` dumped, given the dumps of its nested models. */
  function ElmCredentialObject(credential: Json, deliveryDetails: Json): Json {
    Dump(ELM_CREDENTIAL_KEYS, ElmCredentialValues(credential, deliveryDetails))
  }

  /** The whole document. */
  function ElmCredentialJson(m: ElmCredentialModel, defaults: BodyDefaults): Json {
    ElmCredentialObject(ElmBodyJson(m.credential, defaults), DeliveryDetailsJson(m.deliveryDetails))
  }

  /** The whole document: the credential body and the delivery details. */
  lemma ElmCredentialShape(credential: Json, deliveryDetails: Json)
    ensures ObjectKeys(ElmCredentialObject(credential, deliveryDetails)) == ELM_CREDENTIAL_KEYS
    ensures Get(ElmCredentialObject(credential, deliveryDetails), "credential") == Some(credential)
    ensures Get(ElmCredentialObject(credential, deliveryDetails), "deliveryDetails") == Some(deliveryDetails)
  {
    var v := ElmCredentialValues(credential, deliveryDetails);
    DumpGet(ELM_CREDENTIAL_KEYS, v, 0);
    DumpGet(ELM_CREDENTIAL_KEYS, v, 1);
    DumpKeys(ELM_CREDENTIAL_KEYS, v);
  }

  // ---------------------------------------------------------------------------
  // Paths through the document: where each nested node's dump sits

  const ISSUER_PATH := ["credential", "issuer"]
  const SUBJECT_PATH := ["credential", "credentialSubject"]
  const CLAIM_PATH := SUBJECT_PATH + ["hasClaim"]
  const AWARDED_BY_PATH := CLAIM_PATH + ["awardedBy"]
  const AWARDING_BODY_PATH := AWARDED_BY_PATH + ["awardingBody"]
  const COUNTRY_CODE_PATH := AWARDING_BODY_PATH + ["location", "address", "countryCode"]
  const DISPLAY_PATH := ["credential", "displayParameter"]
  const PRIMARY_LANGUAGE_PATH := DISPLAY_PATH + ["primaryLanguage"]

  /** The body sits under `credential`, the delivery details under `deliveryDetails`. */
  lemma DocumentParts(m: ElmCredentialModel, defaults: BodyDefaults)
    ensures At(ElmCredentialJson(m, defaults), ["credential"]) == Some(ElmBodyJson(m.credential, defaults))
    ensures At(ElmCredentialJson(m, defaults), ["deliveryDetails"]) == Some(DeliveryDetailsJson(m.deliveryDetails))
  {
    var body := ElmBodyJson(m.credential, defaults);
    var delivery := DeliveryDetailsJson(m.deliveryDetails);
    ElmCredentialShape(body, delivery);
    AtOne(ElmCredentialObject(body, delivery), "credential");
    AtOne(ElmCredentialObject(body, delivery), "deliveryDetails");
  }

  /** Every document carries the process's one credential id, whatever the model and the clock. */
  lemma CredentialIdInDocument(m: ElmCredentialModel, defaults: BodyDefaults)
    ensures At(ElmCredentialJson(m, defaults), ["credential", "id"]) == Some(JString(CredentialId(CREDENTIAL_UUID)))
  {
    var b := m.credential;
    var issuer, subject, display := IssuerJson(b.issuer), CredentialSubjectJson(b.credentialSubject), DisplayParameterJson(b.displayParameter);
    DocumentParts(m, defaults);
    ElmBodyShape(b, defaults, issuer, subject, display);
    AtAppend(ElmCredentialJson(m, defaults), ["credential"], ["id"]);
    AtOne(ElmBodyObject(b, defaults, issuer, subject, display), "id");
  }

  /** The issuer, the credential subject and the display parameter sit directly under the body. */
  lemma BodyNodesInDocument(m: ElmCredentialModel, defaults: BodyDefaults)
    ensures At(ElmCredentialJson(m, defaults), ISSUER_PATH) == Some(IssuerJson(m.credential.issuer))
    ensures At(ElmCredentialJson(m, defaults), SUBJECT_PATH) == Some(CredentialSubjectJson(m.credential.credentialSubject))
    ensures At(ElmCredentialJson(m, defaults), DISPLAY_PATH) == Some(DisplayParameterJson(m.credential.displayParameter))
  {
    var b := m.credential;
    var doc := ElmCredentialJson(m, defaults);
    var issuer, subject, display := IssuerJson(b.issuer), CredentialSubjectJson(b.credentialSubject), DisplayParameterJson(b.displayParameter);
    DocumentParts(m, defaults);
    ElmBodyParts(b, defaults, issuer, subject, display);
    var body := ElmBodyObject(b, defaults, issuer, subject, display);
    AtAppend(doc, ["credential"], ["issuer"]);
    AtOne(body, "issuer");
    AtAppend(doc, ["credential"], ["credentialSubject"]);
    AtOne(body, "credentialSubject");
    AtAppend(doc, ["credential"], ["displayParameter"]);
    AtOne(body, "displayParameter");
  }

  /** The claim sits under the credential subject. */
  lemma ClaimInDocument(m: ElmCredentialModel, defaults: BodyDefaults)
    ensures At(ElmCredentialJson(m, defaults), CLAIM_PATH) == Some(HasClaimJson(m.credential.credentialSubject.hasClaim))
  {
    var c := m.credential.credentialSubject;
    BodyNodesInDocument(m, defaults);
    AtAppend(ElmCredentialJson(m, defaults), SUBJECT_PATH, ["hasClaim"]);
    CredentialSubjectShape(c, HasClaimJson(c.hasClaim));
    AtOne(CredentialSubjectJson(c), "hasClaim");
  }

  /** The awarding process sits under the claim, the awarding body under it. */
  lemma AwardingInDocument(m: ElmCredentialModel, defaults: BodyDefaults)
    ensures At(ElmCredentialJson(m, defaults), AWARDED_BY_PATH) == Some(AwardedByJson(m.credential.credentialSubject.hasClaim.awardedBy))
    ensures At(ElmCredentialJson(m, defaults), AWARDING_BODY_PATH)
      == Some(AwardingBodyJson(m.credential.credentialSubject.hasClaim.awardedBy.awardingBody))
  {
    var c := m.credential.credentialSubject.hasClaim;
    var doc := ElmCredentialJson(m, defaults);
    ClaimInDocument(m, defaults);
    AtAppend(doc, CLAIM_PATH, ["awardedBy"]);
    HasClaimShape(c, OptionJson(c.provenBy, ProvenByJson), AwardedByJson(c.awardedBy), OptionJson(c.specifiedBy, SpecifiedByJson));
    AtOne(HasClaimJson(c), "awardedBy");
    AtAppend(doc, AWARDED_BY_PATH, ["awardingBody"]);
    AwardedByShape(c.awardedBy, AwardingBodyJson(c.awardedBy.awardingBody));
    AtOne(AwardedByJson(c.awardedBy), "awardingBody");
  }

  /** The awarding body's country concept sits under its location's address. */
  lemma CountryCodeInDocument(m: ElmCredentialModel, defaults: BodyDefaults)
    ensures At(ElmCredentialJson(m, defaults), COUNTRY_CODE_PATH)
      == Some(CountryCodeJson(m.credential.credentialSubject.hasClaim.awardedBy.awardingBody.location.address.countryCode))
  {
    var b := m.credential.credentialSubject.hasClaim.awardedBy.awardingBody;
    var location := LocationJson(b.location);
    var address := AddressJson(b.location.address);
    AwardingInDocument(m, defaults);
    AtAppend(ElmCredentialJson(m, defaults), AWARDING_BODY_PATH, ["location", "address", "countryCode"]);
    AwardingBodyShape(b, location);
    LocationShape(address);
    AddressShape(CountryCodeJson(b.location.address.countryCode));
    AtStep(AwardingBodyJson(b), ["location", "address", "countryCode"], location);
    AtStep(location, ["address", "countryCode"], address);
    AtOne(address, "countryCode");
  }

  /** The primary language concept sits under the display parameter. */
  lemma PrimaryLanguageInDocument(m: ElmCredentialModel, defaults: BodyDefaults)
    ensures At(ElmCredentialJson(m, defaults), PRIMARY_LANGUAGE_PATH)
      == Some(LanguageJson(m.credential.displayParameter.primaryLanguage))
  {
    var d := m.credential.displayParameter;
    BodyNodesInDocument(m, defaults);
    AtAppend(ElmCredentialJson(m, defaults), DISPLAY_PATH, ["primaryLanguage"]);
    DisplayParameterShape(d, LanguageJson(d.primaryLanguage));
    AtOne(DisplayParameterJson(d), "primaryLanguage");
  }

  /** The required fields a model leaves unset, by field name. */
  function MissingRequired(m: ElmCredentialModel): (r: seq<string>)
    ensures r == [] <==>
      m.credential.issuer.id.Some? && m.credential.credentialSubject.hasClaim.provenBy.Some?
      && m.credential.credentialSubject.hasClaim.specifiedBy.Some?
  {
    (if m.credential.issuer.id.None? then ["credential.issuer.id"] else [])
    + (if m.credential.credentialSubject.hasClaim.provenBy.None? then ["credential.credential_subject.has_claim.proven_by"] else [])
    + (if m.credential.credentialSubject.hasClaim.specifiedBy.None? then ["credential.credential_subject.has_claim.specified_by"] else [])
  }

  // ---------------------------------------------------------------------------
  // Query parameters

  /** `QueryParamsModel` after validation. */
  datatype QueryParams = QueryParams(username: Option<string>, expiresAt: Option<Timestamp>, toFile: bool)

  /** The model built from no parameters at all. */
  const DEFAULT_QUERY_PARAMS := QueryParams(None, None, true)

  /** A value of the dumped parameter dictionary. */
  datatype ParamValue = PNone | PString(s: string) | PBool(b: bool)

  /** `model_dump()`: the three fields under their own names, `expires_at` in ISO form. */
  function ModelDump(q: QueryParams): (r: map<string, ParamValue>)
    ensures r.Keys == {"username", "expires_at", "to_file"}
    ensures r["username"] == (if q.username.Some? then PString(q.username.value) else PNone)
    ensures r["to_file"] == PBool(q.toFile)
    ensures r["expires_at"] == (if q.expiresAt.Some? then PString(ToIsoFormat(q.expiresAt.value)) else PNone)
  {
    map["username" := if q.username.Some? then PString(q.username.value) else PNone,
        "expires_at" := if q.expiresAt.Some? then PString(ToIsoFormat(q.expiresAt.value)) else PNone,
        "to_file" := PBool(q.toFile)]
  }

  /**
   * A dumped expiry is the expiry at seconds precision: reading it back gives
   * the validated time with its microseconds dropped, and it has no fraction.
   */
  lemma DumpedExpiry(q: QueryParams)
    requires q.expiresAt.Some?
    ensures ModelDump(q)["expires_at"].PString?
    ensures ParseIsoFormat(ModelDump(q)["expires_at"].s) == Some(q.expiresAt.value.(microsecond := 0))
    ensures '.' !in ModelDump(q)["expires_at"].s
  {
    IsoFormatRoundTrip(q.expiresAt.value);
  }

  /** Without parameters the dump holds no username, no expiry, and `to_file` set. */
  lemma DefaultDump()
    ensures ModelDump(DEFAULT_QUERY_PARAMS) == map["username" := PNone, "expires_at" := PNone, "to_file" := PBool(true)]
  {
  }
}
