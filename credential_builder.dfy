/**
 * `CredentialBuilder`: composes the nested credential nodes from the facts of
 * one course, one learner and their certificate, resolving the issuing
 * organisation's country and the credential's primary language through
 * layered configuration. The language code table is a class attribute that
 * every builder shares and that each primary-language lookup merges the
 * configured mapping into.
 */
module CredentialBuilding {
  import opened Wrappers
  import opened Strings
  import opened JsonValues
  import opened Utils
  import opened Serializers

  // ---------------------------------------------------------------------------
  // What the builder reads from the host

  /** The course facts the builder reads: its organisation, display name and advanced settings. */
  datatype CourseBlock = CourseBlock(org: string, displayName: string, otherCourseSettings: map<string, string>)

  /** A platform user; `str(user)` is the username. */
  datatype User = User(username: string, email: string, profileName: string, isStaff: bool, isSuperuser: bool)

  /** A generated certificate: the builder reads only its creation time. */
  datatype Certificate = Certificate(createdDate: Timestamp)

  /** The `ELM_CREDENTIALS_DEFAULTS` dictionary: the two keys the builder reads. */
  datatype ElmCredentialsDefaults = ElmCredentialsDefaults(
    primaryLanguageMapping: Option<map<string, string>>, orgCountryCode: Option<string>)

  const NO_DEFAULTS := ElmCredentialsDefaults(None, None)

  /** The Django settings the builder reads; an absent setting is `None`. */
  datatype DjangoSettings = DjangoSettings(
    languageCode: Option<string>, elmCredentialsDefaults: Option<ElmCredentialsDefaults>)

  /** A setting the course may leave unset: `other_course_settings.get(key)`. */
  function CourseSetting(course: CourseBlock, key: string): Option<string> {
    if key in course.otherCourseSettings then Some(course.otherCourseSettings[key]) else None
  }

  /** Python truthiness of an optional string: present and non-empty. */
  predicate Truthy(o: Option<string>) {
    o.Some? && o.value != ""
  }

  /** Python's `a or b`: `a` when it is truthy, `b` otherwise. */
  function Or(a: Option<string>, b: string): (r: string)
    ensures Truthy(a) ==> r == a.value
    ensures !Truthy(a) ==> r == b
  {
    if Truthy(a) then a.value else b
  }

  // ---------------------------------------------------------------------------
  // The language code table

  /** The table as the class declares it. */
  const INITIAL_LANGUAGE_CODES := map["en" := "ENG", "es" := "SPA"]

  /**
   * `CredentialBuilder.LANGUAGE_CODE_MAP`: one dictionary for the whole
   * process, updated in place.
   */
  class LanguageCodeMap {
    var entries: map<string, string>

    constructor ()
      ensures entries == INITIAL_LANGUAGE_CODES
    {
      entries := INITIAL_LANGUAGE_CODES;
    }

    /** `dict.update`: every key of `m` is added or overwritten, no key is removed. */
    method Update(m: map<string, string>)
      modifies this
      ensures entries == old(entries) + m
      ensures entries.Keys == old(entries).Keys + m.Keys
      ensures forall k :: k in m ==> entries[k] == m[k]
      ensures forall k :: k in old(entries) && k !in m ==> entries[k] == old(entries)[k]
    {
      entries := entries + m;
    }
  }

  /** Merging the same mapping again changes nothing, so repeated lookups agree. */
  lemma MergeIdempotent(t: map<string, string>, m: map<string, string>)
    ensures (t + m) + m == t + m
  {
    assert forall k :: k in (t + m) + m <==> k in t + m;
  }

  /** `LANGUAGE_CODE_MAP.get(code, "SPA")`. */
  function LanguageCodeFor(table: map<string, string>, code: string): (r: string)
    ensures code in table ==> r == table[code]
    ensures code !in table ==> r == "SPA"
  {
    if code in table then table[code] else "SPA"
  }

  // ---------------------------------------------------------------------------
  // The layered resolutions

  /** `course_setting or django_setting or "ESP"`: never empty. */
  function OrgCountryCodeOf(courseSetting: Option<string>, djangoSetting: Option<string>): (r: string)
    ensures r != ""
    ensures Truthy(courseSetting) ==> r == courseSetting.value
    ensures !Truthy(courseSetting) && Truthy(djangoSetting) ==> r == djangoSetting.value
    ensures !Truthy(courseSetting) && !Truthy(djangoSetting) ==> r == "ESP"
  {
    Or(courseSetting, Or(djangoSetting, "ESP"))
  }

  /**
   * `credential_primary_language or LANGUAGE_CODE_MAP.get(language_code, "SPA")`,
   * with `language_code` the `LANGUAGE_CODE` setting or `"es"`.
   */
  function PrimaryLanguageOf(courseSetting: Option<string>, languageCode: Option<string>, table: map<string, string>)
    : (r: string)
    ensures Truthy(courseSetting) ==> r == courseSetting.value
    ensures !Truthy(courseSetting) ==> r == LanguageCodeFor(table, languageCode.GetOr("es"))
  {
    Or(courseSetting, LanguageCodeFor(table, languageCode.GetOr("es")))
  }

  /** With the declared table, `en` reads `ENG`, `es` (also the default) `SPA`, and any other code `SPA`. */
  lemma PrimaryLanguageWithInitialTable(code: string)
    ensures PrimaryLanguageOf(None, Some("en"), INITIAL_LANGUAGE_CODES) == "ENG"
    ensures PrimaryLanguageOf(None, None, INITIAL_LANGUAGE_CODES) == "SPA"
    ensures code != "en" ==> PrimaryLanguageOf(None, Some(code), INITIAL_LANGUAGE_CODES) == "SPA"
  {
  }

  /**
   * The merge persists: once a mapping has been merged into the shared table,
   * a later lookup sees it even when its own mapping is empty, whereas the
   * declared table falls back to `SPA`.
   */
  lemma MappingPersists(code: string, id: string)
    requires code != "en" && code != "es"
    ensures PrimaryLanguageOf(None, Some(code), (INITIAL_LANGUAGE_CODES + map[code := id]) + map[]) == id
    ensures PrimaryLanguageOf(None, Some(code), INITIAL_LANGUAGE_CODES) == "SPA"
  {
    assert (INITIAL_LANGUAGE_CODES + map[code := id]) + map[] == INITIAL_LANGUAGE_CODES + map[code := id];
  }

  /** `additional_params.get("expired_at")`, as the optional string the body fields take. */
  function ExpiredAt(additionalParams: map<string, ParamValue>): Option<string> {
    if "expired_at" in additionalParams && additionalParams["expired_at"].PString?
    then Some(additionalParams["expired_at"].s)
    else None
  }

  // ---------------------------------------------------------------------------
  // The document

  /** The claim title for a course. */
  function ClaimTitle(displayName: string): string {
    "Course certificate for passing " + displayName + " course"
  }

  /**
   * What `build()` returns, once the country code and the primary language
   * are resolved.
   */
  function Assemble(
    course: CourseBlock, user: User, certificate: Certificate, additionalParams: map<string, ParamValue>,
    countryCode: string, primaryLanguage: string): ElmCredentialModel
  {
    var names := GetFullname(user.profileName);
    var awardingBody := AwardingBody(En(course.org), En(course.org), Location(Address(CountryCode(countryCode))));
    var awardedBy := AwardedBy(awardingBody, ToIsoFormat(certificate.createdDate));
    var hasClaim := HasClaim(En(ClaimTitle(course.displayName)), None, awardedBy, None);
    var subject := CredentialSubject(En(names.0), En(names.1), En(user.profileName), hasClaim);
    var display := DisplayParameter(LanguageConcept(primaryLanguage), En(course.displayName));
    var issuer := Issuer(None, En(course.org), En(course.org));
    var expiredAt := ExpiredAt(additionalParams);
    ElmCredentialModel(ElmBody(expiredAt, expiredAt, issuer, subject, display), DeliveryDetails(user.email))
  }

  /** The serialised document of an assembled credential. */
  function Document(
    course: CourseBlock, user: User, certificate: Certificate, additionalParams: map<string, ParamValue>,
    countryCode: string, primaryLanguage: string, defaults: BodyDefaults): Json
  {
    ElmCredentialJson(Assemble(course, user, certificate, additionalParams, countryCode, primaryLanguage), defaults)
  }

  /** The issuer names the course organisation, in English, under both labels. */
  lemma IssuerNamesInDocument(
    course: CourseBlock, user: User, certificate: Certificate, additionalParams: map<string, ParamValue>,
    countryCode: string, primaryLanguage: string, defaults: BodyDefaults)
    ensures var doc := Document(course, user, certificate, additionalParams, countryCode, primaryLanguage, defaults);
      && At(doc, ISSUER_PATH + ["legalName", "en"]) == Some(JString(course.org))
      && At(doc, ISSUER_PATH + ["altLabel", "en"]) == Some(JString(course.org))
  {
    var m := Assemble(course, user, certificate, additionalParams, countryCode, primaryLanguage);
    var doc := ElmCredentialJson(m, defaults);
    var issuer := m.credential.issuer;
    BodyNodesInDocument(m, defaults);
    IssuerShape(issuer);
    EnglishEntry(course.org);
    AtAppend(doc, ISSUER_PATH, ["legalName", "en"]);
    AtTwo(IssuerJson(issuer), "legalName", "en");
    AtAppend(doc, ISSUER_PATH, ["altLabel", "en"]);
    AtTwo(IssuerJson(issuer), "altLabel", "en");
  }

  /** The awarding body names the course organisation, in English, under both labels. */
  lemma AwardingBodyNamesInDocument(
    course: CourseBlock, user: User, certificate: Certificate, additionalParams: map<string, ParamValue>,
    countryCode: string, primaryLanguage: string, defaults: BodyDefaults)
    ensures var doc := Document(course, user, certificate, additionalParams, countryCode, primaryLanguage, defaults);
      && At(doc, AWARDING_BODY_PATH + ["legalName", "en"]) == Some(JString(course.org))
      && At(doc, AWARDING_BODY_PATH + ["altLabel", "en"]) == Some(JString(course.org))
  {
    var m := Assemble(course, user, certificate, additionalParams, countryCode, primaryLanguage);
    var doc := ElmCredentialJson(m, defaults);
    var body := m.credential.credentialSubject.hasClaim.awardedBy.awardingBody;
    AwardingInDocument(m, defaults);
    AwardingBodyShape(body, LocationJson(body.location));
    EnglishEntry(course.org);
    AtAppend(doc, AWARDING_BODY_PATH, ["legalName", "en"]);
    AtTwo(AwardingBodyJson(body), "legalName", "en");
    AtAppend(doc, AWARDING_BODY_PATH, ["altLabel", "en"]);
    AtTwo(AwardingBodyJson(body), "altLabel", "en");
  }

  /** The awarding date is the certificate's creation time at seconds precision. */
  lemma AwardingDateInDocument(
    course: CourseBlock, user: User, certificate: Certificate, additionalParams: map<string, ParamValue>,
    countryCode: string, primaryLanguage: string, defaults: BodyDefaults)
    ensures var doc := Document(course, user, certificate, additionalParams, countryCode, primaryLanguage, defaults);
      At(doc, AWARDED_BY_PATH + ["awardingDate"]) == Some(JString(ToIsoFormat(certificate.createdDate)))
  {
    var m := Assemble(course, user, certificate, additionalParams, countryCode, primaryLanguage);
    var awardedBy := m.credential.credentialSubject.hasClaim.awardedBy;
    AwardingInDocument(m, defaults);
    AwardedByShape(awardedBy, AwardingBodyJson(awardedBy.awardingBody));
    AtAppend(ElmCredentialJson(m, defaults), AWARDED_BY_PATH, ["awardingDate"]);
    AtOne(AwardedByJson(awardedBy), "awardingDate");
  }

  /** Both titles come from the display name: the claim's is the sentence around it, the display's is the name itself. */
  lemma TitlesInDocument(
    course: CourseBlock, user: User, certificate: Certificate, additionalParams: map<string, ParamValue>,
    countryCode: string, primaryLanguage: string, defaults: BodyDefaults)
    ensures var doc := Document(course, user, certificate, additionalParams, countryCode, primaryLanguage, defaults);
      && At(doc, CLAIM_PATH + ["title", "en"]) == Some(JString(ClaimTitle(course.displayName)))
      && At(doc, DISPLAY_PATH + ["title", "en"]) == Some(JString(course.displayName))
  {
    var m := Assemble(course, user, certificate, additionalParams, countryCode, primaryLanguage);
    var doc := ElmCredentialJson(m, defaults);
    var claim := m.credential.credentialSubject.hasClaim;
    var display := m.credential.displayParameter;
    ClaimInDocument(m, defaults);
    BodyNodesInDocument(m, defaults);
    HasClaimShape(claim, None, AwardedByJson(claim.awardedBy), None);
    DisplayParameterShape(display, LanguageJson(display.primaryLanguage));
    EnglishEntry(ClaimTitle(course.displayName));
    EnglishEntry(course.displayName);
    AtAppend(doc, CLAIM_PATH, ["title", "en"]);
    AtTwo(HasClaimJson(claim), "title", "en");
    AtAppend(doc, DISPLAY_PATH, ["title", "en"]);
    AtTwo(DisplayParameterJson(display), "title", "en");
  }

  /**
   * The learner's names: given and family name split from the profile name,
   * the full name the profile name unchanged.
   */
  lemma NamesInDocument(
    course: CourseBlock, user: User, certificate: Certificate, additionalParams: map<string, ParamValue>,
    countryCode: string, primaryLanguage: string, defaults: BodyDefaults)
    ensures var doc := Document(course, user, certificate, additionalParams, countryCode, primaryLanguage, defaults);
      && At(doc, SUBJECT_PATH + ["givenName", "en"]) == Some(JString(GetFullname(user.profileName).0))
      && At(doc, SUBJECT_PATH + ["familyName", "en"]) == Some(JString(GetFullname(user.profileName).1))
      && At(doc, SUBJECT_PATH + ["fullName", "en"]) == Some(JString(user.profileName))
  {
    var m := Assemble(course, user, certificate, additionalParams, countryCode, primaryLanguage);
    var doc := ElmCredentialJson(m, defaults);
    var subject := m.credential.credentialSubject;
    var names := GetFullname(user.profileName);
    BodyNodesInDocument(m, defaults);
    CredentialSubjectShape(subject, HasClaimJson(subject.hasClaim));
    EnglishEntry(names.0);
    EnglishEntry(names.1);
    EnglishEntry(user.profileName);
    AtAppend(doc, SUBJECT_PATH, ["givenName", "en"]);
    AtTwo(CredentialSubjectJson(subject), "givenName", "en");
    AtAppend(doc, SUBJECT_PATH, ["familyName", "en"]);
    AtTwo(CredentialSubjectJson(subject), "familyName", "en");
    AtAppend(doc, SUBJECT_PATH, ["fullName", "en"]);
    AtTwo(CredentialSubjectJson(subject), "fullName", "en");
  }

  /** The country concept's id is the authority URI of the resolved country code. */
  lemma CountryInDocument(
    course: CourseBlock, user: User, certificate: Certificate, additionalParams: map<string, ParamValue>,
    countryCode: string, primaryLanguage: string, defaults: BodyDefaults)
    ensures var doc := Document(course, user, certificate, additionalParams, countryCode, primaryLanguage, defaults);
      At(doc, COUNTRY_CODE_PATH + ["id"]) == Some(JString(CountryUri(countryCode)))
  {
    var m := Assemble(course, user, certificate, additionalParams, countryCode, primaryLanguage);
    CountryCodeInDocument(m, defaults);
    CountryCodeShape(CountryCode(countryCode));
    AtAppend(ElmCredentialJson(m, defaults), COUNTRY_CODE_PATH, ["id"]);
    AtOne(CountryCodeJson(CountryCode(countryCode)), "id");
  }

  /** The primary language concept's id is the authority URI of the resolved language. */
  lemma LanguageInDocument(
    course: CourseBlock, user: User, certificate: Certificate, additionalParams: map<string, ParamValue>,
    countryCode: string, primaryLanguage: string, defaults: BodyDefaults)
    ensures var doc := Document(course, user, certificate, additionalParams, countryCode, primaryLanguage, defaults);
      At(doc, PRIMARY_LANGUAGE_PATH + ["id"]) == Some(JString(LanguageUri(primaryLanguage)))
  {
    var m := Assemble(course, user, certificate, additionalParams, countryCode, primaryLanguage);
    PrimaryLanguageInDocument(m, defaults);
    LanguageShape(LanguageConcept(primaryLanguage));
    AtAppend(ElmCredentialJson(m, defaults), PRIMARY_LANGUAGE_PATH, ["id"]);
    AtOne(LanguageJson(LanguageConcept(primaryLanguage)), "id");
  }

  /** The credential is delivered to the learner's email address. */
  lemma DeliveryInDocument(
    course: CourseBlock, user: User, certificate: Certificate, additionalParams: map<string, ParamValue>,
    countryCode: string, primaryLanguage: string, defaults: BodyDefaults)
    ensures var doc := Document(course, user, certificate, additionalParams, countryCode, primaryLanguage, defaults);
      At(doc, ["deliveryDetails", "deliveryAddress"]) == Some(JString(user.email))
  {
    var m := Assemble(course, user, certificate, additionalParams, countryCode, primaryLanguage);
    DocumentParts(m, defaults);
    DeliveryDetailsShape(m.deliveryDetails);
    AtAppend(ElmCredentialJson(m, defaults), ["deliveryDetails"], ["deliveryAddress"]);
    AtOne(DeliveryDetailsJson(m.deliveryDetails), "deliveryAddress");
  }

  /** Both validity fields carry `additional_params.get("expired_at")`, so they always agree; unset, neither is written. */
  lemma ValidityInDocument(
    course: CourseBlock, user: User, certificate: Certificate, additionalParams: map<string, ParamValue>,
    countryCode: string, primaryLanguage: string, defaults: BodyDefaults)
    ensures var doc := Document(course, user, certificate, additionalParams, countryCode, primaryLanguage, defaults);
      && At(doc, ["credential", "validUntil"]) == OptionString(ExpiredAt(additionalParams))
      && At(doc, ["credential", "expirationDate"]) == OptionString(ExpiredAt(additionalParams))
  {
    var m := Assemble(course, user, certificate, additionalParams, countryCode, primaryLanguage);
    var doc := ElmCredentialJson(m, defaults);
    var b := m.credential;
    DocumentParts(m, defaults);
    ElmBodyValidity(b, defaults, IssuerJson(b.issuer), CredentialSubjectJson(b.credentialSubject), DisplayParameterJson(b.displayParameter));
    AtAppend(doc, ["credential"], ["validUntil"]);
    AtOne(ElmBodyJson(b, defaults), "validUntil");
    AtAppend(doc, ["credential"], ["expirationDate"]);
    AtOne(ElmBodyJson(b, defaults), "expirationDate");
  }

  /**
   * The dumped query parameters hold `expires_at`, never the `expired_at` the
   * builder reads, so an expiry given in the query never reaches the credential.
   */
  lemma QueryExpiryIgnored(q: QueryParams)
    ensures ExpiredAt(ModelDump(q)) == None
  {
  }

  /**
   * Built from the dumped query parameters, the document has neither validity
   * field, whatever expiry the query gave.
   */
  lemma NoValidityFromQuery(
    course: CourseBlock, user: User, certificate: Certificate, q: QueryParams,
    countryCode: string, primaryLanguage: string, defaults: BodyDefaults)
    ensures var doc := Document(course, user, certificate, ModelDump(q), countryCode, primaryLanguage, defaults);
      && At(doc, ["credential", "validUntil"]) == None
      && At(doc, ["credential", "expirationDate"]) == None
  {
    ValidityInDocument(course, user, certificate, ModelDump(q), countryCode, primaryLanguage, defaults);
    QueryExpiryIgnored(q);
  }

  /**
   * The builder never sets the issuer id, the claim's `proven_by` or its
   * `specified_by`, all three required by the schema.
   */
  lemma BuildLeavesRequiredUnset(
    course: CourseBlock, user: User, certificate: Certificate, additionalParams: map<string, ParamValue>,
    countryCode: string, primaryLanguage: string)
    ensures MissingRequired(Assemble(course, user, certificate, additionalParams, countryCode, primaryLanguage))
      == ["credential.issuer.id", "credential.credential_subject.has_claim.proven_by",
          "credential.credential_subject.has_claim.specified_by"]
  {
  }

  /** Accordingly the document has no issuer id and the claim no `provenBy` or `specifiedBy`. */
  lemma RequiredAbsentInDocument(
    course: CourseBlock, user: User, certificate: Certificate, additionalParams: map<string, ParamValue>,
    countryCode: string, primaryLanguage: string, defaults: BodyDefaults)
    ensures var doc := Document(course, user, certificate, additionalParams, countryCode, primaryLanguage, defaults);
      && At(doc, ISSUER_PATH + ["id"]) == None
      && At(doc, CLAIM_PATH + ["provenBy"]) == None
      && At(doc, CLAIM_PATH + ["specifiedBy"]) == None
  {
    var m := Assemble(course, user, certificate, additionalParams, countryCode, primaryLanguage);
    var doc := ElmCredentialJson(m, defaults);
    var claim := m.credential.credentialSubject.hasClaim;
    BodyNodesInDocument(m, defaults);
    ClaimInDocument(m, defaults);
    IssuerShape(m.credential.issuer);
    HasClaimShape(claim, None, AwardedByJson(claim.awardedBy), None);
    AtAppend(doc, ISSUER_PATH, ["id"]);
    AtOne(IssuerJson(m.credential.issuer), "id");
    AtAppend(doc, CLAIM_PATH, ["provenBy"]);
    AtOne(HasClaimJson(claim), "provenBy");
    AtAppend(doc, CLAIM_PATH, ["specifiedBy"]);
    AtOne(HasClaimJson(claim), "specifiedBy");
  }

  // ---------------------------------------------------------------------------
  // One credential, from the settings

  /** `ELM_CREDENTIALS_DEFAULTS`, empty when unset. */
  function CredentialDefaults(settings: DjangoSettings): ElmCredentialsDefaults {
    settings.elmCredentialsDefaults.GetOr(NO_DEFAULTS)
  }

  /** The mapping every primary-language lookup merges into the shared table. */
  function MappingOf(settings: DjangoSettings): map<string, string> {
    CredentialDefaults(settings).primaryLanguageMapping.GetOr(map[])
  }

  /** The organisation's country code for a course. */
  function CountryCodeFor(course: CourseBlock, settings: DjangoSettings): string {
    OrgCountryCodeOf(CourseSetting(course, "elm_credential_org_country_code"), CredentialDefaults(settings).orgCountryCode)
  }

  /** The primary language of a course's credentials, read from `table`. */
  function PrimaryLanguageFor(course: CourseBlock, settings: DjangoSettings, table: map<string, string>): string {
    PrimaryLanguageOf(CourseSetting(course, "elm_credential_primary_language"), settings.languageCode, table)
  }

  /** The document a builder produces for these inputs, its lookups made in `table`. */
  function CredentialDocument(
    course: CourseBlock, user: User, certificate: Certificate, additionalParams: map<string, ParamValue>,
    settings: DjangoSettings, table: map<string, string>, defaults: BodyDefaults): Json
  {
    Document(course, user, certificate, additionalParams, CountryCodeFor(course, settings),
             PrimaryLanguageFor(course, settings, table), defaults)
  }

  // ---------------------------------------------------------------------------
  // The builder

  class CredentialBuilder {
    const courseBlock: CourseBlock
    const user: User
    const certificate: Certificate
    const additionalParams: map<string, ParamValue>
    const settings: DjangoSettings
    const elmCredentialDefaults: ElmCredentialsDefaults := CredentialDefaults(settings)
    /** The class attribute `LANGUAGE_CODE_MAP`, the same object for every builder. */
    const languageCodeMap: LanguageCodeMap

    constructor (
      courseBlock: CourseBlock, user: User, certificate: Certificate,
      additionalParams: map<string, ParamValue>, settings: DjangoSettings, languageCodeMap: LanguageCodeMap)
      ensures this.courseBlock == courseBlock && this.user == user && this.certificate == certificate
      ensures this.additionalParams == additionalParams && this.settings == settings
      ensures this.languageCodeMap == languageCodeMap
    {
      this.courseBlock := courseBlock;
      this.user := user;
      this.certificate := certificate;
      this.additionalParams := additionalParams;
      this.settings := settings;
      this.languageCodeMap := languageCodeMap;
    }

    /** `full_name`: the user's profile name, unchanged. */
    function FullName(): string {
      user.profileName
    }

    /** `org_country_code`: the course setting, else the configured default, else `ESP`. */
    function OrgCountryCode(): (r: CountryCode)
      ensures r.code == CountryCodeFor(courseBlock, settings)
    {
      var courseSetting := CourseSetting(courseBlock, "elm_credential_org_country_code");
      var djangoSetting := elmCredentialDefaults.orgCountryCode;
      CountryCode(Or(courseSetting, Or(djangoSetting, "ESP")))
    }

    /** `primary_language`: merges the configured mapping into the shared table, then resolves the language. */
    method PrimaryLanguage() returns (r: LanguageConcept)
      modifies languageCodeMap
      ensures languageCodeMap.entries == old(languageCodeMap.entries) + MappingOf(settings)
      ensures r.code == PrimaryLanguageFor(courseBlock, settings, languageCodeMap.entries)
    {
      var credentialPrimaryLanguage := CourseSetting(courseBlock, "elm_credential_primary_language");
      var languageCode := settings.languageCode.GetOr("es");
      languageCodeMap.Update(elmCredentialDefaults.primaryLanguageMapping.GetOr(map[]));
      r := LanguageConcept(Or(credentialPrimaryLanguage, LanguageCodeFor(languageCodeMap.entries, languageCode)));
    }

    /** `build()`: the table gains the configured mapping, and the result is `Assemble` of the resolved values. */
    method Build() returns (r: ElmCredentialModel)
      modifies languageCodeMap
      ensures languageCodeMap.entries == old(languageCodeMap.entries) + MappingOf(settings)
      ensures r == Assemble(courseBlock, user, certificate, additionalParams, CountryCodeFor(courseBlock, settings),
                            PrimaryLanguageFor(courseBlock, settings, languageCodeMap.entries))
    {
      var primaryLanguage := PrimaryLanguage();
      r := Assemble(courseBlock, user, certificate, additionalParams, OrgCountryCode().code, primaryLanguage.code);
    }
  }
}
