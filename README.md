# ELM credentials plugin, modelled in Dafny

The plugin adds one endpoint to an Open edX platform:
`GET platform-plugin-elm-credentials/{course_id}/api/credential-builder`.
It builds European Learning Model (ELMv3) credentials for the learners who hold a certificate in a course.

The endpoint runs its checks in a fixed order:
- the course key must parse;
- the course must exist;
- the requester must be staff, course staff or course instructor;
- the query parameters (`username`, `expires_at`, `to_file`) must validate.

Then it builds one credential for the named learner, or one for every enrolled learner who has a certificate and is neither staff nor superuser. It answers with a ZIP archive of `credential-<user>-<course>.json` files. The exception is a single learner who asked for no file: that learner's credential is returned directly.

That is the behaviour the code is designed for. As written, it never gets there:
- `views.py:20` imports `pydantic_error_to_response` from `api/utils.py`, which does not define it, so the view module cannot be imported.
- `build()` creates `HasClaim` at `credential_builder.py:128` without the required `proven_by` and `specified_by`, so pydantic raises a `ValidationError`. The issuer at `:144` also lacks its required `id`. The raise comes before `primary_language` (`:141`) updates the shared table.

The model describes the program with those three required-field checks lifted and the import resolved. `MissingRequired`, `BuildLeavesRequiredUnset` and `RequiredAbsentInDocument` state what the checks would reject.

A credential is built by `CredentialBuilder` and serialised through a tree of pydantic models:
- Every key is the camelCase alias of the declared field name.
- Fields left as `None` are dropped.
- Constant ids, types and schemes are filled in.

The builder resolves two values in layers:
- the organisation's country code: the course setting, else the configured default, else `ESP`;
- the primary language: the course setting, else the language code looked up in a class-level table. That table is updated in place from `ELM_CREDENTIALS_DEFAULTS["PRIMARY_LANGUAGE_MAPPING"]`.

The project is spread over these modules:

| file | module | models |
|---|---|---|
| `wrappers.dfy` | `Wrappers` | `Option`, Python's `None` |
| `strings.dfy` | `Strings` | `str.split`, `join`, `capitalize`, `lower`, zero padding, `repr` of a `str` |
| `json.dfy` | `JsonValues` | the JSON tree the dumps denote, lookups along key paths |
| `utils.dfy` | `Utils` | `api/utils.py`: ISO-8601 formatting and its round trip, `to_camel`, `get_fullname`, the two error responses |
| `serializers.dfy` | `Serializers` | `api/serializers.py`: every model as a datatype, its aliased and `exclude_none` dump, the query-parameter model |
| `credential_builder.dfy` | `CredentialBuilding` | `api/credential_builder.py`: the builder as a class, the shared language table as an object updated in place |
| `views.dfy` | `Views` | `api/views.py`: the request checks, single and bulk generation (a loop over enrollments), the ZIP archive (a loop of writes) |

State and loops keep the form the source gives them:
- `LANGUAGE_CODE_MAP` is a `LanguageCodeMap` object that every builder shares. `primary_language`, `build` and the view methods declare that they modify it.
- `generate_bulk_credentials` and `to_zip` are `while` loops. Each is proved against a specification function: `BulkIssues` for the first, the list of files for the second.

Each method's `ensures` ties its result to the specification functions:
- `PlanRequest` says which checks refuse a request and which credentials are delivered.
- `Respond` gives the reply for a plan.
- `Content` gives the credential built for one learner.

The lemmas beside those functions state what the endpoint promises.

## Model

| member | source | states |
|---|---|---|
| Strings.Split | platform_plugin_elm_credentials/api/utils.py:44 | `str.split` returns at least one piece, and no piece holds the separator |
| Strings.SplitJoin | platform_plugin_elm_credentials/api/utils.py:44 | joining the pieces with the separator gives back the original string |
| Strings.Capitalize | platform_plugin_elm_credentials/api/utils.py:45 | on ASCII text, `capitalize` keeps the length, upper-cases the first character and lower-cases the rest |
| Strings.LowerAll | platform_plugin_elm_credentials/api/utils.py:45 | on ASCII text, `lower` lower-cases every letter and changes nothing else |
| Strings.Pad | platform_plugin_elm_credentials/api/utils.py:31 | a zero-padded field has exactly the field width and only decimal digits |
| Strings.PadRoundTrip | platform_plugin_elm_credentials/api/utils.py:31 | reading a padded field back gives the number |
| Strings.IndexOf | platform_plugin_elm_credentials/api/utils.py:61 | the search for the first space finds none exactly when there is none; when it finds one, the position holds it and no earlier position does |
| Strings.ReprOfPlain | platform_plugin_elm_credentials/api/views.py:99 | `{course_id=}` writes the id between single quotes when it is printable ASCII without a quote or backslash |
| Utils.OffsetText | platform_plugin_elm_credentials/api/utils.py:31 | a whole-second UTC offset is written as `±HH:MM`, or `±HH:MM:SS` when it has seconds |
| Utils.OffsetRoundTrip | platform_plugin_elm_credentials/api/utils.py:31 | reading a written offset back gives the offset in seconds |
| Utils.FieldsRoundTrip | platform_plugin_elm_credentials/api/utils.py:31 | reading the date part or the time part back gives its three numbers |
| Utils.ToIsoFormat | platform_plugin_elm_credentials/api/utils.py:20-31 | `isoformat(timespec="seconds")` is 19 characters long without an offset and 25 or 28 with one, and has no fractional seconds |
| Utils.IsoFormatRoundTrip | platform_plugin_elm_credentials/api/utils.py:20-31 | parsing the text back gives the same timestamp with its microseconds dropped |
| Utils.ToCamelHasNoUnderscore | platform_plugin_elm_credentials/api/utils.py:34-45 | a camelCase alias never contains `_` |
| Utils.ToCamelWithoutUnderscore | platform_plugin_elm_credentials/api/utils.py:44-45 | a name without `_` is its own alias |
| Utils.ToCamelTwoPieces | platform_plugin_elm_credentials/api/utils.py:44-45 | the alias of `a_b` is `a` followed by `b` capitalized |
| Utils.CamelSnakeRoundTrip | platform_plugin_elm_credentials/api/utils.py:34-45 | on snake_case identifiers, turning capitals back into `_` and a lower-case letter undoes `to_camel` |
| Utils.ToCamelInjective | platform_plugin_elm_credentials/api/utils.py:34-45 | two distinct identifiers never share an alias, so the keys of a model's dump are distinct |
| Utils.GetFullname | platform_plugin_elm_credentials/api/utils.py:48-67 | an empty name gives two empty parts; the first part has no space; a name with a space is the first part, a space, then the rest; a name without one is all first name |
| Utils.GetFullnameAtFirstSpace | platform_plugin_elm_credentials/api/utils.py:58-67 | a name splits at its first space, whatever follows it |
| Utils.GetFullnameExamples | platform_plugin_elm_credentials/api/utils.py:48-67 | "John Doe Roe" gives ("John", "Doe Roe"), "John Doe" gives ("John", "Doe"), and "John" gives ("John", "") |
| Utils.ApiFieldErrors | platform_plugin_elm_credentials/api/utils.py:70-84 | the response has the given status. Its only key is `field_errors`, an object whose keys are exactly the given field names in order; when they are distinct, each field's message is found under its name |
| Utils.ApiError | platform_plugin_elm_credentials/api/utils.py:87-99 | the response has the given status, and its only key `error` holds a list with the one message |
| Serializers.AliasOfWord | platform_plugin_elm_credentials/api/serializers.py:29-39 | a one-word field other than `context` is serialised under its own name |
| Serializers.AliasOfTwoWords | platform_plugin_elm_credentials/api/serializers.py:29-39 | a two-word field is serialised under its camelCase form |
| Serializers.DumpKeys | platform_plugin_elm_credentials/api/views.py:244 | when no field is `None`, the dump's keys are the model's aliases, in declaration order |
| Serializers.DumpGet | platform_plugin_elm_credentials/api/views.py:244 | each alias finds its field's dumped value, or nothing when the field is `None` (`exclude_none=True`) |
| Serializers.DumpHas | platform_plugin_elm_credentials/api/views.py:244 | a key is in the dump exactly when its field is set |
| Serializers.EnglishEntry | platform_plugin_elm_credentials/api/credential_builder.py:120 | a `{"en": s}` label has the one key `en`, holding `s` |
| Serializers.LanguageUri | platform_plugin_elm_credentials/api/serializers.py:59-61 | a language id is written as the EU language authority URL followed by `/` and the code |
| Serializers.CountryUri | platform_plugin_elm_credentials/api/serializers.py:82-84 | a country id is written as the EU country authority URL followed by `/` and the code |
| Serializers.LanguageUriLastSegment | platform_plugin_elm_credentials/api/serializers.py:59-61 | the code is the last path segment of the written id, so it can be read back |
| Serializers.CountryUriLastSegment | platform_plugin_elm_credentials/api/serializers.py:82-84 | the code is the last path segment of the written id |
| Serializers.IssuerUriInjective | platform_plugin_elm_credentials/api/serializers.py:291-293 | distinct issuer ids give distinct `urn:epass:org:` URNs |
| Serializers.LanguageAliases | platform_plugin_elm_credentials/api/serializers.py:48-57 | the language fields are serialised as `id`, `type`, `inScheme`, `notation` |
| Serializers.LanguageShape | platform_plugin_elm_credentials/api/serializers.py:42-61 | a language (also `PrimaryLanguage`) has exactly those four keys: its code as an authority URL, type `Concept`, the language scheme and notation `language` |
| Serializers.CountryCodeShape | platform_plugin_elm_credentials/api/serializers.py:64-84 | a country code has the same four keys: its code as an authority URL, the country scheme and notation `country` |
| Serializers.AddressAliases | platform_plugin_elm_credentials/api/serializers.py:94-96 | the address fields are serialised as `id`, `type`, `countryCode` |
| Serializers.AddressShape | platform_plugin_elm_credentials/api/serializers.py:87-96 | an address has exactly those keys, with the fixed id and type and the country code given |
| Serializers.LocationAliases | platform_plugin_elm_credentials/api/serializers.py:106-108 | the location fields are serialised as `id`, `type`, `address` |
| Serializers.LocationShape | platform_plugin_elm_credentials/api/serializers.py:99-108 | a location has exactly those keys, with the fixed id and type and the address given |
| Serializers.ConceptAliases | platform_plugin_elm_credentials/api/serializers.py:118-127 | the concept fields are serialised as `id`, `type`, `inScheme`, `prefLabel` |
| Serializers.ModeShape | platform_plugin_elm_credentials/api/serializers.py:111-127 | the mode has exactly those keys, with its fixed id, scheme and English label "Online" |
| Serializers.IdVerificationShape | platform_plugin_elm_credentials/api/serializers.py:152-171 | the id verification has exactly those keys, with its fixed id, scheme and English label |
| Serializers.AwardingBodyAliases | platform_plugin_elm_credentials/api/serializers.py:145-149 | the awarding body fields are serialised as `id`, `type`, `altLabel`, `legalName`, `location` |
| Serializers.AwardingBodyShape | platform_plugin_elm_credentials/api/serializers.py:138-149 | an awarding body has exactly those keys: the fixed id, type `Organisation`, both labels and the location given |
| Serializers.GradeAliases | platform_plugin_elm_credentials/api/serializers.py:181-183 | the grade fields are serialised as `id`, `type`, `noteLiteral` |
| Serializers.GradeShape | platform_plugin_elm_credentials/api/serializers.py:174-183 | a grade has exactly those keys, with the fixed id and type and its note |
| Serializers.SpecifiedByAliases | platform_plugin_elm_credentials/api/serializers.py:193-197 | the specification fields are serialised as `id`, `type`, `title`, `language`, `mode` |
| Serializers.SpecifiedByShape | platform_plugin_elm_credentials/api/serializers.py:186-197 | a specification has exactly those keys, with the fixed id and type and the title, language and mode given |
| Serializers.AwardedByAliases | platform_plugin_elm_credentials/api/serializers.py:207-210 | the awarding process fields are serialised as `id`, `type`, `awardingBody`, `awardingDate` |
| Serializers.AwardedByShape | platform_plugin_elm_credentials/api/serializers.py:200-210 | an awarding process has exactly those keys, with the fixed id and type and the body and date given |
| Serializers.ProvenByAliases | platform_plugin_elm_credentials/api/serializers.py:220-225 | the assessment fields are serialised as `id`, `type`, `awardedBy`, `title`, `grade`, `idVerification` |
| Serializers.ProvenByShape | platform_plugin_elm_credentials/api/serializers.py:213-225 | an assessment has exactly those keys, with the fixed id and type and each nested value given |
| Serializers.HasClaimAliases | platform_plugin_elm_credentials/api/serializers.py:243-248 | the claim fields are serialised as `id`, `type`, `title`, `provenBy`, `awardedBy`, `specifiedBy` |
| Serializers.HasClaimShape | platform_plugin_elm_credentials/api/serializers.py:236-248 | a claim has the fixed id and type, its title and awarding process, and `provenBy` and `specifiedBy` exactly when they are set |
| Serializers.DisplayParameterAliases | platform_plugin_elm_credentials/api/serializers.py:258-261 | the display fields are serialised as `id`, `type`, `primaryLanguage`, `title` |
| Serializers.DisplayParameterShape | platform_plugin_elm_credentials/api/serializers.py:251-261 | a display parameter has exactly those keys, with the fixed id and type and the language and title given |
| Serializers.CredentialSubjectAliases | platform_plugin_elm_credentials/api/serializers.py:271-276 | the person fields are serialised as `id`, `type`, `givenName`, `familyName`, `fullName`, `hasClaim` |
| Serializers.CredentialSubjectShape | platform_plugin_elm_credentials/api/serializers.py:264-276 | a person has exactly those keys, with the fixed id and type, the three names and the claim given |
| Serializers.IssuerAliases | platform_plugin_elm_credentials/api/serializers.py:286-289 | the issuer fields are serialised as `id`, `type`, `altLabel`, `legalName` |
| Serializers.IssuerShape | platform_plugin_elm_credentials/api/serializers.py:279-293 | an issuer has type `Organisation` and both labels. It has an `id` (its URN) exactly when one is set, and then exactly the four keys |
| Serializers.DeliveryDetailsAliases | platform_plugin_elm_credentials/api/serializers.py:303 | the delivery field is serialised as `deliveryAddress` |
| Serializers.DeliveryDetailsShape | platform_plugin_elm_credentials/api/serializers.py:296-303 | delivery details have the one key `deliveryAddress`, holding the address |
| Serializers.ElmBodyAliases | platform_plugin_elm_credentials/api/serializers.py:312-332 | the body fields are serialised under their camelCase aliases, and `context` as `@context` |
| Serializers.ElmBodyShape | platform_plugin_elm_credentials/api/serializers.py:312-324 | the body has the process's one credential id, the two credential types, the two context URLs and the SHACL schema |
| Serializers.ElmBodyValidity | platform_plugin_elm_credentials/api/serializers.py:325-326 | `validUntil` and `expirationDate` hold the given strings, and each is present exactly when it is set |
| Serializers.ElmBodyKeys | platform_plugin_elm_credentials/api/serializers.py:306-332 | with both validity dates set, the body's keys are all twelve aliases, in declaration order |
| Serializers.ElmBodyParts | platform_plugin_elm_credentials/api/serializers.py:327-332 | the body holds the three clock-derived dates and the issuer, subject and display parameter given |
| Serializers.ElmCredentialAliases | platform_plugin_elm_credentials/api/serializers.py:341-342 | the top-level fields are serialised as `credential`, `deliveryDetails` |
| Serializers.ElmCredentialShape | platform_plugin_elm_credentials/api/serializers.py:335-342 | a credential document has exactly those two keys, holding the body and the delivery details |
| Serializers.CredentialIdInDocument | platform_plugin_elm_credentials/api/serializers.py:312 | every document's `credential.id` is `urn:credential:` followed by the one uuid the process formed, whatever the model and the clock |
| Serializers.DocumentParts | platform_plugin_elm_credentials/api/serializers.py:335-342 | `credential` and `deliveryDetails` of a document are the body's and the delivery details' dumps |
| Serializers.BodyNodesInDocument | platform_plugin_elm_credentials/api/serializers.py:330-332 | `credential.issuer`, `credential.credentialSubject` and `credential.displayParameter` are those models' dumps |
| Serializers.ClaimInDocument | platform_plugin_elm_credentials/api/serializers.py:276 | the subject's `hasClaim` is the claim's dump |
| Serializers.AwardingInDocument | platform_plugin_elm_credentials/api/serializers.py:247 | the claim's `awardedBy` and its `awardingBody` are those models' dumps |
| Serializers.CountryCodeInDocument | platform_plugin_elm_credentials/api/serializers.py:96 | the awarding body's `location.address.countryCode` is the country code's dump |
| Serializers.PrimaryLanguageInDocument | platform_plugin_elm_credentials/api/serializers.py:260 | the display parameter's `primaryLanguage` is the language's dump |
| Serializers.MissingRequired | platform_plugin_elm_credentials/api/serializers.py:236-293 | a model lacks none of the required issuer id, claim `proven_by` and claim `specified_by` exactly when all three are set |
| Serializers.ModelDump | platform_plugin_elm_credentials/api/serializers.py:11-26 | `model_dump()` has exactly the keys `username`, `expires_at` and `to_file`, holding the username, the ISO text of the expiry (or `None`) and the flag |
| Serializers.DumpedExpiry | platform_plugin_elm_credentials/api/serializers.py:22-26 | a dumped expiry is a string without fractional seconds that parses back to the expiry, to the second |
| Serializers.DefaultDump | platform_plugin_elm_credentials/api/serializers.py:19-21 | with no parameters, the dump is no username, no expiry and `to_file` true |
| CredentialBuilding.Or | platform_plugin_elm_credentials/api/credential_builder.py:108 | Python's `a or b` gives `a` when it is a non-empty string and `b` otherwise |
| CredentialBuilding.LanguageCodeMap.constructor | platform_plugin_elm_credentials/api/credential_builder.py:43-46 | the table starts as `en → ENG`, `es → SPA` |
| CredentialBuilding.LanguageCodeMap.Update | platform_plugin_elm_credentials/api/credential_builder.py:86 | `dict.update` adds or overwrites every key of the mapping and keeps every other entry |
| CredentialBuilding.MergeIdempotent | platform_plugin_elm_credentials/api/credential_builder.py:86 | merging the same mapping a second time changes nothing, so every credential of a request sees the same table |
| CredentialBuilding.LanguageCodeFor | platform_plugin_elm_credentials/api/credential_builder.py:87-89 | a code in the table gives its entry, and any other code gives `SPA` |
| CredentialBuilding.OrgCountryCodeOf | platform_plugin_elm_credentials/api/credential_builder.py:104-108 | the country code is never empty: the course setting if non-empty, else the configured default if non-empty, else `ESP` |
| CredentialBuilding.PrimaryLanguageOf | platform_plugin_elm_credentials/api/credential_builder.py:79-90 | the language is the course setting if non-empty, else the table's entry for `LANGUAGE_CODE` (default `es`), else `SPA` |
| CredentialBuilding.PrimaryLanguageWithInitialTable | platform_plugin_elm_credentials/api/credential_builder.py:82-89 | with the declared table, `en` gives `ENG`, an unset language code gives `SPA`, and any code other than `en` gives `SPA` |
| CredentialBuilding.MappingPersists | platform_plugin_elm_credentials/api/credential_builder.py:83-89 | a mapping merged once stays visible to later builders whose own mapping is empty, where the declared table would give `SPA` |
| CredentialBuilding.IssuerNamesInDocument | platform_plugin_elm_credentials/api/credential_builder.py:144-147 | the issuer's `legalName.en` and `altLabel.en` are the course organisation |
| CredentialBuilding.AwardingBodyNamesInDocument | platform_plugin_elm_credentials/api/credential_builder.py:119-123 | the awarding body's `legalName.en` and `altLabel.en` are the course organisation |
| CredentialBuilding.AwardingDateInDocument | platform_plugin_elm_credentials/api/credential_builder.py:124-127 | the awarding date is the certificate's creation time in ISO form |
| CredentialBuilding.TitlesInDocument | platform_plugin_elm_credentials/api/credential_builder.py:128-143 | the claim title is "Course certificate for passing <name> course", and the display title is the course name |
| CredentialBuilding.NamesInDocument | platform_plugin_elm_credentials/api/credential_builder.py:117-139 | the given and family names are the two parts of the profile name, and the full name is the profile name |
| CredentialBuilding.CountryInDocument | platform_plugin_elm_credentials/api/credential_builder.py:122 | the awarding body's country id is the resolved country code as an authority URL |
| CredentialBuilding.LanguageInDocument | platform_plugin_elm_credentials/api/credential_builder.py:140-141 | the display parameter's language id is the resolved primary language as an authority URL |
| CredentialBuilding.DeliveryInDocument | platform_plugin_elm_credentials/api/credential_builder.py:148 | the delivery address is the user's email |
| CredentialBuilding.ValidityInDocument | platform_plugin_elm_credentials/api/credential_builder.py:154-155 | `validUntil` and `expirationDate` both come from the `expired_at` parameter, and both are absent when it is unset |
| CredentialBuilding.QueryExpiryIgnored | platform_plugin_elm_credentials/api/credential_builder.py:154-155 | a dumped query never holds `expired_at` (it writes `expires_at`) |
| CredentialBuilding.NoValidityFromQuery | platform_plugin_elm_credentials/api/credential_builder.py:154-155 | a document built from a dumped query has neither `validUntil` nor `expirationDate`, whatever expiry was asked for |
| CredentialBuilding.BuildLeavesRequiredUnset | platform_plugin_elm_credentials/api/credential_builder.py:128-147 | what `build()` returns always lacks the issuer id, the claim's `proven_by` and its `specified_by` |
| CredentialBuilding.RequiredAbsentInDocument | platform_plugin_elm_credentials/api/credential_builder.py:128-147 | accordingly the document has no issuer `id` and its claim has no `provenBy` or `specifiedBy` |
| CredentialBuilding.CredentialBuilder.constructor | platform_plugin_elm_credentials/api/credential_builder.py:48-53 | the builder keeps the course, user, certificate, parameters and settings it is given, and the shared table |
| CredentialBuilding.CredentialBuilder.OrgCountryCode | platform_plugin_elm_credentials/api/credential_builder.py:92-108 | the country code is the layered resolution of the course's and the configured settings |
| CredentialBuilding.CredentialBuilder.PrimaryLanguage | platform_plugin_elm_credentials/api/credential_builder.py:65-90 | the shared table gains the configured mapping, and the language is resolved against the updated table |
| CredentialBuilding.CredentialBuilder.Build | platform_plugin_elm_credentials/api/credential_builder.py:110-159 | the shared table gains the configured mapping, and the result is the credential assembled from the course, user, certificate, parameters and the two resolved values |
| Views.Values | platform_plugin_elm_credentials/api/views.py:148 | `json_data.values()` lists the values in insertion order |
| Views.Put | platform_plugin_elm_credentials/api/views.py:215 | assigning a key keeps the dictionary's keys, appending the key when it is new |
| Views.PutLookup | platform_plugin_elm_credentials/api/views.py:215 | after the assignment the key finds the new value, and every other key finds what it found before |
| Views.PutDistinct | platform_plugin_elm_credentials/api/views.py:215 | assignment never makes a key occur twice |
| Views.MapValuesAt | platform_plugin_elm_credentials/api/views.py:207-215 | the mapped dictionary holds, under each key, the function of the value the key held |
| Views.MapValuesPut | platform_plugin_elm_credentials/api/views.py:207-215 | building a file at assignment time is the same as assigning what it is built from and building afterwards |
| Views.Learners | platform_plugin_elm_credentials/api/views.py:203-205 | a user is kept exactly when enrolled and neither superuser nor staff |
| Views.CredentialNameInjective | platform_plugin_elm_credentials/api/views.py:247-259 | within one course, two usernames never share a file name |
| Views.BulkStep | platform_plugin_elm_credentials/api/views.py:208-215 | visiting one more learner assigns that learner's file when they have a certificate, and changes nothing otherwise |
| Views.BulkNames | platform_plugin_elm_credentials/api/views.py:207-215 | the bulk dictionary has no key twice, and a name is a key exactly when some certified learner has that name |
| Views.BulkEmpty | platform_plugin_elm_credentials/api/views.py:207-221 | the bulk dictionary is empty exactly when no learner has a certificate |
| Views.BulkEntry | platform_plugin_elm_credentials/api/views.py:207-215 | a certified learner's file holds their own credential, unless a later learner has the same username |
| Views.DumpedParams | platform_plugin_elm_credentials/api/views.py:125-145 | `query_params.get("username")` is the validated username, and `to_file` is truthy exactly when it is set |
| Views.CheckOrder | platform_plugin_elm_credentials/api/views.py:95-131 | the first failing check decides the answer: a bad key gives 400, a missing course 404, no access 403, invalid parameters 400 with their field errors |
| Views.GenerationRefusals | platform_plugin_elm_credentials/api/views.py:167-221 | single and bulk generation refuse only with 404 |
| Views.ForbiddenIff | platform_plugin_elm_credentials/api/views.py:110-122 | the answer is 403 exactly when the key parses and the course exists but the requester is neither staff, course staff nor course instructor |
| Views.BadRequestIff | platform_plugin_elm_credentials/api/views.py:95-131 | the answer is 400 exactly when the key is bad, or the other checks pass and the parameters are invalid |
| Views.RefusalStatus | platform_plugin_elm_credentials/api/views.py:83-149 | every refusal is a 400, a 403 or a 404 |
| Views.BulkOutcome | platform_plugin_elm_credentials/api/views.py:133-146 | without a username the request is answered with files exactly when some learner is certified, always zipped, one per certified learner; otherwise the "No credentials found" 404 follows |
| Views.SingleOutcome | platform_plugin_elm_credentials/api/views.py:151-187 | with a username, an unknown user gives the `username` 404 and a user without a certificate the certificate 404; otherwise there is exactly one file, zipped exactly when `to_file` is set |
| Views.ZippedIff | platform_plugin_elm_credentials/api/views.py:145-149 | a delivery is zipped exactly when no username was given or `to_file` is set |
| Views.InvalidKeyMessage | platform_plugin_elm_credentials/api/views.py:97-101 | for an id of printable ASCII without a quote or backslash, the 400 reads "The supplied course_id='<id>' key is not valid." under `field_errors.course_id` |
| Views.CourseNotFoundMessage | platform_plugin_elm_credentials/api/views.py:104-108 | for such an id, the 404 reads "The course with course_id='<id>' is not found." under `field_errors.course_id` |
| Views.NoCredentialsMessage | platform_plugin_elm_credentials/api/views.py:217-221 | for such an id, the bulk 404's first error reads "No credentials found for course_id='<id>'." |
| Views.ContentDocument | platform_plugin_elm_credentials/api/views.py:225-245 | a credential file's document is the one the builder produces for that learner in that request |
| Views.DeliveryInputs | platform_plugin_elm_credentials/api/views.py:103-136 | a delivery passes every check, and is built for the requested course with the dumped parameters |
| Views.DeliveredNeverExpire | platform_plugin_elm_credentials/api/views.py:125-140 | no delivered credential has `validUntil` or `expirationDate`, whatever `expires_at` was given |
| Views.ReplySharesCredentialId | platform_plugin_elm_credentials/api/serializers.py:312 | every credential of a reply, zipped or inline, has that same `credential.id`, so no two replies differ in it |
| Views.ZipArchive.constructor | platform_plugin_elm_credentials/api/views.py:268 | a new archive is empty |
| Views.ZipArchive.WriteStr | platform_plugin_elm_credentials/api/views.py:270 | `writestr` appends one member |
| Views.ToZip | platform_plugin_elm_credentials/api/views.py:261-283 | the archive is named `credentials-<course id>.zip` and holds every file, in order |
| Views.CreateCredential | platform_plugin_elm_credentials/api/views.py:225-245 | the shared table gains the configured mapping, and the credential is the learner's content in the updated table |
| Views.GenerateBulkCredentials | platform_plugin_elm_credentials/api/views.py:189-223 | the result is the bulk generation with every file built, or its 404. The shared table gains the mapping exactly when a file is built |
| Views.GenerateSingleCredential | platform_plugin_elm_credentials/api/views.py:151-187 | the result is the single generation with its file built, or its 404. The shared table gains the mapping exactly when the file is built |
| Views.Get | platform_plugin_elm_credentials/api/views.py:83-149 | the answer is the reply for the request's plan. The shared table is unchanged on refusal and has gained the mapping on delivery |

## Left out

- Course keys, the module store, the two course roles, user lookup, certificates and enrollments are lookups into the platform. They are modelled as the fields of a `Host` value: a set of valid keys, and maps from keys to results.
- Authentication and the permission classes are not modelled: the requester is given.
- Validation of the query parameters is given. A request carries either the validated `QueryParamsModel` or the field errors. `pydantic_error_to_response`, which the view imports from `api/utils.py`, is not defined there, so the error map arrives already built.
- CredentialBuilding.CredentialBuilder.Build, Views.CreateCredential, Views.GenerateBulkCredentials, Views.GenerateSingleCredential, Views.Get: as written, the source raises a `ValidationError` at `credential_builder.py:128`, and the view module fails to import at `views.py:20`. These contracts describe the program with the three required-field checks lifted (the issuer `id`, the claim's `proven_by` and `specified_by`) and the import resolved. That includes the update of the shared language table, which as written is never reached. The model keeps those fields optional and unset; `MissingRequired`, `BuildLeavesRequiredUnset` and `RequiredAbsentInDocument` name what validation would reject.
- The body id comes from `uuid4()`, evaluated once when `ELMBody` is defined. It is the constant `CREDENTIAL_UUID`, whose value is not known.
- The default factories read the clock (`get_current_datetime`). The three readings are a `BodyDefaults` parameter, read once per request here, where the source reads them for each credential.
- `model_dump_json(indent=2, ...)` renders text. The model keeps the validated model with its defaults (`Credential`), and its document is the JSON tree that the text denotes. Whitespace and escaping are not modelled.
- ZIP bytes, the `BytesIO` buffer and the `HttpResponse` headers are not modelled. The archive is its name and its ordered members, and the inline answer is the list of credentials, written unchanged.
- Course settings other than strings are not modelled. An `expired_at` parameter that is not a string counts as absent. The dumped query never holds `expired_at` anyway.
- Strings are Python `str` as sequences of characters. `Repr` models only the escapes of quotes, backslashes, newline, carriage return and tab, so the message lemmas are stated only for ids of printable ASCII without a quote or backslash.
- Strings.Capitalize, Strings.LowerAll: case mapping is ASCII only, where Python's maps all of Unicode (`'ß'.capitalize()` is `'Ss'`). This does no harm here: `to_camel` only receives the declared ASCII field names.
- Utils.OffsetText, Utils.ToIsoFormat: a UTC offset is a whole number of seconds. `isoformat` would add `.ffffff` to an offset with microseconds, but `timezone.now()` and a parsed expiry never carry one.
- `CredentialBuilding.CredentialBuilder.FullName` has no contract of its own: it is the profile name, and `NamesInDocument` states where it appears.
- The settings modules and the app configuration in `apps.py`, `urls.py` and `settings/` (URL routing, plugin registration) are not part of this model.
