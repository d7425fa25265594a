/**
 * `ElmCredentialBuilderAPIView.get`: checks the course key, the course, the
 * requester's access and the query parameters, in that order; then builds one
 * credential for a named learner, or one for every enrolled learner with a
 * certificate; and answers with a ZIP archive of the credential files or, for
 * a single learner who asked for no file, with the credential itself.
 *
 * The host platform's lookups (course key parsing, the course catalogue, the
 * two course roles, users, certificates and enrollments) are the fields of a
 * `Host` value. The query's validation is given: either the validated
 * parameters or the field errors it reported.
 */
module Views {
  import opened Wrappers
  import opened Strings
  import opened JsonValues
  import opened Utils
  import opened Serializers
  import opened CredentialBuilding

  // ---------------------------------------------------------------------------
  // The host platform

  datatype Host = Host(
    /** The course ids `CourseKey.from_string` accepts. */
    validCourseKeys: set<string>,
    /** `modulestore().get_course`, by course id. */
    courses: map<string, CourseBlock>,
    /** `(course id, username)` pairs holding `CourseStaffRole`. */
    courseStaff: set<(string, string)>,
    /** `(course id, username)` pairs holding `CourseInstructorRole`. */
    courseInstructors: set<(string, string)>,
    /** `get_user_by_username_or_email`: the user a name or address resolves to. */
    users: map<string, User>,
    /** `GeneratedCertificate.certificate_for_student`, by `(username, course id)`. */
    certificates: map<(string, string), Certificate>,
    /** `get_user_enrollments`: the enrolled users of a course, in order. */
    enrollments: map<string, seq<User>>)

  /** The enrolled users of a course; none for a course without enrollments. */
  function EnrolledUsers(host: Host, courseId: string): seq<User> {
    if courseId in host.enrollments then host.enrollments[courseId] else []
  }

  /** The query string after validation: the parameters, or the errors by field. */
  datatype QueryInput = Parsed(params: QueryParams) | Rejected(fieldErrors: seq<(string, string)>)

  // ---------------------------------------------------------------------------
  // Ordered dictionaries (a Python `dict` keeps insertion order)

  /** The values of a dictionary, in order (`d.values()`). */
  function Values<T>(d: seq<(string, T)>): (r: seq<T>)
    ensures |r| == |d|
    ensures forall i :: 0 <= i < |d| ==> r[i] == d[i].1
  {
    if d == [] then [] else [d[0].1] + Values(d[1..])
  }

  /**
   * `d[key] = value`: an existing key keeps its place and takes the new
   * value; a new key is appended.
   */
  function Put<T>(d: seq<(string, T)>, key: string, value: T): (r: seq<(string, T)>)
    ensures r != []
    ensures Keys(r) == if key in Keys(d) then Keys(d) else Keys(d) + [key]
  {
    if d == [] then [(key, value)]
    else if d[0].0 == key then [(key, value)] + d[1..]
    else
      var rest := Put(d[1..], key, value);
      assert Keys(d) == [d[0].0] + Keys(d[1..]);
      assert Keys([d[0]] + rest) == [d[0].0] + Keys(rest);
      [d[0]] + rest
  }

  /** After `d[key] = value`, `key` finds `value` and every other key finds what it found before. */
  lemma {:induction false} PutLookup<T>(d: seq<(string, T)>, key: string, value: T, k: string)
    ensures Lookup(Put(d, key, value), k) == if k == key then Some(value) else Lookup(d, k)
  {
    if d != [] && d[0].0 != key {
      PutLookup(d[1..], key, value, k);
    }
  }

  /** The same dictionary with `f` applied to every value. */
  function MapValues<A, B>(d: seq<(string, A)>, f: A -> B): (r: seq<(string, B)>)
    ensures Keys(r) == Keys(d)
  {
    if d == [] then [] else [(d[0].0, f(d[0].1))] + MapValues(d[1..], f)
  }

  /** Every value of the mapped dictionary is `f` of the value under the same key. */
  lemma {:induction false} MapValuesAt<A, B>(d: seq<(string, A)>, f: A -> B, i: nat)
    requires i < |d|
    ensures |MapValues(d, f)| == |d| && MapValues(d, f)[i] == (d[i].0, f(d[i].1))
  {
    if i > 0 {
      MapValuesAt(d[1..], f, i - 1);
    }
  }

  /** Assigning, then mapping, is mapping, then assigning the mapped value. */
  lemma {:induction false} MapValuesPut<A, B>(d: seq<(string, A)>, key: string, value: A, f: A -> B)
    ensures MapValues(Put(d, key, value), f) == Put(MapValues(d, f), key, f(value))
  {
    if d != [] && d[0].0 != key {
      MapValuesPut(d[1..], key, value, f);
      assert MapValues(d, f)[1..] == MapValues(d[1..], f);
    }
  }

  /** Assignment keeps a dictionary's keys distinct. */
  lemma PutDistinct<T>(d: seq<(string, T)>, key: string, value: T)
    requires Distinct(Keys(d))
    ensures Distinct(Keys(Put(d, key, value)))
  {
  }

  // ---------------------------------------------------------------------------
  // Who may ask, and for whom

  /** `is_staff`, or the course staff role, or the course instructor role. */
  predicate HasAccess(host: Host, requester: User, courseId: string) {
    requester.isStaff || (courseId, requester.username) in host.courseStaff
    || (courseId, requester.username) in host.courseInstructors
  }

  /** Enrolled users that the bulk export covers: neither superusers nor staff. */
  predicate IsLearner(u: User) {
    !u.isSuperuser && !u.isStaff
  }

  /** The enrollments kept by `filter(user__is_superuser=False, user__is_staff=False)`, in order. */
  function Learners(enrolled: seq<User>): (r: seq<User>)
    ensures |r| <= |enrolled|
    ensures forall u :: u in r <==> u in enrolled && IsLearner(u)
  {
    if enrolled == [] then []
    else
      assert enrolled == [enrolled[0]] + enrolled[1..];
      (if IsLearner(enrolled[0]) then [enrolled[0]] else []) + Learners(enrolled[1..])
  }

  /** `credential_name`: `credential-<username>-<course id>.json`. */
  function CredentialName(username: string, courseId: string): string {
    "credential-" + username + "-" + courseId + ".json"
  }

  /** Within one course, different learners get different file names. */
  lemma CredentialNameInjective(a: string, b: string, courseId: string)
    requires CredentialName(a, courseId) == CredentialName(b, courseId)
    ensures a == b
  {
    var na, nb := CredentialName(a, courseId), CredentialName(b, courseId);
    assert |a| == |b|;
    assert a == na[11..11 + |a|];
    assert b == nb[11..11 + |b|];
  }

  /** The archive's name: `credentials-<course id>.zip`. */
  function ZipName(courseId: string): string {
    "credentials-" + courseId + ".zip"
  }

  // ---------------------------------------------------------------------------
  // Which credentials a request produces

  /** What one credential file is built from: the learner and their certificate. */
  datatype Issue = Issue(user: User, certificate: Certificate)

  /** The result of generating credentials: a refusal, or the files by name. */
  datatype Generation<T> = Refused(response: Response) | Generated(files: seq<(string, T)>)

  /** Whether the learner has a certificate for the course (`if certificate:`). */
  predicate Certified(certificates: map<(string, string), Certificate>, u: User, courseId: string) {
    (u.username, courseId) in certificates
  }

  /**
   * The `credentials` dictionary after the bulk loop has visited `learners`:
   * each certified learner's file, assigned in visiting order.
   */
  function BulkIssues(learners: seq<User>, certificates: map<(string, string), Certificate>, courseId: string)
    : seq<(string, Issue)>
  {
    if learners == [] then []
    else
      var prior := BulkIssues(learners[..|learners| - 1], certificates, courseId);
      var u := learners[|learners| - 1];
      if Certified(certificates, u, courseId)
      then Put(prior, CredentialName(u.username, courseId), Issue(u, certificates[(u.username, courseId)]))
      else prior
  }

  /** The bulk dictionary has exactly one key per certified learner, and no key twice. */
  lemma {:induction false} BulkNames(
    learners: seq<User>, certificates: map<(string, string), Certificate>, courseId: string)
    ensures Distinct(Keys(BulkIssues(learners, certificates, courseId)))
    ensures forall name :: name in Keys(BulkIssues(learners, certificates, courseId)) <==>
      exists u :: u in learners && Certified(certificates, u, courseId) && name == CredentialName(u.username, courseId)
  {
    if learners != [] {
      var init := learners[..|learners| - 1];
      var u := learners[|learners| - 1];
      var prior := BulkIssues(init, certificates, courseId);
      BulkNames(init, certificates, courseId);
      assert learners == init + [u];
      if Certified(certificates, u, courseId) {
        PutDistinct(prior, CredentialName(u.username, courseId), Issue(u, certificates[(u.username, courseId)]));
      }
    }
  }

  /** The bulk dictionary is empty exactly when no learner has a certificate. */
  lemma BulkEmpty(learners: seq<User>, certificates: map<(string, string), Certificate>, courseId: string)
    ensures BulkIssues(learners, certificates, courseId) == [] <==>
      forall u :: u in learners ==> !Certified(certificates, u, courseId)
  {
    BulkNames(learners, certificates, courseId);
    var files := BulkIssues(learners, certificates, courseId);
    if files != [] {
      assert Keys(files)[0] in Keys(files);
    }
    forall u | u in learners && Certified(certificates, u, courseId)
      ensures files != []
    {
      assert CredentialName(u.username, courseId) in Keys(files);
    }
  }

  /**
   * A certified learner's file holds that learner's credential, as long as
   * no later learner shares the username (a later assignment would replace it).
   */
  lemma {:induction false} BulkEntry(
    learners: seq<User>, certificates: map<(string, string), Certificate>, courseId: string, i: nat)
    requires i < |learners| && Certified(certificates, learners[i], courseId)
    requires forall j :: i < j < |learners| ==> learners[j].username != learners[i].username
    ensures var u := learners[i];
      Lookup(BulkIssues(learners, certificates, courseId), CredentialName(u.username, courseId))
        == Some(Issue(u, certificates[(u.username, courseId)]))
  {
    var init := learners[..|learners| - 1];
    var last := learners[|learners| - 1];
    var name := CredentialName(learners[i].username, courseId);
    if i < |learners| - 1 {
      assert init[i] == learners[i];
      BulkEntry(init, certificates, courseId, i);
      if Certified(certificates, last, courseId) {
        var other := CredentialName(last.username, courseId);
        if other == name {
          CredentialNameInjective(last.username, learners[i].username, courseId);
        }
        PutLookup(BulkIssues(init, certificates, courseId), other, Issue(last, certificates[(last.username, courseId)]), name);
      }
    } else {
      PutLookup(BulkIssues(init, certificates, courseId), name, Issue(last, certificates[(last.username, courseId)]), name);
    }
  }

  /** One more visited learner: their file is assigned when they have a certificate. */
  lemma BulkStep(learners: seq<User>, certificates: map<(string, string), Certificate>, courseId: string, i: nat)
    requires i < |learners|
    ensures var u := learners[i];
      var prior := BulkIssues(learners[..i], certificates, courseId);
      BulkIssues(learners[..i + 1], certificates, courseId)
        == if Certified(certificates, u, courseId)
           then Put(prior, CredentialName(u.username, courseId), Issue(u, certificates[(u.username, courseId)]))
           else prior
  {
    assert learners[..i + 1][..i] == learners[..i];
  }

  /** `generate_bulk_credentials`, on the builder's inputs. */
  function BulkGeneration(host: Host, courseId: string): Generation<Issue> {
    var files := BulkIssues(Learners(EnrolledUsers(host, courseId)), host.certificates, courseId);
    if files == [] then Refused(ApiError("No credentials found for course_id=" + Repr(courseId) + ".", HTTP_404_NOT_FOUND))
    else Generated(files)
  }

  /** `generate_single_credential`, on the builder's inputs. */
  function SingleGeneration(host: Host, username: string, courseId: string): Generation<Issue> {
    if username !in host.users then
      Refused(ApiFieldErrors([("username", "The username='" + username + "' does not exist.")], HTTP_404_NOT_FOUND))
    else
      var user := host.users[username];
      if !Certified(host.certificates, user, courseId) then
        Refused(ApiError("The user " + user.username + " does not have certificate for course_id=" + Repr(courseId) + ".",
                         HTTP_404_NOT_FOUND))
      else
        Generated([(CredentialName(user.username, courseId), Issue(user, host.certificates[(user.username, courseId)]))])
  }

  /** `query_params.get(key)` of the dumped parameters, as an optional string. */
  function ParamString(params: map<string, ParamValue>, key: string): Option<string> {
    if key in params && params[key].PString? then Some(params[key].s) else None
  }

  /** Python truthiness of `query_params.get(key)`. */
  predicate ParamTruthy(params: map<string, ParamValue>, key: string) {
    key in params && match params[key]
      case PNone => false
      case PString(s) => s != ""
      case PBool(b) => b
  }

  /** The dumped username is the validated one, and `to_file` is truthy exactly when it is set. */
  lemma DumpedParams(q: QueryParams)
    ensures ParamString(ModelDump(q), "username") == q.username
    ensures ParamTruthy(ModelDump(q), "to_file") <==> q.toFile
  {
  }

  /**
   * What the view does with a request: refuse it, or deliver the credential
   * files, each named by what it is built from, for this course and these
   * dumped parameters.
   */
  datatype Plan =
    | Refuse(response: Response)
    | Deliver(course: CourseBlock, params: map<string, ParamValue>, files: seq<(string, Issue)>, zipped: bool)

  function InvalidKeyResponse(courseId: string): Response {
    ApiFieldErrors([("course_id", "The supplied course_id=" + Repr(courseId) + " key is not valid.")], HTTP_400_BAD_REQUEST)
  }

  function CourseNotFoundResponse(courseId: string): Response {
    ApiFieldErrors([("course_id", "The course with course_id=" + Repr(courseId) + " is not found.")], HTTP_404_NOT_FOUND)
  }

  const FORBIDDEN_RESPONSE := ApiError("The user does not have access to generate credentials.", HTTP_403_FORBIDDEN)

  /** `get`, up to building the credential documents. */
  function PlanRequest(host: Host, requester: User, courseId: string, query: QueryInput): Plan {
    if courseId !in host.validCourseKeys then Refuse(InvalidKeyResponse(courseId))
    else if courseId !in host.courses then Refuse(CourseNotFoundResponse(courseId))
    else if !HasAccess(host, requester, courseId) then Refuse(FORBIDDEN_RESPONSE)
    else if query.Rejected? then Refuse(ApiFieldErrors(query.fieldErrors, HTTP_400_BAD_REQUEST))
    else
      var params := ModelDump(query.params);
      var username := ParamString(params, "username");
      var generated := if !Truthy(username) then BulkGeneration(host, courseId)
                       else SingleGeneration(host, username.value, courseId);
      match generated
      case Refused(response) => Refuse(response)
      case Generated(files) =>
        Deliver(host.courses[courseId], params, files, !Truthy(username) || ParamTruthy(params, "to_file"))
  }

  /** The checks that precede generation all pass. */
  predicate Admitted(host: Host, requester: User, courseId: string, query: QueryInput) {
    courseId in host.validCourseKeys && courseId in host.courses && HasAccess(host, requester, courseId)
    && query.Parsed?
  }

  /** Whether the request names a learner (else it is a bulk request). */
  predicate NamesLearner(query: QueryInput)
    requires query.Parsed?
  {
    Truthy(query.params.username)
  }

  /**
   * The checks run in order and the first failing one decides: a bad key is
   * 400 whatever else holds, a missing course 404, no access 403, invalid
   * parameters 400 with their field errors.
   */
  lemma CheckOrder(host: Host, requester: User, courseId: string, query: QueryInput)
    ensures courseId !in host.validCourseKeys ==>
      PlanRequest(host, requester, courseId, query) == Refuse(InvalidKeyResponse(courseId))
    ensures courseId in host.validCourseKeys && courseId !in host.courses ==>
      PlanRequest(host, requester, courseId, query) == Refuse(CourseNotFoundResponse(courseId))
    ensures courseId in host.validCourseKeys && courseId in host.courses && !HasAccess(host, requester, courseId) ==>
      PlanRequest(host, requester, courseId, query) == Refuse(FORBIDDEN_RESPONSE)
    ensures courseId in host.validCourseKeys && courseId in host.courses && HasAccess(host, requester, courseId)
      && query.Rejected?
      ==> PlanRequest(host, requester, courseId, query) == Refuse(ApiFieldErrors(query.fieldErrors, HTTP_400_BAD_REQUEST))
  {
  }

  /** Generation refuses only with 404. */
  lemma GenerationRefusals(host: Host, username: string, courseId: string)
    ensures BulkGeneration(host, courseId).Refused? ==> BulkGeneration(host, courseId).response.status == HTTP_404_NOT_FOUND
    ensures SingleGeneration(host, username, courseId).Refused? ==>
      SingleGeneration(host, username, courseId).response.status == HTTP_404_NOT_FOUND
  {
  }

  /** A 403 answers exactly the requests that pass the key and course checks but lack access. */
  lemma ForbiddenIff(host: Host, requester: User, courseId: string, query: QueryInput)
    ensures var p := PlanRequest(host, requester, courseId, query);
      p.Refuse? && p.response.status == HTTP_403_FORBIDDEN <==>
        courseId in host.validCourseKeys && courseId in host.courses && !HasAccess(host, requester, courseId)
  {
    if Admitted(host, requester, courseId, query) {
      var username := ParamString(ModelDump(query.params), "username");
      GenerationRefusals(host, if username.Some? then username.value else "", courseId);
    }
  }

  /** A 400 answers exactly the requests with a bad key, or with invalid parameters once the other checks pass. */
  lemma BadRequestIff(host: Host, requester: User, courseId: string, query: QueryInput)
    ensures var p := PlanRequest(host, requester, courseId, query);
      p.Refuse? && p.response.status == HTTP_400_BAD_REQUEST <==>
        courseId !in host.validCourseKeys
        || (courseId in host.courses && HasAccess(host, requester, courseId) && query.Rejected?)
  {
    if Admitted(host, requester, courseId, query) {
      var username := ParamString(ModelDump(query.params), "username");
      GenerationRefusals(host, if username.Some? then username.value else "", courseId);
    }
  }

  /** Every refusal is a 400, a 403 or a 404. */
  lemma RefusalStatus(host: Host, requester: User, courseId: string, query: QueryInput)
    ensures var p := PlanRequest(host, requester, courseId, query);
      p.Refuse? ==> p.response.status in {HTTP_400_BAD_REQUEST, HTTP_403_FORBIDDEN, HTTP_404_NOT_FOUND}
  {
    if Admitted(host, requester, courseId, query) {
      var username := ParamString(ModelDump(query.params), "username");
      GenerationRefusals(host, if username.Some? then username.value else "", courseId);
    }
  }

  /** A bulk request delivers exactly when some learner has a certificate; then it always zips. */
  lemma BulkOutcome(host: Host, requester: User, courseId: string, query: QueryInput)
    requires Admitted(host, requester, courseId, query) && !NamesLearner(query)
    ensures var p := PlanRequest(host, requester, courseId, query);
      var learners := Learners(EnrolledUsers(host, courseId));
      && (p.Deliver? <==> exists u :: u in learners && Certified(host.certificates, u, courseId))
      && (p.Deliver? ==> p.zipped && p.files == BulkIssues(learners, host.certificates, courseId))
      && (p.Refuse? ==> p.response == ApiError("No credentials found for course_id=" + Repr(courseId) + ".", HTTP_404_NOT_FOUND))
  {
    DumpedParams(query.params);
    BulkEmpty(Learners(EnrolledUsers(host, courseId)), host.certificates, courseId);
  }

  /**
   * A request naming a learner: unknown names and missing certificates are
   * 404; otherwise one file, zipped exactly when `to_file` is set.
   */
  lemma SingleOutcome(host: Host, requester: User, courseId: string, query: QueryInput)
    requires Admitted(host, requester, courseId, query) && NamesLearner(query)
    ensures var p := PlanRequest(host, requester, courseId, query);
      var username := query.params.username.value;
      && (username !in host.users ==>
            p == Refuse(ApiFieldErrors([("username", "The username='" + username + "' does not exist.")], HTTP_404_NOT_FOUND)))
      && (username in host.users && !Certified(host.certificates, host.users[username], courseId) ==>
            p.Refuse? && p.response.status == HTTP_404_NOT_FOUND
            && FirstError(p.response) == Some("The user " + host.users[username].username
                                               + " does not have certificate for course_id=" + Repr(courseId) + "."))
      && (username in host.users && Certified(host.certificates, host.users[username], courseId) ==>
            var u := host.users[username];
            p == Deliver(host.courses[courseId], ModelDump(query.params),
                         [(CredentialName(u.username, courseId), Issue(u, host.certificates[(u.username, courseId)]))],
                         query.params.toFile))
  {
    DumpedParams(query.params);
  }

  /** The answer is an archive exactly when no learner is named or a file was asked for. */
  lemma ZippedIff(host: Host, requester: User, courseId: string, query: QueryInput)
    requires PlanRequest(host, requester, courseId, query).Deliver?
    ensures Admitted(host, requester, courseId, query)
    ensures PlanRequest(host, requester, courseId, query).zipped <==> !NamesLearner(query) || query.params.toFile
  {
    DumpedParams(query.params);
  }

  /** For a course id of printable ASCII without quotes or backslashes, the 400 names it in single quotes. */
  lemma InvalidKeyMessage(courseId: string)
    requires forall i :: 0 <= i < |courseId| ==> PlainChar(courseId[i])
    ensures InvalidKeyResponse(courseId).status == HTTP_400_BAD_REQUEST
    ensures At(InvalidKeyResponse(courseId).data, ["field_errors", "course_id"])
      == Some(JString("The supplied course_id='" + courseId + "' key is not valid."))
  {
    ReprOfPlain(courseId);
    assert "The supplied course_id=" + Repr(courseId) + " key is not valid."
        == "The supplied course_id='" + courseId + "' key is not valid.";
  }

  /** Likewise the missing-course 404. */
  lemma CourseNotFoundMessage(courseId: string)
    requires forall i :: 0 <= i < |courseId| ==> PlainChar(courseId[i])
    ensures CourseNotFoundResponse(courseId).status == HTTP_404_NOT_FOUND
    ensures At(CourseNotFoundResponse(courseId).data, ["field_errors", "course_id"])
      == Some(JString("The course with course_id='" + courseId + "' is not found."))
  {
    ReprOfPlain(courseId);
    assert "The course with course_id=" + Repr(courseId) + " is not found."
        == "The course with course_id='" + courseId + "' is not found.";
  }

  /** For a course id of printable ASCII without quotes or backslashes, the bulk 404 quotes it as is. */
  lemma NoCredentialsMessage(courseId: string)
    requires forall i :: 0 <= i < |courseId| ==> PlainChar(courseId[i])
    ensures FirstError(ApiError("No credentials found for course_id=" + Repr(courseId) + ".", HTTP_404_NOT_FOUND))
      == Some("No credentials found for course_id='" + courseId + "'.")
  {
    ReprOfPlain(courseId);
    assert "No credentials found for course_id=" + Repr(courseId) + "."
        == "No credentials found for course_id='" + courseId + "'.";
  }

  // ---------------------------------------------------------------------------
  // The credential files

  /**
   * `ELMCredentialModel(**credential_builder.build())`: the validated model,
   * with the values its defaulted fields took. The file content is its JSON
   * text; `Document` is the tree that text denotes.
   */
  datatype Credential = Credential(model: ElmCredentialModel, defaults: BodyDefaults) {
    function Document(): Json {
      ElmCredentialJson(model, defaults)
    }
  }

  /** What every credential of one request shares: the course, the dumped parameters, the settings, the clock. */
  datatype Context = Context(
    course: CourseBlock, params: map<string, ParamValue>, settings: DjangoSettings,
    table: map<string, string>, defaults: BodyDefaults)

  /** The credential the builder makes for a learner in `ctx`. */
  function Content(ctx: Context, issue: Issue): Credential {
    Credential(
      Assemble(ctx.course, issue.user, issue.certificate, ctx.params,
               CountryCodeFor(ctx.course, ctx.settings), PrimaryLanguageFor(ctx.course, ctx.settings, ctx.table)),
      ctx.defaults)
  }

  /** Its document is the one the builder's inputs determine. */
  lemma ContentDocument(ctx: Context, issue: Issue)
    ensures Content(ctx, issue).Document()
      == CredentialDocument(ctx.course, issue.user, issue.certificate, ctx.params, ctx.settings, ctx.table, ctx.defaults)
  {
  }

  function Contents(ctx: Context): Issue -> Credential {
    issue => Content(ctx, issue)
  }

  /** A generation with every file's content serialised. */
  function Rendered(g: Generation<Issue>, ctx: Context): Generation<Credential> {
    match g
    case Refused(response) => Refused(response)
    case Generated(files) => Generated(MapValues(files, Contents(ctx)))
  }

  /** The view's answer. */
  datatype Reply =
    | Failed(response: Response)
    /** `to_zip`: an attachment named `filename` holding the files in order. */
    | ZipFile(filename: string, entries: seq<(string, Credential)>)
    /** `HttpResponse(json_data.values())`. */
    | Inline(contents: seq<Credential>)

  /**
   * The context a plan's credentials are built in: its course and parameters,
   * and the shared table after the configured mapping is merged into it.
   */
  function DeliveryContext(plan: Plan, settings: DjangoSettings, table: map<string, string>, defaults: BodyDefaults)
    : Context
    requires plan.Deliver?
  {
    Context(plan.course, plan.params, settings, table + MappingOf(settings), defaults)
  }

  /** The answer for a plan, when the shared table starts as `table`. */
  function Respond(plan: Plan, courseId: string, settings: DjangoSettings, table: map<string, string>, defaults: BodyDefaults)
    : Reply
  {
    match plan
    case Refuse(response) => Failed(response)
    case Deliver(_, _, files, zipped) =>
      var credentials := MapValues(files, Contents(DeliveryContext(plan, settings, table, defaults)));
      if zipped then ZipFile(ZipName(courseId), credentials) else Inline(Values(credentials))
  }

  /** A delivery is for the requested course, with the validated parameters dumped. */
  lemma DeliveryInputs(host: Host, requester: User, courseId: string, query: QueryInput)
    requires PlanRequest(host, requester, courseId, query).Deliver?
    ensures Admitted(host, requester, courseId, query)
    ensures PlanRequest(host, requester, courseId, query).course == host.courses[courseId]
    ensures PlanRequest(host, requester, courseId, query).params == ModelDump(query.params)
  {
  }

  /**
   * Whatever the request, no delivered credential has a validity field:
   * the dumped parameters never hold the `expired_at` the builder reads.
   */
  lemma DeliveredNeverExpire(
    host: Host, requester: User, courseId: string, query: QueryInput, settings: DjangoSettings,
    table: map<string, string>, defaults: BodyDefaults, i: nat)
    requires PlanRequest(host, requester, courseId, query).Deliver?
    requires i < |PlanRequest(host, requester, courseId, query).files|
    ensures var plan := PlanRequest(host, requester, courseId, query);
      var doc := Content(DeliveryContext(plan, settings, table, defaults), plan.files[i].1).Document();
      At(doc, ["credential", "validUntil"]) == None && At(doc, ["credential", "expirationDate"]) == None
  {
    var plan := PlanRequest(host, requester, courseId, query);
    var issue := plan.files[i].1;
    var ctx := DeliveryContext(plan, settings, table, defaults);
    DeliveryInputs(host, requester, courseId, query);
    NoValidityFromQuery(ctx.course, issue.user, issue.certificate, query.params,
      CountryCodeFor(ctx.course, settings), PrimaryLanguageFor(ctx.course, settings, ctx.table), defaults);
  }

  /**
   * Every credential a reply carries, zipped or inline, has the same id:
   * the one the process formed when `ELMBody` was defined. Two replies, of
   * the same request or of different ones, therefore never differ in it.
   */
  lemma ReplySharesCredentialId(
    plan: Plan, courseId: string, settings: DjangoSettings, table: map<string, string>, defaults: BodyDefaults)
    ensures var r := Respond(plan, courseId, settings, table, defaults);
      (r.ZipFile? ==> forall i :: 0 <= i < |r.entries| ==>
        At(r.entries[i].1.Document(), ["credential", "id"]) == Some(JString(CredentialId(CREDENTIAL_UUID)))) &&
      (r.Inline? ==> forall i :: 0 <= i < |r.contents| ==>
        At(r.contents[i].Document(), ["credential", "id"]) == Some(JString(CredentialId(CREDENTIAL_UUID))))
  {
    var r := Respond(plan, courseId, settings, table, defaults);
    if r.ZipFile? {
      forall i | 0 <= i < |r.entries|
        ensures At(r.entries[i].1.Document(), ["credential", "id"]) == Some(JString(CredentialId(CREDENTIAL_UUID)))
      {
        CredentialIdInDocument(r.entries[i].1.model, r.entries[i].1.defaults);
      }
    }
    if r.Inline? {
      forall i | 0 <= i < |r.contents|
        ensures At(r.contents[i].Document(), ["credential", "id"]) == Some(JString(CredentialId(CREDENTIAL_UUID)))
      {
        CredentialIdInDocument(r.contents[i].model, r.contents[i].defaults);
      }
    }
  }

  // ---------------------------------------------------------------------------
  // The view

  /** The archive `zipfile` writes into. */
  class ZipArchive {
    var entries: seq<(string, Credential)>

    constructor ()
      ensures entries == []
    {
      entries := [];
    }

    /** `writestr`: appends one member. */
    method WriteStr(name: string, content: Credential)
      modifies this
      ensures entries == old(entries) + [(name, content)]
    {
      entries := entries + [(name, content)];
    }
  }

  /** `to_zip`: writes every file, in order, into an archive named after the course. */
  method ToZip(courseId: string, jsonData: seq<(string, Credential)>) returns (r: Reply)
    ensures r == ZipFile(ZipName(courseId), jsonData)
  {
    var zipf := new ZipArchive();
    var i := 0;
    while i < |jsonData|
      invariant 0 <= i <= |jsonData|
      invariant zipf.entries == jsonData[..i]
    {
      zipf.WriteStr(jsonData[i].0, jsonData[i].1);
      i := i + 1;
    }
    assert jsonData[..i] == jsonData;
    r := ZipFile(ZipName(courseId), zipf.entries);
  }

  /** `create_credential`: builds one credential, merging the configured mapping into the shared table. */
  method CreateCredential(
    user: User, certificate: Certificate, courseBlock: CourseBlock, additionalParams: map<string, ParamValue>,
    settings: DjangoSettings, table: LanguageCodeMap, defaults: BodyDefaults) returns (r: Credential)
    modifies table
    ensures table.entries == old(table.entries) + MappingOf(settings)
    ensures r == Content(Context(courseBlock, additionalParams, settings, table.entries, defaults), Issue(user, certificate))
  {
    var credentialBuilder := new CredentialBuilder(courseBlock, user, certificate, additionalParams, settings, table);
    var data := credentialBuilder.Build();
    r := Credential(data, defaults);
  }

  /** `generate_bulk_credentials`. */
  method GenerateBulkCredentials(
    host: Host, courseId: string, courseBlock: CourseBlock, additionalParams: map<string, ParamValue>,
    settings: DjangoSettings, table: LanguageCodeMap, defaults: BodyDefaults) returns (r: Generation<Credential>)
    modifies table
    ensures var g := BulkGeneration(host, courseId);
      && table.entries == (if g.Refused? then old(table.entries) else old(table.entries) + MappingOf(settings))
      && r == Rendered(g, Context(courseBlock, additionalParams, settings, old(table.entries) + MappingOf(settings), defaults))
  {
    ghost var t0 := table.entries;
    ghost var ctx := Context(courseBlock, additionalParams, settings, t0 + MappingOf(settings), defaults);
    var enrollments := Learners(EnrolledUsers(host, courseId));
    var credentials: seq<(string, Credential)> := [];
    ghost var issues: seq<(string, Issue)> := [];
    var i := 0;
    while i < |enrollments|
      invariant 0 <= i <= |enrollments|
      invariant issues == BulkIssues(enrollments[..i], host.certificates, courseId)
      invariant credentials == MapValues(issues, Contents(ctx))
      invariant table.entries == if issues == [] then t0 else t0 + MappingOf(settings)
    {
      var user := enrollments[i];
      BulkStep(enrollments, host.certificates, courseId, i);
      if (user.username, courseId) in host.certificates {
        var certificate := host.certificates[(user.username, courseId)];
        var jsonData := CreateCredential(user, certificate, courseBlock, additionalParams, settings, table, defaults);
        MergeIdempotent(t0, MappingOf(settings));
        assert jsonData == Contents(ctx)(Issue(user, certificate));
        MapValuesPut(issues, CredentialName(user.username, courseId), Issue(user, certificate), Contents(ctx));
        credentials := Put(credentials, CredentialName(user.username, courseId), jsonData);
        issues := Put(issues, CredentialName(user.username, courseId), Issue(user, certificate));
      }
      i := i + 1;
    }
    assert enrollments[..i] == enrollments;
    if credentials == [] {
      return Refused(ApiError("No credentials found for course_id=" + Repr(courseId) + ".", HTTP_404_NOT_FOUND));
    }
    return Generated(credentials);
  }

  /** `generate_single_credential`. */
  method GenerateSingleCredential(
    host: Host, username: string, courseId: string, courseBlock: CourseBlock,
    additionalParams: map<string, ParamValue>, settings: DjangoSettings, table: LanguageCodeMap,
    defaults: BodyDefaults) returns (r: Generation<Credential>)
    modifies table
    ensures var g := SingleGeneration(host, username, courseId);
      && table.entries == (if g.Refused? then old(table.entries) else old(table.entries) + MappingOf(settings))
      && r == Rendered(g, Context(courseBlock, additionalParams, settings, old(table.entries) + MappingOf(settings), defaults))
  {
    if username !in host.users {
      return Refused(ApiFieldErrors([("username", "The username='" + username + "' does not exist.")], HTTP_404_NOT_FOUND));
    }
    var user := host.users[username];
    if (user.username, courseId) !in host.certificates {
      return Refused(ApiError("The user " + user.username + " does not have certificate for course_id=" + Repr(courseId) + ".",
                              HTTP_404_NOT_FOUND));
    }
    var certificate := host.certificates[(user.username, courseId)];
    var jsonData := CreateCredential(user, certificate, courseBlock, additionalParams, settings, table, defaults);
    ghost var ctx := Context(courseBlock, additionalParams, settings, old(table.entries) + MappingOf(settings), defaults);
    assert jsonData == Contents(ctx)(Issue(user, certificate));
    r := Generated([(CredentialName(user.username, courseId), jsonData)]);
  }

  /** `get`: the answer the plan calls for; the shared table gains the mapping exactly when a credential is built. */
  method Get(
    host: Host, requester: User, courseId: string, query: QueryInput, settings: DjangoSettings,
    table: LanguageCodeMap, defaults: BodyDefaults) returns (r: Reply)
    modifies table
    ensures var plan := PlanRequest(host, requester, courseId, query);
      && table.entries == (if plan.Refuse? then old(table.entries) else old(table.entries) + MappingOf(settings))
      && r == Respond(plan, courseId, settings, old(table.entries), defaults)
  {
    if courseId !in host.validCourseKeys {
      return Failed(InvalidKeyResponse(courseId));
    }
    if courseId !in host.courses {
      return Failed(CourseNotFoundResponse(courseId));
    }
    var courseBlock := host.courses[courseId];
    var userHasAccess := requester.isStaff || (courseId, requester.username) in host.courseStaff
                         || (courseId, requester.username) in host.courseInstructors;
    if !userHasAccess {
      return Failed(FORBIDDEN_RESPONSE);
    }
    if query.Rejected? {
      return Failed(ApiFieldErrors(query.fieldErrors, HTTP_400_BAD_REQUEST));
    }
    var queryParams := ModelDump(query.params);
    var credentialUsername := ParamString(queryParams, "username");
    var jsonData: Generation<Credential>;
    if !Truthy(credentialUsername) {
      jsonData := GenerateBulkCredentials(host, courseId, courseBlock, queryParams, settings, table, defaults);
    } else {
      jsonData := GenerateSingleCredential(host, credentialUsername.value, courseId, courseBlock, queryParams,
                                           settings, table, defaults);
    }
    if jsonData.Refused? {
      return Failed(jsonData.response);
    }
    if !Truthy(credentialUsername) || ParamTruthy(queryParams, "to_file") {
      r := ToZip(courseId, jsonData.files);
    } else {
      r := Inline(Values(jsonData.files));
    }
  }
}
