/**
 * The requests each vips_api.py call issues: its endpoint (built with
 * `build_endpoint` from a fixed segment order), its credentials, and for
 * `application_create` the JSON payload built from the keyword arguments.
 */
module Requests {
  import opened Endpoints

  /** The configuration values the client reads. */
  datatype Config = Config(rootUrl: string, username: string, password: string)

  /** A keyword-argument value as the payload sees it: Python `None`, or a string. */
  datatype Arg = Null | Str(s: string)

  /** `applicationInfo` of the `application_create` payload (vips_api.py:73-85). */
  datatype ApplicationInfo = ApplicationInfo(
    email: Arg,
    faxNo: Arg,
    firstGivenNm: Arg,
    formData: Arg,
    manualEntryYN: Arg,
    noticeSubjectCd: Arg,
    phoneNo: Arg,
    presentationTypeCd: Arg,
    reviewRoleTypeCd: Arg,
    secondGivenNm: Arg,
    surnameNm: Arg)

  datatype Payload = Payload(applicationInfo: ApplicationInfo)

  datatype Request =
    | HttpGet(endpoint: string, user: string, password: string)
    | HttpPost(endpoint: string, user: string, password: string, payload: Payload)

  // ----- requests -----

  function StatusRequest(config: Config, prohibitionId: string, correlationId: string): Request {
    HttpGet(StatusEndpoint(config.rootUrl, prohibitionId, correlationId), config.username, config.password)
  }

  function PaymentRequest(config: Config, prohibitionId: string, correlationId: string): Request {
    HttpGet(PaymentEndpoint(config.rootUrl, prohibitionId, correlationId), config.username, config.password)
  }

  function DisclosureRequest(config: Config, documentId: string, correlationId: string): Request {
    HttpGet(DisclosureEndpoint(config.rootUrl, documentId, correlationId), config.username, config.password)
  }

  /** Both `application_get` and `application_update` issue this GET. */
  function ApplicationGetRequest(config: Config, guid: string, correlationId: string): Request {
    HttpGet(ApplicationEndpoint(config.rootUrl, guid, correlationId), config.username, config.password)
  }

  function ScheduleRequest(config: Config, noticeTypeCode: string, reviewTypeCode: string, reviewDate: string, correlationId: string): Request {
    HttpGet(ScheduleEndpoint(config.rootUrl, noticeTypeCode, reviewTypeCode, reviewDate, correlationId), config.username, config.password)
  }

  function HealthRequest(config: Config): Request {
    HttpGet(HealthEndpoint(config.rootUrl), config.username, config.password)
  }

  // ----- the application_create payload -----

  /** `args.get(key)`: the argument if it was passed (possibly `None`), else `None`. */
  function ArgOr(args: map<string, Arg>, key: string, default: Arg): (v: Arg)
    ensures key in args ==> v == args[key]
    ensures key !in args ==> v == default
  {
    if key in args then args[key] else default
  }

  /** The keyword arguments `application_create` reads. */
  const KnownKeys: set<string> := {
    "email", "fax", "first_name", "form_date", "manual_entry", "notice_subject_type",
    "phone", "presentation_type", "applicant_role", "middle_name", "last_name"
  }

  /** The payload literal of vips_api.py:72-86: two defaults, every other field nullable. */
  function ApplicationPayload(args: map<string, Arg>): Payload {
    Payload(ApplicationInfo(
      email := ArgOr(args, "email", Null),
      faxNo := ArgOr(args, "fax", Null),
      firstGivenNm := ArgOr(args, "first_name", Null),
      formData := ArgOr(args, "form_date", Null),
      manualEntryYN := ArgOr(args, "manual_entry", Str("N")),
      noticeSubjectCd := ArgOr(args, "notice_subject_type", Str("PERS")),
      phoneNo := ArgOr(args, "phone", Null),
      presentationTypeCd := ArgOr(args, "presentation_type", Null),
      reviewRoleTypeCd := ArgOr(args, "applicant_role", Null),
      secondGivenNm := ArgOr(args, "middle_name", Null),
      surnameNm := ArgOr(args, "last_name", Null)))
  }

  /** `application_create`'s POST (vips_api.py:70-87). */
  function ApplicationCreateRequest(config: Config, formType: string, prohibitionId: string, correlationId: string,
                                    args: map<string, Arg>): Request {
    HttpPost(ApplicationCreateEndpoint(config.rootUrl, formType, prohibitionId, correlationId),
             config.username, config.password, ApplicationPayload(args))
  }

  // ----- properties -----

  /** Every request carries the configured credentials and an endpoint under the root URL. */
  lemma RequestsUseConfig(config: Config, a: string, b: string, c: string, d: string, args: map<string, Arg>)
    ensures var all := [StatusRequest(config, a, b), PaymentRequest(config, a, b), DisclosureRequest(config, a, b),
                        ApplicationGetRequest(config, a, b), ScheduleRequest(config, a, b, c, d), HealthRequest(config),
                        ApplicationCreateRequest(config, a, b, c, args)];
      forall i :: 0 <= i < |all| ==>
        all[i].user == config.username && all[i].password == config.password
        && config.rootUrl + "/" <= all[i].endpoint
  {
  }

  /** Absent `manual_entry` and `notice_subject_type` default to "N" and "PERS"; an explicit `None` is kept. */
  lemma PayloadDefaults(args: map<string, Arg>)
    ensures ApplicationPayload(args).applicationInfo.manualEntryYN
            == (if "manual_entry" in args then args["manual_entry"] else Str("N"))
    ensures ApplicationPayload(args).applicationInfo.noticeSubjectCd
            == (if "notice_subject_type" in args then args["notice_subject_type"] else Str("PERS"))
    ensures ApplicationPayload(map[]).applicationInfo
            == ApplicationInfo(Null, Null, Null, Null, Str("N"), Str("PERS"), Null, Null, Null, Null, Null)
  {
  }

  /** Each other field is its own argument, or null when that argument is absent. */
  lemma PayloadFieldsFromArguments(args: map<string, Arg>)
    ensures var info := ApplicationPayload(args).applicationInfo;
      && info.email == ArgOr(args, "email", Null)
      && info.faxNo == ArgOr(args, "fax", Null)
      && info.firstGivenNm == ArgOr(args, "first_name", Null)
      && info.formData == ArgOr(args, "form_date", Null)
      && info.phoneNo == ArgOr(args, "phone", Null)
      && info.presentationTypeCd == ArgOr(args, "presentation_type", Null)
      && info.reviewRoleTypeCd == ArgOr(args, "applicant_role", Null)
      && info.secondGivenNm == ArgOr(args, "middle_name", Null)
      && info.surnameNm == ArgOr(args, "last_name", Null)
  {
  }

  /** Keyword arguments other than the eleven it reads have no effect on the payload. */
  lemma PayloadIgnoresUnknownArguments(args: map<string, Arg>, extra: map<string, Arg>)
    requires extra.Keys !! KnownKeys
    ensures ApplicationPayload(args + extra) == ApplicationPayload(args)
  {
  }

  /** The payload determines every argument that was passed among those it reads. */
  lemma PayloadInjective(a: map<string, Arg>, b: map<string, Arg>)
    requires a.Keys == b.Keys == KnownKeys
    requires ApplicationPayload(a) == ApplicationPayload(b)
    ensures a == b
  {
    forall k | k in KnownKeys ensures a[k] == b[k] {
      var x, y := ApplicationPayload(a).applicationInfo, ApplicationPayload(b).applicationInfo;
      assert x == y;
    }
  }
}
