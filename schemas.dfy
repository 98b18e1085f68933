/**
 * The acceptance rules of the two zod schemas (src/lib/schemas.ts): the
 * answers the steps collect, and the project record of the database. Each
 * schema is a parser from a JavaScript value to a typed record, as zod's
 * `safeParse` is; the URL and e-mail formats of the library are parameters.
 */
module Schemas {
  import opened Wrappers
  import opened JsValue

  /** The four jurisdictions the schema accepts ("br", "eu", "us", "global"). */
  datatype Jurisdiction = Br | Eu | Us | Global

  /** The three statuses of a project ("draft", "pending_payment", "paid"). */
  datatype Status = Draft | PendingPayment | Paid

  /** The output of `wizardAnswersSchema`. */
  datatype WizardAnswers = WizardAnswers(
    projectName: string,
    projectUrl: Option<string>,
    companyName: Option<string>,
    jurisdiction: Jurisdiction,
    collectsPersonalData: bool,
    collectsSensitiveData: bool,
    responsibleName: string,
    contactEmail: string,
    includeAsIs: bool,
    includeAnalytics: bool)

  /** The generated texts of a project, each optional. */
  datatype Documents = Documents(
    privacyPolicy: Option<string>,
    termsOfUse: Option<string>,
    cookiePolicy: Option<string>)

  /** The output of `projectSchema`; dates are milliseconds since the epoch. */
  datatype Project = Project(
    id: string,
    userId: string,
    status: Status,
    createdAt: int,
    updatedAt: int,
    data: WizardAnswers,
    documents: Option<Documents>)

  /** The formats zod checks with `.url()` and `.email()`, whose definitions are the library's. */
  datatype Formats = Formats(isUrl: string -> bool, isEmail: string -> bool)

  /** The names of the jurisdictions, as the schema spells them. */
  function JurisdictionName(j: Jurisdiction): string {
    match j
    case Br => "br"
    case Eu => "eu"
    case Us => "us"
    case Global => "global"
  }

  /** The names of the statuses, as the schema spells them. */
  function StatusName(s: Status): string {
    match s
    case Draft => "draft"
    case PendingPayment => "pending_payment"
    case Paid => "paid"
  }

  /** The values `jurisdiction` may hold. */
  const JurisdictionNames: set<Value> := {Str("br"), Str("eu"), Str("us"), Str("global")}

  /** The values `status` may hold. */
  const StatusNames: set<Value> := {Str("draft"), Str("pending_payment"), Str("paid")}

  // ---------------------------------------------------------------------
  // Field parsers, one per kind of zod field

  /** `z.string().min(n)`: a string of at least `n` UTF-16 code units. */
  function StringMin(v: Value, n: nat): (r: Option<string>)
    ensures r.Some? <==> v.Str? && Utf16Length(v.s) >= n
    ensures r.Some? ==> v == Str(r.value)
  {
    if v.Str? && Utf16Length(v.s) >= n then Some(v.s) else None
  }

  /** `z.string()`. */
  function AString(v: Value): (r: Option<string>)
    ensures r.Some? <==> v.Str?
    ensures r.Some? ==> v == Str(r.value)
  {
    if v.Str? then Some(v.s) else None
  }

  /** `z.string().optional()`: absent, or a string. */
  function OptionalString(v: Value): (r: Option<Option<string>>)
    ensures r.Some? <==> v == Undefined || v.Str?
    ensures r.Some? ==> v == (if r.value.Some? then Str(r.value.value) else Undefined)
  {
    if v == Undefined then Some(None)
    else if v.Str? then Some(Some(v.s))
    else None
  }

  /** `z.string().url().optional().or(z.literal(""))`: absent, a URL, or the empty string. */
  function OptionalUrl(v: Value, formats: Formats): (r: Option<Option<string>>)
    ensures r.Some? <==> v == Undefined || v == Str("") || (v.Str? && formats.isUrl(v.s))
    ensures r.Some? ==> v == (if r.value.Some? then Str(r.value.value) else Undefined)
  {
    if v == Undefined then Some(None)
    else if v.Str? && (formats.isUrl(v.s) || v.s == "") then Some(Some(v.s))
    else None
  }

  /** `z.boolean()`: present and a boolean. */
  function ABool(v: Value): (r: Option<bool>)
    ensures r.Some? <==> v.Bool?
    ensures r.Some? ==> v == Bool(r.value)
  {
    if v.Bool? then Some(v.b) else None
  }

  /** `z.enum(["br", "eu", "us", "global"])`. */
  function AJurisdiction(v: Value): (r: Option<Jurisdiction>)
    ensures r.Some? <==> v in JurisdictionNames
    ensures r.Some? ==> v == Str(JurisdictionName(r.value))
  {
    if v == Str("br") then Some(Br)
    else if v == Str("eu") then Some(Eu)
    else if v == Str("us") then Some(Us)
    else if v == Str("global") then Some(Global)
    else None
  }

  /** `z.enum(["draft", "pending_payment", "paid"])`. */
  function AStatus(v: Value): (r: Option<Status>)
    ensures r.Some? <==> v in StatusNames
    ensures r.Some? ==> v == Str(StatusName(r.value))
  {
    if v == Str("draft") then Some(Draft)
    else if v == Str("pending_payment") then Some(PendingPayment)
    else if v == Str("paid") then Some(Paid)
    else None
  }

  /** `z.date()`. */
  function ADate(v: Value): (r: Option<int>)
    ensures r.Some? <==> v.Date?
    ensures r.Some? ==> v == Date(r.value)
  {
    if v.Date? then Some(v.millis) else None
  }

  // ---------------------------------------------------------------------
  // The rules, stated on the raw fields

  /** An optional string field holds no value, or a string. */
  predicate OptionalStringRule(v: Value) {
    v == Undefined || v.Str?
  }

  /** The value an optional string takes in JavaScript. */
  function OptionalStr(o: Option<string>): Value {
    if o.Some? then Str(o.value) else Undefined
  }

  /** Which raw answers `wizardAnswersSchema` accepts, rule by rule. */
  ghost predicate WizardAnswersRules(f: map<string, Value>, formats: Formats) {
    // projectName and responsibleName: strings of length at least 2
    && (Field(f, "projectName").Str? && Utf16Length(Field(f, "projectName").s) >= 2)
    && (Field(f, "responsibleName").Str? && Utf16Length(Field(f, "responsibleName").s) >= 2)
    // projectUrl: absent, the empty string, or a URL
    && (Field(f, "projectUrl") == Undefined || Field(f, "projectUrl") == Str("")
        || (Field(f, "projectUrl").Str? && formats.isUrl(Field(f, "projectUrl").s)))
    // companyName: absent or a string
    && OptionalStringRule(Field(f, "companyName"))
    // jurisdiction: one of the four names
    && Field(f, "jurisdiction") in JurisdictionNames
    // the four flags: present booleans
    && Field(f, "collectsPersonalData").Bool? && Field(f, "collectsSensitiveData").Bool?
    && Field(f, "includeAsIs").Bool? && Field(f, "includeAnalytics").Bool?
    // contactEmail: an e-mail address
    && (Field(f, "contactEmail").Str? && formats.isEmail(Field(f, "contactEmail").s))
  }

  /** A typed answer record that the schema's refinements (lengths, formats) allow. */
  ghost predicate ValidWizardAnswers(a: WizardAnswers, formats: Formats) {
    && Utf16Length(a.projectName) >= 2
    && Utf16Length(a.responsibleName) >= 2
    && (a.projectUrl.None? || a.projectUrl == Some("") || formats.isUrl(a.projectUrl.value))
    && formats.isEmail(a.contactEmail)
  }

  /** The typed record `a` holds the values of the raw answers `f`. */
  ghost predicate CarriesAnswers(f: map<string, Value>, a: WizardAnswers) {
    && Field(f, "projectName") == Str(a.projectName)
    && Field(f, "projectUrl") == OptionalStr(a.projectUrl)
    && Field(f, "companyName") == OptionalStr(a.companyName)
    && Field(f, "jurisdiction") == Str(JurisdictionName(a.jurisdiction))
    && Field(f, "collectsPersonalData") == Bool(a.collectsPersonalData)
    && Field(f, "collectsSensitiveData") == Bool(a.collectsSensitiveData)
    && Field(f, "responsibleName") == Str(a.responsibleName)
    && Field(f, "contactEmail") == Str(a.contactEmail)
    && Field(f, "includeAsIs") == Bool(a.includeAsIs)
    && Field(f, "includeAnalytics") == Bool(a.includeAnalytics)
  }

  /**
   * `wizardAnswersSchema.safeParse(v)`: accepted exactly when `v` is an
   * object that meets every rule; the result is valid and holds the input's
   * values (keys outside the schema are dropped).
   */
  function ParseWizardAnswers(v: Value, formats: Formats): (r: Option<WizardAnswers>)
    ensures r.Some? <==> v.Object? && WizardAnswersRules(v.fields, formats)
    ensures r.Some? ==> ValidWizardAnswers(r.value, formats) && CarriesAnswers(v.fields, r.value)
  {
    if !v.Object? then None
    else
      var f := v.fields;
      var projectName := StringMin(Field(f, "projectName"), 2);
      var projectUrl := OptionalUrl(Field(f, "projectUrl"), formats);
      var companyName := OptionalString(Field(f, "companyName"));
      var jurisdiction := AJurisdiction(Field(f, "jurisdiction"));
      var collectsPersonalData := ABool(Field(f, "collectsPersonalData"));
      var collectsSensitiveData := ABool(Field(f, "collectsSensitiveData"));
      var responsibleName := StringMin(Field(f, "responsibleName"), 2);
      var contactEmail := AString(Field(f, "contactEmail"));
      var includeAsIs := ABool(Field(f, "includeAsIs"));
      var includeAnalytics := ABool(Field(f, "includeAnalytics"));
      if && projectName.Some? && projectUrl.Some? && companyName.Some? && jurisdiction.Some?
         && collectsPersonalData.Some? && collectsSensitiveData.Some? && responsibleName.Some?
         && contactEmail.Some? && formats.isEmail(contactEmail.value)
         && includeAsIs.Some? && includeAnalytics.Some?
      then
        Some(WizardAnswers(projectName.value, projectUrl.value, companyName.value, jurisdiction.value,
          collectsPersonalData.value, collectsSensitiveData.value, responsibleName.value,
          contactEmail.value, includeAsIs.value, includeAnalytics.value))
      else None
  }

  /** `documents`: absent, or an object whose three texts are each absent or a string. */
  function ParseDocuments(v: Value): (r: Option<Option<Documents>>)
    ensures r.Some? <==> v == Undefined || (v.Object? && DocumentsRules(v.fields))
    ensures r == Some(None) <==> v == Undefined
    ensures r.Some? && r.value.Some? ==> CarriesDocuments(v.fields, r.value.value)
  {
    if v == Undefined then Some(None)
    else if !v.Object? then None
    else
      var privacyPolicy := OptionalString(Field(v.fields, "privacyPolicy"));
      var termsOfUse := OptionalString(Field(v.fields, "termsOfUse"));
      var cookiePolicy := OptionalString(Field(v.fields, "cookiePolicy"));
      if privacyPolicy.Some? && termsOfUse.Some? && cookiePolicy.Some? then
        Some(Some(Documents(privacyPolicy.value, termsOfUse.value, cookiePolicy.value)))
      else None
  }

  /** Which raw `documents` objects the schema accepts. */
  predicate DocumentsRules(f: map<string, Value>) {
    && OptionalStringRule(Field(f, "privacyPolicy"))
    && OptionalStringRule(Field(f, "termsOfUse"))
    && OptionalStringRule(Field(f, "cookiePolicy"))
  }

  /** The typed documents `d` hold the values of the raw documents `f`. */
  ghost predicate CarriesDocuments(f: map<string, Value>, d: Documents) {
    && Field(f, "privacyPolicy") == OptionalStr(d.privacyPolicy)
    && Field(f, "termsOfUse") == OptionalStr(d.termsOfUse)
    && Field(f, "cookiePolicy") == OptionalStr(d.cookiePolicy)
  }

  /** Which raw project records `projectSchema` accepts, rule by rule. */
  ghost predicate ProjectRules(f: map<string, Value>, formats: Formats) {
    && Field(f, "id").Str? && Field(f, "userId").Str?
    && Field(f, "status") in StatusNames
    && Field(f, "createdAt").Date? && Field(f, "updatedAt").Date?
    && Field(f, "data").Object? && WizardAnswersRules(Field(f, "data").fields, formats)
    && (Field(f, "documents") == Undefined
        || (Field(f, "documents").Object? && DocumentsRules(Field(f, "documents").fields)))
  }

  /**
   * `projectSchema.safeParse(v)`: accepted exactly when `v` is an object
   * that meets every rule, its `data` being accepted by the answers schema;
   * the result holds the input's values.
   */
  function ParseProject(v: Value, formats: Formats): (r: Option<Project>)
    ensures r.Some? <==> v.Object? && ProjectRules(v.fields, formats)
    ensures r.Some? ==> var f := v.fields;
      && Field(f, "id") == Str(r.value.id)
      && Field(f, "userId") == Str(r.value.userId)
      && Field(f, "status") == Str(StatusName(r.value.status))
      && Field(f, "createdAt") == Date(r.value.createdAt)
      && Field(f, "updatedAt") == Date(r.value.updatedAt)
      && ValidWizardAnswers(r.value.data, formats)
      && CarriesAnswers(Field(f, "data").fields, r.value.data)
      && (r.value.documents.None? <==> Field(f, "documents") == Undefined)
      && (r.value.documents.Some? ==> CarriesDocuments(Field(f, "documents").fields, r.value.documents.value))
  {
    if !v.Object? then None
    else
      var f := v.fields;
      var id := AString(Field(f, "id"));
      var userId := AString(Field(f, "userId"));
      var status := AStatus(Field(f, "status"));
      var createdAt := ADate(Field(f, "createdAt"));
      var updatedAt := ADate(Field(f, "updatedAt"));
      var data := ParseWizardAnswers(Field(f, "data"), formats);
      var documents := ParseDocuments(Field(f, "documents"));
      if && id.Some? && userId.Some? && status.Some? && createdAt.Some? && updatedAt.Some?
         && data.Some? && documents.Some?
      then Some(Project(id.value, userId.value, status.value, createdAt.value, updatedAt.value, data.value, documents.value))
      else None
  }
}
