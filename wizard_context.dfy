/**
 * The wizard's answer store: one record of answers shared by every step,
 * created from fixed defaults, merged into field by field, and reset.
 * (src/app/context/WizardContext.tsx)
 */
module WizardContext {
  import opened Wrappers

  /** The legal systems a document can be written for. */
  datatype Jurisdiction = BR | US | EU

  /** The languages a document can be written in ("pt-br", "pt", "en", "es", "fr"). */
  datatype Language = PtBr | Pt | En | Es | Fr

  /** The seven cookie categories, each switched on or off. */
  datatype CookieCategories = Categories(
    essential: bool,
    functional: bool,
    analytics: bool,
    marketing: bool,
    performance: bool,
    security: bool,
    ads: bool)

  /** The project's URLs: the raw comma-separated text, or the list a step stores. */
  datatype ProjectUrls = UrlText(text: string) | UrlList(urls: seq<string>)

  /**
   * A `Partial<WizardData>`: every answer may be absent (`None`). The store's
   * state and an update both have this shape.
   */
  datatype WizardData = WizardData(
    projectName: Option<string>,
    brandName: Option<string>,
    legalName: Option<string>,
    contactEmail: Option<string>,
    projectUrls: Option<ProjectUrls>,
    documentType: Option<seq<string>>,
    businessModel: Option<string>,
    monetization: Option<string>,
    license: Option<string>,
    responsibleName: Option<string>,
    dpoContact: Option<string>,
    collectsPersonal: Option<bool>,
    collectsSensitive: Option<bool>,
    purpose: Option<string>,
    transferCountries: Option<string>,
    jurisdiction: Option<Jurisdiction>,
    language: Option<Language>,
    includeAsIs: Option<bool>,
    includeIP: Option<bool>,
    includeLiability: Option<bool>,
    includeLastUpdated: Option<bool>,
    requireConsent: Option<bool>,
    usesCookies: Option<bool>,
    cookieCategories: Option<CookieCategories>,
    cookieTools: Option<seq<string>>,
    analyticsTools: Option<seq<string>>,
    adTracking: Option<bool>,
    sharesDataWithThirdParties: Option<bool>,
    thirdPartyList: Option<seq<string>>,
    cookieBannerStyle: Option<string>,
    retentionPolicy: Option<string>,
    customCookieNotes: Option<string>)

  /** The value of one answer, whatever its type. */
  datatype FieldValue =
    | Text(s: string)
    | Flag(b: bool)
    | List(items: seq<string>)
    | Urls(urls: ProjectUrls)
    | Juris(jurisdiction: Jurisdiction)
    | Lang(language: Language)
    | Cookies(categories: CookieCategories)

  function OptText(o: Option<string>): Option<FieldValue> {
    match o case None => None case Some(s) => Some(Text(s))
  }

  function OptFlag(o: Option<bool>): Option<FieldValue> {
    match o case None => None case Some(b) => Some(Flag(b))
  }

  function OptList(o: Option<seq<string>>): Option<FieldValue> {
    match o case None => None case Some(xs) => Some(List(xs))
  }

  function OptUrls(o: Option<ProjectUrls>): Option<FieldValue> {
    match o case None => None case Some(u) => Some(Urls(u))
  }

  function OptJurisdiction(o: Option<Jurisdiction>): Option<FieldValue> {
    match o case None => None case Some(j) => Some(Juris(j))
  }

  function OptLanguage(o: Option<Language>): Option<FieldValue> {
    match o case None => None case Some(l) => Some(Lang(l))
  }

  function OptCookies(o: Option<CookieCategories>): Option<FieldValue> {
    match o case None => None case Some(c) => Some(Cookies(c))
  }

  /** The property names of `WizardData`, one constructor per answer. */
  datatype Key =
    | projectName
    | brandName
    | legalName
    | contactEmail
    | projectUrls
    | documentType
    | businessModel
    | monetization
    | license
    | responsibleName
    | dpoContact
    | collectsPersonal
    | collectsSensitive
    | purpose
    | transferCountries
    | jurisdiction
    | language
    | includeAsIs
    | includeIP
    | includeLiability
    | includeLastUpdated
    | requireConsent
    | usesCookies
    | cookieCategories
    | cookieTools
    | analyticsTools
    | adTracking
    | sharesDataWithThirdParties
    | thirdPartyList
    | cookieBannerStyle
    | retentionPolicy
    | customCookieNotes

  /** Every key. */
  const AllKeys: set<Key> := {
    projectName,
    brandName,
    legalName,
    contactEmail,
    projectUrls,
    documentType,
    businessModel,
    monetization,
    license,
    responsibleName,
    dpoContact,
    collectsPersonal,
    collectsSensitive,
    purpose,
    transferCountries,
    jurisdiction,
    language,
    includeAsIs,
    includeIP,
    includeLiability,
    includeLastUpdated,
    requireConsent,
    usesCookies,
    cookieCategories,
    cookieTools,
    analyticsTools,
    adTracking,
    sharesDataWithThirdParties,
    thirdPartyList,
    cookieBannerStyle,
    retentionPolicy,
    customCookieNotes
  }

  /** The property `d[key]` of the record seen as a JavaScript object; `None` when it is absent. */
  function Get(d: WizardData, key: Key): Option<FieldValue> {
    match key
    case projectName => OptText(d.projectName)
    case brandName => OptText(d.brandName)
    case legalName => OptText(d.legalName)
    case contactEmail => OptText(d.contactEmail)
    case projectUrls => OptUrls(d.projectUrls)
    case documentType => OptList(d.documentType)
    case businessModel => OptText(d.businessModel)
    case monetization => OptText(d.monetization)
    case license => OptText(d.license)
    case responsibleName => OptText(d.responsibleName)
    case dpoContact => OptText(d.dpoContact)
    case collectsPersonal => OptFlag(d.collectsPersonal)
    case collectsSensitive => OptFlag(d.collectsSensitive)
    case purpose => OptText(d.purpose)
    case transferCountries => OptText(d.transferCountries)
    case jurisdiction => OptJurisdiction(d.jurisdiction)
    case language => OptLanguage(d.language)
    case includeAsIs => OptFlag(d.includeAsIs)
    case includeIP => OptFlag(d.includeIP)
    case includeLiability => OptFlag(d.includeLiability)
    case includeLastUpdated => OptFlag(d.includeLastUpdated)
    case requireConsent => OptFlag(d.requireConsent)
    case usesCookies => OptFlag(d.usesCookies)
    case cookieCategories => OptCookies(d.cookieCategories)
    case cookieTools => OptList(d.cookieTools)
    case analyticsTools => OptList(d.analyticsTools)
    case adTracking => OptFlag(d.adTracking)
    case sharesDataWithThirdParties => OptFlag(d.sharesDataWithThirdParties)
    case thirdPartyList => OptList(d.thirdPartyList)
    case cookieBannerStyle => OptText(d.cookieBannerStyle)
    case retentionPolicy => OptText(d.retentionPolicy)
    case customCookieNotes => OptText(d.customCookieNotes)
  }

  /** The record as the JavaScript object it stands for: its present keys and their values. */
  ghost function AsObject(d: WizardData): map<Key, FieldValue> {
    map key | key in AllKeys && Get(d, key).Some? :: Get(d, key).value
  }

  /** One field of `{ ...prev, ...values }`: the update's value when it has one. */
  function Pick<T>(prev: Option<T>, next: Option<T>): Option<T> {
    if next.Some? then next else prev
  }

  /**
   * The shallow merge `{ ...prev, ...values }` of an update: every key the
   * update carries takes the update's value (last write wins), every other
   * key keeps its previous value. Nested objects are replaced, not merged.
   */
  function Merge(prev: WizardData, values: WizardData): WizardData {
    WizardData(
      Pick(prev.projectName, values.projectName),
      Pick(prev.brandName, values.brandName),
      Pick(prev.legalName, values.legalName),
      Pick(prev.contactEmail, values.contactEmail),
      Pick(prev.projectUrls, values.projectUrls),
      Pick(prev.documentType, values.documentType),
      Pick(prev.businessModel, values.businessModel),
      Pick(prev.monetization, values.monetization),
      Pick(prev.license, values.license),
      Pick(prev.responsibleName, values.responsibleName),
      Pick(prev.dpoContact, values.dpoContact),
      Pick(prev.collectsPersonal, values.collectsPersonal),
      Pick(prev.collectsSensitive, values.collectsSensitive),
      Pick(prev.purpose, values.purpose),
      Pick(prev.transferCountries, values.transferCountries),
      Pick(prev.jurisdiction, values.jurisdiction),
      Pick(prev.language, values.language),
      Pick(prev.includeAsIs, values.includeAsIs),
      Pick(prev.includeIP, values.includeIP),
      Pick(prev.includeLiability, values.includeLiability),
      Pick(prev.includeLastUpdated, values.includeLastUpdated),
      Pick(prev.requireConsent, values.requireConsent),
      Pick(prev.usesCookies, values.usesCookies),
      Pick(prev.cookieCategories, values.cookieCategories),
      Pick(prev.cookieTools, values.cookieTools),
      Pick(prev.analyticsTools, values.analyticsTools),
      Pick(prev.adTracking, values.adTracking),
      Pick(prev.sharesDataWithThirdParties, values.sharesDataWithThirdParties),
      Pick(prev.thirdPartyList, values.thirdPartyList),
      Pick(prev.cookieBannerStyle, values.cookieBannerStyle),
      Pick(prev.retentionPolicy, values.retentionPolicy),
      Pick(prev.customCookieNotes, values.customCookieNotes))
  }

  /** The update that carries no key at all. */
  const NoChanges: WizardData := WizardData(None, None, None, None, None, None, None, None, None, None, None, None, None, None, None, None, None, None, None, None, None, None, None, None, None, None, None, None, None, None, None, None)

  /** Key by key, the merge takes the update's value when the update has the key, else the previous one. */
  lemma MergeAt(prev: WizardData, values: WizardData, key: Key)
    ensures Get(Merge(prev, values), key) == Pick(Get(prev, key), Get(values, key))
  {
    match key
    case projectName =>
    case brandName =>
    case legalName =>
    case contactEmail =>
    case projectUrls =>
    case documentType =>
    case businessModel =>
    case monetization =>
    case license =>
    case responsibleName =>
    case dpoContact =>
    case collectsPersonal =>
    case collectsSensitive =>
    case purpose =>
    case transferCountries =>
    case jurisdiction =>
    case language =>
    case includeAsIs =>
    case includeIP =>
    case includeLiability =>
    case includeLastUpdated =>
    case requireConsent =>
    case usesCookies =>
    case cookieCategories =>
    case cookieTools =>
    case analyticsTools =>
    case adTracking =>
    case sharesDataWithThirdParties =>
    case thirdPartyList =>
    case cookieBannerStyle =>
    case retentionPolicy =>
    case customCookieNotes =>
  }

  /** Last write wins: every key the update carries has the update's value afterwards. */
  lemma MergeLastWriteWins(prev: WizardData, values: WizardData)
    ensures forall key | Get(values, key).Some? :: Get(Merge(prev, values), key) == Get(values, key)
  {
    forall key | Get(values, key).Some? {
      MergeAt(prev, values, key);
    }
  }

  /** Every key the update does not carry keeps its previous value. */
  lemma MergeKeepsAbsent(prev: WizardData, values: WizardData)
    ensures forall key | Get(values, key).None? :: Get(Merge(prev, values), key) == Get(prev, key)
  {
    forall key | Get(values, key).None? {
      MergeAt(prev, values, key);
    }
  }

  /** The merge is JavaScript's object spread: the union of the two objects, the update winning. */
  lemma MergeIsSpread(prev: WizardData, values: WizardData)
    ensures AsObject(Merge(prev, values)) == AsObject(prev) + AsObject(values)
  {
    forall key {
      MergeAt(prev, values, key);
    }
  }

  /** An update that carries no key leaves the answers as they are. */
  lemma MergeNoChanges(prev: WizardData)
    ensures Merge(prev, NoChanges) == prev
  {
  }

  /**
   * The merge is shallow: an update of `cookieCategories` replaces the whole
   * set of flags, nothing of the previous flags survives, and no other answer changes.
   */
  lemma MergeCookieCategoriesShallow(prev: WizardData, categories: CookieCategories)
    ensures Merge(prev, NoChanges.(cookieCategories := Some(categories))) == prev.(cookieCategories := Some(categories))
  {
  }

  /** The defaults the store starts from and returns to on reset (`initialWizardData`). */
  const InitialWizardData: WizardData := WizardData(
    None, None, None, None, None, None, None, None, None, None, None,
    None, None, None, None,
    Some(BR),                          // jurisdiction
    Some(PtBr),                        // language
    None, None, None, None, None, None,
    Some(Categories(true, false, false, false, false, false, false)),  // cookieCategories
    Some([]),                          // cookieTools
    Some([]),                          // analyticsTools
    Some(false),                       // adTracking
    Some(false),                       // sharesDataWithThirdParties
    Some([]),                          // thirdPartyList
    Some(""),                          // cookieBannerStyle
    Some(""),                          // retentionPolicy
    Some(""))                          // customCookieNotes

  /** The defaults as a JavaScript object, written out key by key. */
  const DefaultObject: map<Key, FieldValue> := map[
    jurisdiction := Juris(BR),
    language := Lang(PtBr),
    cookieCategories := Cookies(Categories(true, false, false, false, false, false, false)),
    cookieTools := List([]),
    analyticsTools := List([]),
    adTracking := Flag(false),
    sharesDataWithThirdParties := Flag(false),
    thirdPartyList := List([]),
    cookieBannerStyle := Text(""),
    retentionPolicy := Text(""),
    customCookieNotes := Text("")]

  /** The keys `initialWizardData` sets. */
  const DefaultKeys: set<Key> := {
    jurisdiction, language, cookieCategories, cookieTools, analyticsTools, adTracking,
    sharesDataWithThirdParties, thirdPartyList, cookieBannerStyle, retentionPolicy, customCookieNotes
  }

  /** Each of the eleven keys with a default holds the value written out in `DefaultObject`. */
  lemma InitialAtSet(key: Key)
    requires key in DefaultKeys
    ensures key in DefaultObject && Get(InitialWizardData, key) == Some(DefaultObject[key])
  {
    match key
    case jurisdiction => assert DefaultObject[jurisdiction] == Juris(BR);
    case language => assert DefaultObject[language] == Lang(PtBr);
    case cookieCategories => assert DefaultObject[cookieCategories] == Cookies(Categories(true, false, false, false, false, false, false));
    case cookieTools => assert DefaultObject[cookieTools] == List([]);
    case analyticsTools => assert DefaultObject[analyticsTools] == List([]);
    case adTracking => assert DefaultObject[adTracking] == Flag(false);
    case sharesDataWithThirdParties => assert DefaultObject[sharesDataWithThirdParties] == Flag(false);
    case thirdPartyList => assert DefaultObject[thirdPartyList] == List([]);
    case cookieBannerStyle => assert DefaultObject[cookieBannerStyle] == Text("");
    case retentionPolicy => assert DefaultObject[retentionPolicy] == Text("");
    case customCookieNotes => assert DefaultObject[customCookieNotes] == Text("");
  }

  /** Every other key is absent from the defaults. */
  lemma InitialAtUnset(key: Key)
    requires key !in DefaultKeys
    ensures key !in DefaultObject && Get(InitialWizardData, key) == None
  {
    match key
    case projectName =>
    case brandName =>
    case legalName =>
    case contactEmail =>
    case projectUrls =>
    case documentType =>
    case businessModel =>
    case monetization =>
    case license =>
    case responsibleName =>
    case dpoContact =>
    case collectsPersonal =>
    case collectsSensitive =>
    case purpose =>
    case transferCountries =>
    case includeAsIs =>
    case includeIP =>
    case includeLiability =>
    case includeLastUpdated =>
    case requireConsent =>
    case usesCookies =>
  }

  /** Key by key, the defaults are `DefaultObject`. */
  lemma InitialAt(key: Key)
    ensures Get(InitialWizardData, key) == if key in DefaultObject then Some(DefaultObject[key]) else None
  {
    if key in DefaultKeys {
      InitialAtSet(key);
    } else {
      InitialAtUnset(key);
    }
  }

  /**
   * The defaults carry exactly eleven keys: jurisdiction "br", language
   * "pt-br", only the essential cookie category on, no cookie or analytics
   * tools, no ad tracking, no sharing with third parties and no third parties,
   * and empty banner style, retention policy and cookie notes. Everything else
   * (the project's name among them) is absent.
   */
  lemma InitialWizardDataDefaults()
    ensures AsObject(InitialWizardData) == DefaultObject
  {
    forall key {
      InitialAt(key);
    }
  }

  /**
   * The store of `WizardProvider`: the answers held in `data`, replaced by
   * `update` and `reset`.
   */
  class WizardProvider {
    var data: WizardData

    /** A new store holds the defaults. */
    constructor ()
      ensures data == InitialWizardData
    {
      data := InitialWizardData;
    }

    /** `update(values)`: merges `values` into the answers. */
    method Update(values: WizardData)
      modifies this
      ensures data == Merge(old(data), values)
    {
      data := Merge(data, values);
    }

    /** `reset()`: the answers are the defaults again, whatever they were. */
    method Reset()
      modifies this
      ensures data == InitialWizardData
    {
      data := InitialWizardData;
    }
  }

  /**
   * Whatever was merged in before, `reset` brings back the defaults, and a
   * second `reset` leaves them as the first one did.
   */
  method ResetTwice(values: WizardData) returns (first: WizardData, second: WizardData)
    ensures first == InitialWizardData && second == first
  {
    var provider := new WizardProvider();
    provider.Update(values);
    provider.Reset();
    first := provider.data;
    provider.Reset();
    second := provider.data;
  }
}
