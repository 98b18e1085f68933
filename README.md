# policygen: a verified model of the wizard's logic

policygen is a web application that walks a user through a wizard of
questions about a website or app, and then has a generative model write
the site's privacy policy, terms of use and cookie policy from the answers.
This project models the parts of it that are logic rather than screens or
calls into other services, and proves what those parts promise:

- **The wizard's answer store** (`WizardContext`). Every step reads the same
  record of answers. The record starts from fixed defaults. `update` merges a
  partial record into it shallowly, and the update wins. `reset` restores
  the defaults. The record is a datatype of `Option` fields, one per answer.
  The provider is a class whose methods replace its `data` field.
- **The generation endpoint** (`GenerateRoute`). `POST` checks its guards
  in order: the API key, then the JSON body, then the body schema. It writes
  today's date into the answers. It strips the code fences from the model's
  text and trims it. The parsed value goes back under `documents`, and any
  error becomes a 500.
- **The answer and project schemas** (`Schemas`). They are parsers from
  JavaScript values to typed records, like zod's `safeParse`. Next to each
  parser sits a predicate that states the acceptance rules field by field.
- **The option picker** (`ModalSelector`). It models the case-insensitive
  label search, the highlighting of the selected option, and the callbacks a
  click makes.
- **The project store** (`ProjectStore`). It models `createProject`,
  `updateProject` and `getProject` over the `projects` collection. The
  collection is a class holding a map from document id to record.

Three support modules are shared:

- `Wrappers` holds `Option` and `Result`.
- `JsValue` holds JavaScript values, property access (which throws on
  `null` and `undefined`), truthiness, and string `length` in UTF-16 code
  units.
- `Text` holds global literal `replace`, substring search, the whitespace
  set of ECMAScript's `trim` with `trimStart` and `trimEnd`, and ASCII case
  mapping.

## Model

| member | source | states |
|---|---|---|
| WizardContext.InitialAtSet | src/app/context/WizardContext.tsx:91-112 | each of the eleven defaulted keys holds its default: jurisdiction "br", language "pt-br", the cookie categories with only `essential` on, empty tool and third-party lists, no ad tracking and no sharing, and "" for banner style, retention policy and cookie notes |
| WizardContext.InitialAtUnset | src/app/context/WizardContext.tsx:91-112 | every other key, `projectName` and `contactEmail` among them, is absent from the defaults |
| WizardContext.InitialAt | src/app/context/WizardContext.tsx:91-112 | key by key, the defaults are the object written out in `DefaultObject` |
| WizardContext.InitialWizardDataDefaults | src/app/context/WizardContext.tsx:91-112 | the defaults, seen as a JavaScript object, are exactly an object with those eleven keys |
| WizardContext.Merge | src/app/context/WizardContext.tsx:129-130 | defines `{ ...prev, ...values }` on the record, field by field; what it promises is stated by the lemmas below |
| WizardContext.MergeAt | src/app/context/WizardContext.tsx:129-130 | for every key, the merged value is the update's value when the update has that key, and the previous value otherwise |
| WizardContext.MergeLastWriteWins | src/app/context/WizardContext.tsx:129-130 | every key present in the update has the update's value after the merge |
| WizardContext.MergeKeepsAbsent | src/app/context/WizardContext.tsx:129-130 | every key absent from the update keeps its previous value |
| WizardContext.MergeIsSpread | src/app/context/WizardContext.tsx:129-130 | as objects, the merge is `{ ...prev, ...values }`: the map union of the two, with the update winning |
| WizardContext.MergeNoChanges | src/app/context/WizardContext.tsx:129-130 | an empty partial leaves the state unchanged |
| WizardContext.MergeCookieCategoriesShallow | src/app/context/WizardContext.tsx:129-130 | an update of `cookieCategories` replaces the whole nested object, previous inner flags are not merged in, and no other answer changes |
| WizardContext.WizardProvider.constructor | src/app/context/WizardContext.tsx:127 | a new provider holds `initialWizardData` |
| WizardContext.WizardProvider.Update | src/app/context/WizardContext.tsx:129-130 | the new state is the merge of the old state with the update |
| WizardContext.WizardProvider.Reset | src/app/context/WizardContext.tsx:132 | from any state, the new state is `initialWizardData` |
| WizardContext.ResetTwice | src/app/context/WizardContext.tsx:132 | after any update, one reset gives the defaults and a second reset gives the same |
| GenerateRoute.ParseBody | src/app/api/generate/route.ts:6-8 | `bodySchema` accepts the body exactly when it is an object whose `answers` is an object, and it yields that `answers` record |
| GenerateRoute.MissingKey | src/app/api/generate/route.ts:13 | `!apiKey` holds for an unset key and for the empty key, and for no other |
| GenerateRoute.WithCurrentDate | src/app/api/generate/route.ts:28-35 | after the injection, `currentDate` is today's date, overwriting any value the client sent; no other key is added, removed or changed |
| GenerateRoute.Clean | src/app/api/generate/route.ts:71 | the cleaned text contains no code fence (three backticks) and neither starts nor ends with white space |
| GenerateRoute.TrimKeepsAbsent | src/app/api/generate/route.ts:71 | trimming cannot create an occurrence of a pattern that was absent |
| GenerateRoute.NoFenceNoJsonFence | src/app/api/generate/route.ts:71 | a text without a code fence contains no fence tagged `json` either |
| GenerateRoute.CleanUnwrapsFencedJson | src/app/api/generate/route.ts:71 | a reply wrapped in a `json`-tagged fence comes out as the trimmed text inside the fence, when that text holds no backtick |
| GenerateRoute.CleanIdempotent | src/app/api/generate/route.ts:71 | cleaning the cleaned text changes nothing |
| GenerateRoute.Post | src/app/api/generate/route.ts:10-81 | the status is 200, 400 or 500. A missing or empty key gives 500 "API Key ausente" whatever the body is. A body that is not JSON gives 500 with its error. Status 400 "Dados inválidos" happens exactly when the key is set and the JSON fails the schema. Otherwise the answers get today's date; a generation or parse error gives 500 with its message; success gives 200 with the parsed value, unchecked, as the only key `documents` |
| Text.RemoveAll | src/app/api/generate/route.ts:71 | a global literal `replace` with "" never lengthens the text, and every character that is not in the pattern occurs in the result as often as in the text |
| Text.RemoveAllFirstMatch | src/app/api/generate/route.ts:71 | the scan finds the leftmost match first: the text before it is kept unchanged and in order, the match is dropped, and the removal goes on right after it; with `RemoveAllAbsent` (no match: nothing changes) this determines the result |
| Text.RemoveAllKeepsPrefix | src/app/api/generate/route.ts:71 | a leading piece without the pattern's first character is kept as it is, in front of what the removal makes of the rest |
| Text.RemoveAllAbsent | src/app/api/generate/route.ts:71 | removing a pattern that does not occur changes nothing |
| Text.RemoveFencesLeavesNone | src/app/api/generate/route.ts:71 | after every code fence is removed, left to right, none is left, including none formed by what is left joining up |
| Text.InfixContains | src/app/api/generate/route.ts:71 | an occurrence inside a slice of a text is an occurrence in the text |
| Text.TrimStart | src/app/api/generate/route.ts:71 | `trimStart` gives a suffix of the text, the part dropped is all white space, and the result does not start with white space |
| Text.TrimEnd | src/app/api/generate/route.ts:71 | `trimEnd` gives a prefix of the text, the part dropped is all white space, and the result does not end with white space |
| Text.StripTwice | src/app/api/generate/route.ts:71 | stripping white space from the front and then from the back of what is left strips the original text at one offset |
| Text.TrimBothEnds | src/app/api/generate/route.ts:71 | `trimEnd` after `trimStart` is the slice of the text at the trim offset, with only white space before and after it |
| Text.Trim | src/app/api/generate/route.ts:71 | `trim` gives the slice of the text at the trim offset, what it drops on both sides is white space, and the result neither starts nor ends with white space |
| Text.TrimIdempotent | src/app/api/generate/route.ts:71 | trimming twice is trimming once |
| Schemas.StringMin | src/lib/schemas.ts:6 | `z.string().min(n)` accepts exactly the strings whose JavaScript length is at least `n`, and yields them |
| Schemas.OptionalUrl | src/lib/schemas.ts:7 | `projectUrl` is accepted exactly when it is absent, the empty string, or a string in URL format |
| Schemas.OptionalString | src/lib/schemas.ts:8 | `companyName` is accepted exactly when it is absent or a string |
| Schemas.AJurisdiction | src/lib/schemas.ts:11 | `jurisdiction` is accepted exactly when it is one of "br", "eu", "us" and "global", and the result spells the input |
| Schemas.ABool | src/lib/schemas.ts:12-13 | a flag is accepted exactly when it is a present boolean, and it yields that boolean |
| Schemas.AString | src/lib/schemas.ts:17 | `z.string()` accepts exactly the strings |
| Schemas.ParseWizardAnswers | src/lib/schemas.ts:5-22 | accepted exactly when the value is an object that meets every field rule. The rules: names of length at least 2, the URL rule, an optional company name, the jurisdiction enum, four present booleans, an e-mail address. The typed result holds the input's values |
| Schemas.AStatus | src/lib/schemas.ts:28 | `status` is accepted exactly when it is one of "draft", "pending_payment" and "paid" |
| Schemas.ADate | src/lib/schemas.ts:29-30 | `z.date()` accepts exactly the dates |
| Schemas.ParseDocuments | src/lib/schemas.ts:36-40 | `documents` may be absent, which yields no documents. Otherwise it must be an object whose three texts are each absent or a string, and the result holds them |
| Schemas.ParseProject | src/lib/schemas.ts:25-41 | accepted exactly when the value is an object with string `id` and `userId`, a status of the enum, two dates, `data` accepted by the answers schema, and acceptable or absent `documents`; the typed result holds the input's values |
| ModalSelector.Filtered | src/components/ModalSelector.tsx:23-25 | the kept options are a subsequence of the options, in order, and an option is kept exactly when its lowercased label contains the lowercased query; a matching option is kept as many times as it is offered, and a non-matching one never |
| ModalSelector.FilteredEmptyQuery | src/components/ModalSelector.tsx:23-25 | an empty query keeps every option |
| ModalSelector.FilteredByLowerQuery | src/components/ModalSelector.tsx:23-25 | two queries with the same lowercase form keep the same options |
| ModalSelector.FilteredCaseInsensitive | src/components/ModalSelector.tsx:23-25 | upper-casing or lower-casing the query (ASCII) keeps the same options |
| ModalSelector.Rows | src/components/ModalSelector.tsx:48-59 | one row per kept option, in order, highlighted exactly when `selected` equals the option's `value` |
| ModalSelector.ClickRow | src/components/ModalSelector.tsx:51-54 | defines the callbacks of a click on a row: `onSelect` with the row's value, then `onClose` |
| ModalSelector.ClickClose | src/components/ModalSelector.tsx:32 | defines the callbacks of the header's close button: `onClose` only |
| ModalSelector.ClickCloseSelectsNothing | src/components/ModalSelector.tsx:32 | the header's close button calls no `onSelect` |
| ModalSelector.ClickSelectsMatchingOption | src/components/ModalSelector.tsx:51-54 | a click on the `i`-th shown row calls exactly `onSelect` with the value of the `i`-th kept option, then `onClose`; that option was offered and matches the search |
| JsValue.Member | src/lib/db.ts:28 | reading a property throws exactly on `null` and `undefined`; on an object it yields the property's value, or `undefined` when the property is absent |
| JsValue.Truthy | src/lib/db.ts:28 | the truthiness `||` tests: `undefined`, `null`, `false`, `0` and "" are falsy, everything else is truthy |
| JsValue.Utf16Length | src/lib/schemas.ts:6 | a string's JavaScript length lies between its number of characters and twice that, and is that number when every character is in the basic plane |
| ProjectStore.NewProjectData | src/lib/db.ts:26-33 | the record keeps `userId` and `answers` as given, has status "draft", and is stamped at the write time. Its name is a non-empty string `projectName` when there is one, and "Projeto Sem Nome" when the name is absent or ""; the name is always truthy. Answers that are `null` or `undefined` make the call fail |
| ProjectStore.ProjectStore.constructor | src/lib/db.ts:25 | a new collection is empty |
| ProjectStore.ProjectStore.CreateProject | src/lib/db.ts:23-40 | on success, the new id was not in the store before, and the store is the old one plus that record; on failure, the error is reported and the store is unchanged |
| ProjectStore.ProjectStore.UpdateProject | src/lib/db.ts:43-54 | on an existing id, only `answers` and `updatedAt` change; name, owner, status and creation time stay put, even when the new answers carry another `projectName`. On a missing id, the update fails and nothing changes |
| ProjectStore.ProjectStore.GetProject | src/lib/db.ts:57-66 | an existing id yields that record's data; a missing id yields the error "Projeto não encontrado" |
| ProjectStore.SaveEditReload | src/lib/db.ts:23-66 | for any owner, any object of answers, any new answers and any two times: after create, update and reload, the reloaded record is the created one with the new answers and the update time, so its name, owner, status and creation time are those of the creation |

## Left out

- `useWizard` (src/app/context/WizardContext.tsx:141-147) is not modelled. It only reads React's context and throws when there is no provider.
- React's rendering, the `children` of the provider, and the picker's markup and `query` input state are not modelled. The query is a parameter.
- WizardContext.Merge: an update that sets a key to `undefined` explicitly is treated as one without that key. In JavaScript the spread would copy `undefined` over the previous value. The model's partial record cannot tell the two apart.
- The generative model call, the prompt text, `JSON.parse`, `req.json()` and `toLocaleDateString("pt-BR")` are not modelled. They are parameters of `GenerateRoute.Post`: the generator, the parser, the body's parse result, and today's date as a string. Console logging is dropped.
- `process.env.GEMINI_API_KEY` is a parameter. An unset key and an empty key both count as missing, as JavaScript's `!apiKey` does.
- GenerateRoute.Post: only the errors of the modelled steps are modelled. Errors thrown inside the model client or the framework are not.
- zod's `.url()` and `.email()` formats belong to the library. They are parameters of the schemas (`Formats`).
- Schemas.ADate: zod's `z.date()` also rejects an invalid Date. The model's dates are always valid milliseconds, so that rejection is not modelled.
- zod's error messages ("Nome do projeto é obrigatório", "E-mail inválido") are not modelled. A rejection is `None`.
- The `Project` type inferred by zod (src/lib/schemas.ts:44) is the `Schemas.Project` datatype.
- JavaScript numbers are reals in `JsValue`. `NaN`, `-0` and floating-point rounding are not modelled.
- ModalSelector.Filtered: `toLowerCase` is modelled on ASCII letters only. JavaScript also lowercases other scripts.
- Firestore (`addDoc`, `updateDoc`, `getDoc`) is modelled as a map owned by the store object. Several things follow from that:
  - Network and permission failures are not modelled.
  - Ids are derived from a counter and are fresh, instead of being random.
  - Server timestamps are the `now` argument of each write.
  - Firestore's refusal of `undefined` field values is not modelled.
- ProjectStore.ProjectStore.UpdateProject: its error string is "No document to update". The database client adds the document path to that message; the model does not.
- ProjectStore.ProjectStore.GetProject: `docSnap.data()` is returned as stored. The cast to `ProjectData` is not checked at run time, and the model does not check it either.
- The two `Jurisdiction` types differ in the source, and the model keeps both as written. The wizard's has "br", "us" and "eu"; the schema's also accepts "global".
- Two statuses lists also differ. `ProjectData` in src/lib/db.ts allows "draft" and "paid". `projectSchema` also allows "pending_payment". The model follows each file.
- The wizard's step pages and final page are outside the modelled files and are not modelled. Three behaviours live there:
  - the forward guards and navigation between the steps (src/app/(wizard)/step-1/page.tsx:167-175, src/app/(wizard)/step-2/page.tsx:79-93);
  - the request `{ answers: data }` sent to the generation endpoint (src/app/(wizard)/final/page.tsx:153-157);
  - the filtering of the returned documents to the non-empty ones (src/app/(wizard)/final/page.tsx:83-88).
  The endpoint itself returns whatever `JSON.parse` gives (src/app/api/generate/route.ts:73-75).
- No `hydrate` operation of the answer store exists in the code, so none is modelled. `getProject` has no caller in the application. With a `projectId` in the URL, the final page calls `updateProject` with the store's current answers and never loads the record (src/app/(wizard)/final/page.tsx:67-69, 126-127).
- ProjectStore.ProjectStore.UpdateProject and ProjectStore.ProjectStore.GetProject: ids are opaque map keys. The database's `doc(db, "projects", projectId)` reads a "/" inside an id as a path separator, and the model does not capture that. An odd number of path segments makes `doc()` throw, and the catch returns that error's message instead of "No document to update" or "Projeto não encontrado". An id such as "a/b/c" names a document in a subcollection.
