# Registration form and submission endpoint — a Dafny model

This project models the two pieces of logic of a marketing-consent registration site:

- **The submission endpoint** (`POST /api/submit`, module `SubmitRoute` in `submit_route.dfy`). It runs five fail-fast validation rules in a fixed order: contact data, 18+ confirmation, age range, postal code (CEP) when physical invites are wanted, and basic consent. The first rule that fails decides the 400 refusal. An accepted body becomes one row of the `submissions` table, with camelCase fields renamed to snake_case columns. The status code is then chosen from the insert's outcome. The handler is a pure function `Post` of the parsed request and of what the storage client does with the insert. It has no state, so posting the same body twice hands the store the same row twice.
- **The client wizard** (module `FormPage` in `form_page.dfy`). It covers:
  - the `Form` record and its merge-style `update`;
  - the preference toggle;
  - the four-step counter with its per-step "next" gates;
  - the `requiredError` gate on the submit button;
  - the `sending` flag and the status line of a submission.

  The pure parts are functions with lemmas. The component state (`step`, `sending`, `msg`, `form`) is the class `Page`, and its methods change that state.

`wrappers.dfy` holds the `Option` and `Result` datatypes. JavaScript truthiness is modelled on typed fields. A body key is `Option`: `None` means the key was absent. A string field is truthy when it is present and non-empty. A boolean field is truthy when it is `Some(true)`.

Two behaviours of the handler are easy to miss. It checks the age range (route.ts:47-52). Its `catch` (route.ts:101-107) also answers 400 when the insert call itself throws, so `InsertOutcome.InsertThrew` gives 400.

The page renders each input on exactly one step, so an `update` can only supply fields of the current step (`InputsOnStep`). Together with the "next" gates this keeps the wizard invariant `StepsCompleted`: past step 1 the age is confirmed and an age range chosen; past step 2 e-mail and phone are filled. `Page.Valid()` carries that invariant.

## Model

| member | source | states |
|---|---|---|
| `SubmitRoute.Validate` | src/app/api/submit/route.ts:33-87 | a refusal names a rule the body violates; an acceptance satisfies every rule and yields exactly the renamed row |
| `SubmitRoute.FirstViolationIsFirst` | src/app/api/submit/route.ts:33-66 | the reference fail-fast check returns rule k iff k is violated and every rule listed before it holds |
| `SubmitRoute.NoViolationIsConjunction` | src/app/api/submit/route.ts:33-66 | the reference fail-fast check finds nothing iff every listed rule holds |
| `SubmitRoute.ValidateIsFailFast` | src/app/api/submit/route.ts:33-66 | the handler's straight-line checks equal the fail-fast reading of the order contact, age confirmation, age range, CEP, consent |
| `SubmitRoute.RefusalIsFirstFailingRule` | src/app/api/submit/route.ts:33-66 | the refusal is k iff k is the first rule in that order that the body violates |
| `SubmitRoute.AcceptanceIsConjunction` | src/app/api/submit/route.ts:33-66 | a body is accepted iff all five rules hold |
| `SubmitRoute.MissingContactIsReportedFirst` | src/app/api/submit/route.ts:33-38 | a missing or empty name, e-mail or phone gives the contact refusal, whatever the other fields hold |
| `SubmitRoute.CepIgnoredWithoutInvites` | src/app/api/submit/route.ts:54-59 | without physical invites, any CEP value gives the same verdict and the same row apart from its `cep` column |
| `SubmitRoute.CepRuleWithInvites` | src/app/api/submit/route.ts:54-59 | with physical invites, the CEP rule holds iff the CEP is present with 8+ characters; once earlier rules pass, any other CEP gives the CEP refusal |
| `SubmitRoute.ConsentIsRequired` | src/app/api/submit/route.ts:61-66 | without basic consent the body is refused, and with the consent refusal once every other rule passes |
| `SubmitRoute.ToRow` | src/app/api/submit/route.ts:69-87 | each of the 15 columns equals its body field under the fixed renaming (`dobConfirmed`→`dob_confirmed`, `ageRange`→`age_range`, `wantsPhysicalInvites`→`wants_physical`, `socialNetwork`→`social_network`, …), unvalidated fields passing through unchanged; the inverse mapping gives back the body |
| `SubmitRoute.Post` | src/app/api/submit/route.ts:10-107 | at most one row is handed to the insert, and one is handed iff the body parsed and was accepted; the status is 200 iff it was inserted, 500 iff the insert returned an error, and 400 otherwise (parse failure, refusal, or a thrown insert); a refusal carries the validator's rule; a 500 carries the save-failed reply; a parse failure or a thrown insert carries the payload-invalid reply |
| `SubmitRoute.RefusalIgnoresStore` | src/app/api/submit/route.ts:33-69 | an unparseable or refused request gets 400 and never reaches the store, so the store's behaviour cannot change its response |
| `FormPage.Merge` | src/app/page.tsx:46-48 | the spread `{ ...p, ...values }`: every field supplied by `values` takes its value and every other field keeps the old one |
| `FormPage.MergeNoChange` | src/app/page.tsx:46-48 | an update that supplies no field leaves the form unchanged |
| `FormPage.MergeIdempotent` | src/app/page.tsx:46-48 | applying the same update twice equals applying it once |
| `FormPage.InitialForm` | src/app/page.tsx:28-44 | the initial form has every string empty, every flag false and no preference, so `requiredError` starts true |
| `FormPage.Without` | src/app/page.tsx:53 | the filtered list no longer holds `p` and is no longer than the original |
| `FormPage.WithoutMembers` | src/app/page.tsx:53 | the filtered list holds exactly the old members other than `p` |
| `FormPage.ToggledPreferences` | src/app/page.tsx:50-56 | the toggle flips whether `p` is a preference and keeps the membership of every other value |
| `FormPage.WithoutAbsent` | src/app/page.tsx:53 | filtering out a value the list lacks returns the list itself |
| `FormPage.WithoutAppend` | src/app/page.tsx:53 | filtering distributes over concatenation |
| `FormPage.ToggleTwiceRestoresAbsent` | src/app/page.tsx:50-56 | toggling an absent preference twice gives back the original list exactly |
| `FormPage.ToggleTwiceMovesPresentToEnd` | src/app/page.tsx:50-56 | toggling a present preference twice moves it to the end; membership is restored but order need not be |
| `FormPage.WithoutKeepsNoDuplicates` | src/app/page.tsx:53 | filtering keeps a list without duplicates free of duplicates |
| `FormPage.ToggleKeepsNoDuplicates` | src/app/page.tsx:50-56 | a preference list without duplicates stays without duplicates after a toggle |
| `FormPage.ToPayload` | src/app/page.tsx:66 | the serialized form carries every one of the 15 keys the handler destructures (route.ts:14-30), each with the form's value |
| `FormPage.RequiredError` | src/app/page.tsx:81-86 | a form the gate flags is one the endpoint would refuse; a form it clears has e-mail, phone, age confirmation and basic consent |
| `FormPage.NextEnabled` | src/app/page.tsx:154-314 | "next" is never enabled past step 3 (the gates of steps 1, 2 and 3 are at lines 156, 200 and 311) |
| `FormPage.BackEnabled` | src/app/page.tsx:195-382 | "back" is offered exactly on steps 2-4 |
| `FormPage.SubmitEnabled` | src/app/page.tsx:383-385 | an enabled submit button means e-mail, phone, age confirmation and basic consent are all present |
| `FormPage.AcceptedFormClearsRequiredError` | src/app/page.tsx:81-86 | any form whose serialized body the endpoint accepts has `requiredError` false |
| `FormPage.AcceptanceGap` | src/app/page.tsx:81-86 | the endpoint accepts a form iff `requiredError` is false and also the name and age range are filled and a requested CEP has 8+ characters |
| `FormPage.AcceptanceGapOnLastStep` | src/app/page.tsx:81-86 | on step 4 of the wizard, where the age range is already chosen, the endpoint accepts iff `requiredError` is false, the name is filled and a requested CEP has 8+ characters |
| `FormPage.OptionalNameIsRefused` | src/app/page.tsx:143-151 | a form the page lets through with the name left empty (the page labels it optional) is refused by the endpoint with the contact refusal |
| `FormPage.StepOneGateMatchesServer` | src/app/page.tsx:155-157 | the step-1 gate is exactly the endpoint's age-confirmation and age-range rules |
| `FormPage.SuccessMeansStored` | src/app/page.tsx:62-70 | the page sees success for its form iff the endpoint accepted it and the insert succeeded |
| `FormPage.Page.constructor` | src/app/page.tsx:24-44 | the page starts valid, on step 1, not sending, with an empty status line and the initial form |
| `FormPage.Page.Update` | src/app/page.tsx:46-48 | an update from the inputs of the current step (rendered at lines 113-151, 172-192, 218-304 and 326-370) makes the form the merge of the old form with the supplied fields, changes nothing else, and keeps the wizard invariant |
| `FormPage.Page.TogglePref` | src/app/page.tsx:50-56 | from the step-3 checkboxes, only the preference list changes, to the toggled list, so `p`'s membership flips; the wizard invariant is kept |
| `FormPage.Page.Next` | src/app/page.tsx:78 | a press of "next" adds exactly 1 to the step when the button is enabled and otherwise changes nothing; the step stays in 1..4 and the wizard invariant is kept |
| `FormPage.Page.Back` | src/app/page.tsx:79 | a press of "back" subtracts exactly 1 from the step when the button is shown and otherwise changes nothing; the step stays in 1..4 |
| `FormPage.Page.Submit` | src/app/page.tsx:58-61 | a press of submit starts a request iff submit is enabled; a started request raises `sending` and clears the status line |
| `FormPage.Page.Resolve` | src/app/page.tsx:62-75 | once the request settles, `sending` is false and the status line is the success text iff the response was ok, and the error text otherwise, including when fetch threw |
| `FormPage.SubmitOnce` | src/app/page.tsx:383-389 | the first press of an enabled submit starts a request and a second press while it is in flight starts nothing; after it settles the status line reports the outcome, and step and form are unchanged |

## Left out

- The creation of the storage client from environment variables (route.ts:5-8) and the insert call itself (route.ts:69). They are foreign calls. `Post` takes the insert's outcome as the parameter `store`.
- `request.json()` and `NextResponse`. The body arrives parsed (`Request.Body`), or as `Unparseable` when parsing threw or the body was `null` (destructuring `null` throws). A JSON array or number destructures to all-absent fields, which is `Body` with every field `None`. The response is a status and a reply tag.
- `console.error` logging on the failure paths. It is I/O.
- The user-facing Portuguese messages. They are replaced by `ErrorKind` and `Reply` tags.
- `fetch`, `async`/`await` and `JSON.stringify`. They are abstracted to the outcome `FetchOutcome`. The serialized body is `ToPayload`, with every field present.
- React hook semantics: batched updates, re-render timing, and the stale `form` that `togglePref` reads (page.tsx:52). State changes are sequential method calls on `Page`, each seeing the latest state.
- `update` given a key whose value is explicitly `undefined`. The spread would then overwrite the field with `undefined`; `FormPatch` cannot express that. No caller in the page does it.
- The full breadth of JavaScript truthiness. Fields are typed strings and booleans. For example, a truthy non-string `cep` such as a number has no `length`, so `undefined < 8` is false and it would pass the CEP rule at route.ts:54; the model cannot express that body.
- CEP length is a count of Dafny characters. JavaScript counts UTF-16 code units, which differ only outside the Basic Multilingual Plane.
- `Page.Update`: each input's `onChange` supplies one field, while the model accepts a patch of several fields, as long as all of them belong to the current step.
- All JSX rendering, CSS and the progress-bar width `(step / 4) * 100` (page.tsx:101).
- `Page.Update` also admits a CEP update on step 3 while the CEP input is hidden, because physical invites are not wanted (page.tsx:230). The CEP rules only read the CEP when invites are wanted, so the gates and the verdict are the same either way.
- The fixed vocabularies of the selects and of the preference checkboxes. The endpoint accepts any string for them, and so does the model.
