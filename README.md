# CV builder and payments: a Dafny model

This project models the decision logic of a CV web application. The
application has a small Express payment server and a React client.

- **Payment server** (`server/index.js`):
  - `POST /api/create-payment` dispatches to Stripe (embedded checkout),
    Paystack (redirect) or PayPal (mock redirect).
  - Three webhook handlers decide whether to reject a delivery, acknowledge
    it, or call the credit function.
  - `GET /api/verify-session/:id` resolves a landing page's session id.
  - A middleware keeps webhook bodies raw.
  - Every call of the credit function is recorded in an append-only log.
- **Client payment flow**:
  - The checkout modal builds the create-payment request and dispatches on
    the provider's reply.
  - The landing page turns the verify-session reply into a status. It is
    the only place that sets the `cv_paid` flag.
  - `PaymentFlow` states the cross-module facts:
    - the modal reads the response field the server writes, for each
      provider;
    - the generated reference reaches the provider unchanged;
    - a Paystack or PayPal return sends no session id, so that landing
      always ends in an error;
    - a Stripe landing succeeds exactly when verify-session reports it paid;
    - a paid landing unlocks the builder's download.
- **CV analyzer** (`src/utils/cvAnalyzer.ts`):
  - The heuristic scorer is a method that decrements a mutable score and
    pushes suggestions. It is proved equal to a specification function.
  - Lemmas about that function give the score formula and its bounds
    (35 to 60), the order of the suggestions, the pairing of each
    suggestion's type with its priority, the metrics, and the fixed
    constants.
  - The clean-up of the language model's reply is modelled, together with
    the rule that any failure falls back to the heuristic.
- **CV editing**:
  - Experience and Education append, update by id, and remove by id, over
    a shared generic list module.
  - The Skills editor is a class. `{ ...skills }` copies only the record,
    so its `push` and `splice` change the `hard` and `soft` arrays of the
    builder's module-level `initialData` in place. The model keeps these
    arrays as one shared object, `Skills.SkillArrays`. The next mount of
    the builder reads them (`CvBuilder.MountData`).
  - The builder's record updates, its paid flag and its download control.
  - The document content tree: which sections appear, the header
    fallback, the date text, the bullets and the skill joins.
- **Small state machines**:
  - The pathname-to-section sync in `App.tsx` and the navigation targets,
    with the round trip between them.
  - The three-step wizard of `CVCreator.tsx`.

Foreign or environmental inputs are parameters or fields.

- Stripe's SDK, the Paystack HTTP call, HMAC-SHA512 and `JSON.stringify`
  are the function-typed fields of `Server.Env`. Nothing is assumed about
  them.
- The model call and `JSON.parse` are parameters of
  `CvAnalyzer.AnalyzeWithModel`.
- `Date.now()`, the base-36 text of `Math.random()` and
  `crypto.randomUUID()` are parameters.
- The outcome of `fetch` + `res.json()` is a `FetchResult`.
- `localStorage` is a `map` field, and `window.location.href` is a field.

Two properties of the payment server's code that the model states:

- Providers may deliver the same webhook more than once, and the handler
  credits every delivery: the credit function only logs each call
  (server/index.js:29-32). `Server.DeliverTwice` shows a repeated delivery
  credited twice.
- The Paystack signature is compared with plain `==` (server/index.js:119),
  and the model compares with plain equality.

Other behaviour of the code that the model makes visible:

- verify-session reports any id without the `cs_` prefix as `paid`
  (server/index.js:150-151). So a `/payment/success?session_id=…` landing
  whose id does not start with `cs_` sets `cv_paid`, provided the id
  reaches the route unchanged: one segment of URL-unreserved characters
  (`PaymentFlow.StripeLanding`). An id the router does not take as one
  path segment gets an HTML error page instead, and the landing ends in
  an error (`PaymentFlow.ErrorPageLandingFails`).
- The Paystack and PayPal return URLs carry no `session_id`. Returning
  from either provider therefore always shows an error
  (`PaymentFlow.NonStripeLandingsFail`).
- Skills outlive the builder. `useState(initialData)` starts every mount
  from the same object, whose skill arrays earlier edits changed in place.
  After leaving the builder and returning, the personal fields, summary,
  experience and education are empty again, but the skills are still
  listed (`CvBuilder.SkillSurvivesRemount`).
- In the wizard, each timer keeps the step it captured, and Continue stays
  clickable while processing. A timer can therefore move the wizard from
  step 1 straight to step 3 after "Create Another"
  (`CvCreator.StaleTimerSkipsStep`). The step still never leaves 1..3.

## Model

| member | source | states |
|---|---|---|
| Server.CreatePayment | server/index.js:35-92 | stripe, paystack and paypal return `{clientSecret}`, `{authorizationUrl}` and `{approvalUrl, mock: true}`. Any other provider gets 400 "Invalid provider". A provider call that throws gives 500, and nothing else does. Only stripe and paystack call out. Both forward the reference and Stripe gets one line item in embedded mode |
| Server.PaystackAmount | server/index.js:62 | the amount sent is 100 times the amount, or 100000 when it is missing or zero |
| Server.PaystackEmail | server/index.js:61 | the e-mail, or `customer@example.com` when missing or empty |
| Server.StripeWebhook | server/index.js:98-111 | 400 exactly when signature verification throws, else 200. A credit `(client_reference_id, 'stripe_success')` happens exactly for a verified `checkout.session.completed` |
| Server.PaystackWebhook | server/index.js:114-129 | 400 with no credit when the HMAC of the re-serialised body differs from the header. On a match, 200 and a credit `(data.reference, 'paystack_success')` exactly for `charge.success`. No answer when the secret or `data` is missing |
| Server.TamperedPaystackBodyRejected | server/index.js:115-128 | a body whose HMAC differs from the signed one is answered 400 and credits no one |
| Server.PaypalWebhook | server/index.js:132-136 | always 200, never a credit |
| Server.VerifySession | server/index.js:140-155 | a `cs_` id returns the provider's `payment_status`, or 500 when the lookup throws. Every other id returns `paid` |
| Server.MiddlewareRoutes | server/index.js:19-25 | webhook URLs skip the global JSON parser; create-payment and verify-session use it |
| Server.CreditsOf | server/index.js:98-136 | at most one credit per request, only from the two webhook success branches. create-payment, verify-session and the PayPal webhook never credit |
| Server.PaymentServer.UpdateUserCredits | server/index.js:29-32 | appends one `(userId, type)` entry to the log and reports success |
| Server.PaymentServer.ApplyWebhook | server/index.js:106-110 | answers with the webhook's response and appends its credit, if any |
| Server.PaymentServer.Handle | server/index.js:35-155 | the response is the route's and the log grows by exactly that request's credits |
| Server.DeliverTwice | server/index.js:29-32 | a repeated delivery is answered the same and logged twice: no deduplication |
| Http.QueryGet | src/components/Payment/PaymentStatus.tsx:8 | `get(key)` is null exactly when no pair has the key, and otherwise is the value of the first pair with that key |
| Http.Receive | src/components/Payment/PaymentStatus.tsx:23-24 | a JSON body parses to its object. A text body makes `res.json()` throw |
| Http.SendStatus | server/index.js:125-127 | the status code with a text body |
| Strings.Trim | src/components/CVBuilder/FormSections/Skills.tsx:15 | a slice of the input with no whitespace at either end |
| Strings.TrimEmptyIffBlank | src/components/CVBuilder/FormSections/Skills.tsx:15 | `!value.trim()` holds exactly for whitespace-only values |
| Strings.Split | src/components/CVBuilder/CVDocument.tsx:135 | `split('\n')` gives one more piece than separators, none holding the separator |
| Strings.JoinSplit | src/components/CVBuilder/CVDocument.tsx:135 | joining the pieces of a split gives back the string |
| Strings.SplitJoin | src/components/CVBuilder/CVDocument.tsx:135 | splitting a join of separator-free pieces gives back the pieces |
| Strings.SplitOnSpaceLength | src/utils/cvAnalyzer.ts:113 | `split(/\s+/).length` is one more than the number of maximal whitespace runs |
| Strings.RemoveFenceLeavesNone | src/utils/cvAnalyzer.ts:99 | after removing every "```" none remains |
| Strings.ContainsChars | src/components/Payment/PaymentStatus.tsx:9 | a substring found by `includes` has all its characters in the string |
| PaymentModal.ClientReferenceId | src/components/Payment/PaymentModal.tsx:32 | the generated reference begins with `user_` |
| PaymentModal.RequestCarriesPlan | src/components/Payment/PaymentModal.tsx:36-42 | the body names the provider and carries `priceId = plan.id`, `amount = plan.price` and a `user_` reference |
| PaymentModal.Dispatch | src/components/Payment/PaymentModal.tsx:46-52 | the embedded checkout comes exactly with stripe and a truthy `clientSecret`. A redirect comes exactly with paystack and `authorizationUrl` or paypal and `approvalUrl`. Otherwise nothing happens |
| PaymentModal.ModalView | src/components/Payment/PaymentModal.tsx:25-128 | nothing is rendered when closed or without a plan. The embedded checkout is rendered exactly when a truthy secret is held. The picker shows the loading state |
| PaymentModal.PaymentModalState.HandlePaymentInit | src/components/Payment/PaymentModal.tsx:27-58 | posts the request body, records the provider, clears `loading` whether the fetch succeeded or threw, and stores the secret or the redirect the dispatch chose |
| PaymentModal.CheckoutShownIffSecret | src/components/Payment/PaymentModal.tsx:73-128 | under the modal's invariant, the embedded checkout is shown iff a client secret is stored |
| PaymentStatus.InitialStatus | src/components/Payment/PaymentStatus.tsx:9-11 | `canceled` exactly when the pathname contains "cancel", otherwise `loading` |
| PaymentStatus.StatusAfterEffect | src/components/Payment/PaymentStatus.tsx:13-49 | canceled stays. A missing session id gives error. `paid` gives success. `open` keeps the status. Anything else, or a throw, gives error |
| PaymentStatus.PaymentStatusPage.constructor | src/components/Payment/PaymentStatus.tsx:8-11 | reads the session id and the cancel flag and sets the initial status |
| PaymentStatus.PaymentStatusPage.RunEffect | src/components/Payment/PaymentStatus.tsx:13-52 | fetches exactly when not canceled and a session id is present. It sets the status and writes `cv_paid = 'true'` exactly on a `paid` reply |
| PaymentStatus.CanceledStays | src/components/Payment/PaymentStatus.tsx:9-14 | a canceled landing stays canceled and never writes `cv_paid` |
| CvAnalyzer.WordCount | src/utils/cvAnalyzer.ts:113 | the word count is one more than the number of whitespace runs |
| CvAnalyzer.SuggestionsFor | src/utils/cvAnalyzer.ts:120-153 | one suggestion per failed check, each pairing critical/High, warning/Medium or info/Good |
| CvAnalyzer.Report | src/utils/cvAnalyzer.ts:159-173 | atsCompatibility = professionalRating = score, impactScore = score - 5, readability = 85. Skills, keywords and summary are the fixed constants |
| CvAnalyzer.ReportScore | src/utils/cvAnalyzer.ts:115-155 | score = 60 - 10·[no '@'] - 5·[no phone] - 10·[words < 200] |
| CvAnalyzer.ScoreFormula | src/utils/cvAnalyzer.ts:110-155 | the same formula over `/@/`, `/\d{3,}/` and the word count of the text |
| CvAnalyzer.ScoreBounds | src/utils/cvAnalyzer.ts:115-155 | 35 ≤ score ≤ 60 |
| CvAnalyzer.LinkedInNeutral | src/utils/cvAnalyzer.ts:138-145 | whether "linkedin.com" occurs never changes the score |
| CvAnalyzer.FailedIffNotPassed | src/utils/cvAnalyzer.ts:118-155 | a check is listed as failed exactly when it fails |
| CvAnalyzer.FailedInOrder | src/utils/cvAnalyzer.ts:118-155 | failed checks come in the order email, phone, LinkedIn, length |
| CvAnalyzer.TalliedSuggestions | src/utils/cvAnalyzer.ts:118-155 | the pushed suggestions are those of the failed checks, in order |
| CvAnalyzer.SuggestionsMatchFailures | src/utils/cvAnalyzer.ts:118-155 | exactly one suggestion per failed check, in the fixed order, each correctly paired |
| CvAnalyzer.LinkedInSuggestion | src/utils/cvAnalyzer.ts:138-145 | a missing LinkedIn link adds the info/Good suggestion and takes no points |
| CvAnalyzer.HeuristicAnalysis | src/utils/cvAnalyzer.ts:108-174 | the mutable-score, push-as-you-go procedure computes the specification's result |
| CvAnalyzer.CleanedReplyHasNoFence | src/utils/cvAnalyzer.ts:99 | the cleaned reply contains no "```" and has no whitespace at either end |
| CvAnalyzer.PromptText | src/utils/cvAnalyzer.ts:67 | the prompt carries a prefix of at most 10000 characters of the CV |
| CvAnalyzer.AnalyzeWithModel | src/utils/cvAnalyzer.ts:57-106 | a throw of the model call or of the parse gives the heuristic result. Otherwise the parsed result of the cleaned reply is returned |
| CvAnalyzer.FallbackIsHeuristic | src/utils/cvAnalyzer.ts:102-105 | on any failure the result is the heuristic one, with its 35..60 score |
| ItemList.UpdateWhere | src/components/CVBuilder/FormSections/Experience.tsx:23-25 | the length is kept, matching items are edited, the others are unchanged, and an absent id is a no-op |
| ItemList.RemoveWhere | src/components/CVBuilder/FormSections/Experience.tsx:27-29 | keeps exactly the items whose id differs |
| ItemList.RemoveConcat | src/components/CVBuilder/FormSections/Experience.tsx:28 | removing distributes over concatenation, so order is preserved |
| ItemList.RemoveAbsent | src/components/CVBuilder/FormSections/Education.tsx:25 | removing an id no item has changes nothing |
| ItemList.RemoveCount | src/components/CVBuilder/FormSections/Education.tsx:25 | the removed count is the number of matching items |
| Experience.Apply | src/components/CVBuilder/FormSections/Experience.tsx:24 | the edited field reads the new value, every other field is unchanged |
| Experience.AddItem | src/components/CVBuilder/FormSections/Experience.tsx:10-21 | one blank entry (empty strings, not current) with the fresh id is appended, the rest unchanged |
| Experience.UpdateItem | src/components/CVBuilder/FormSections/Experience.tsx:23-25 | the length is kept and only the named field of matching entries changes. An unknown id is a no-op |
| Experience.RemoveItem | src/components/CVBuilder/FormSections/Experience.tsx:27-29 | every entry with the id goes and every other stays |
| Experience.RemoveKeepsOrder | src/components/CVBuilder/FormSections/Experience.tsx:27-29 | the surviving entries keep their relative order |
| Experience.AddThenRemove | src/components/CVBuilder/FormSections/Experience.tsx:10-29 | adding with a fresh id, then removing it, restores the list |
| Education.Apply | src/components/CVBuilder/FormSections/Education.tsx:21 | the edited field reads the new value, every other field is unchanged |
| Education.AddItem | src/components/CVBuilder/FormSections/Education.tsx:10-18 | one entry with empty degree, institution and year is appended, the rest unchanged |
| Education.UpdateItem | src/components/CVBuilder/FormSections/Education.tsx:20-22 | the length is kept and only the named field of matching entries changes. An unknown id is a no-op |
| Education.RemoveItem | src/components/CVBuilder/FormSections/Education.tsx:24-26 | exactly the matching entries go |
| Education.RemoveKeepsOrder | src/components/CVBuilder/FormSections/Education.tsx:24-26 | order is preserved |
| Education.AddThenRemove | src/components/CVBuilder/FormSections/Education.tsx:10-26 | add-fresh-then-remove is the identity |
| Skills.Added | src/components/CVBuilder/FormSections/Skills.tsx:14-21 | the trimmed value is appended when it is non-blank and new, otherwise the list is unchanged |
| Skills.AddedBlank | src/components/CVBuilder/FormSections/Skills.tsx:15 | a whitespace-only value changes nothing |
| Skills.AddedDistinct | src/components/CVBuilder/FormSections/Skills.tsx:17-20 | a duplicate-free list stays duplicate-free and then contains the trimmed value |
| Skills.SpliceStart | src/components/CVBuilder/FormSections/Skills.tsx:25 | the `splice` start lies within the list |
| Skills.Spliced | src/components/CVBuilder/FormSections/Skills.tsx:25 | element i goes and later ones shift down. An index past the end removes nothing |
| Skills.SplicedRemovesOne | src/components/CVBuilder/FormSections/Skills.tsx:23-27 | on a duplicate-free list exactly the indexed skill disappears |
| Skills.SkillArrays.constructor | src/components/CVBuilder/CVBuilder.tsx:26-29 | the skill arrays of `initialData` start empty |
| Skills.SkillsEditor.constructor | src/components/CVBuilder/FormSections/Skills.tsx:10-12 | the editor works on the arrays it is given, with both inputs empty and no `setSkills` call yet |
| Skills.SkillsEditor.SetInput | src/components/CVBuilder/FormSections/Skills.tsx:46 | sets only that input |
| Skills.SkillsEditor.AddSkill | src/components/CVBuilder/FormSections/Skills.tsx:14-21 | changes only the chosen shared array, as `Added` says, and calls `setSkills` exactly when it pushed |
| Skills.SkillsEditor.RemoveSkill | src/components/CVBuilder/FormSections/Skills.tsx:23-27 | splices only the chosen shared array and always calls `setSkills` |
| Skills.SkillsEditor.AddClicked | src/components/CVBuilder/FormSections/Skills.tsx:51-56 | adds the input's value, then clears that input |
| Skills.SkillsEditor.KeyDown | src/components/CVBuilder/FormSections/Skills.tsx:29-35 | Enter adds then clears. Other keys change nothing |
| CvDocument.HeaderName | src/components/CVBuilder/CVDocument.tsx:102 | `fullName`, or `Your Name` when it is empty |
| CvDocument.ContactsShown | src/components/CVBuilder/CVDocument.tsx:104-109 | only non-empty fields appear. Phone, location and LinkedIn carry the `• ` prefix and the e-mail none |
| CvDocument.ContactsComplete | src/components/CVBuilder/CVDocument.tsx:105-108 | every non-empty contact field appears |
| CvDocument.ContactsOrdered | src/components/CVBuilder/CVDocument.tsx:105-108 | the order is e-mail, phone, location, LinkedIn |
| CvDocument.DateText | src/components/CVBuilder/CVDocument.tsx:128-130 | `startDate - Present` when current, else `startDate - endDate` |
| CvDocument.Bullets | src/components/CVBuilder/CVDocument.tsx:133-141 | none for an empty description. Otherwise one bullet per line, which rejoin to the description |
| CvDocument.SingleLineBullet | src/components/CVBuilder/CVDocument.tsx:135 | a one-line description is a single bullet |
| CvDocument.SkillLines | src/components/CVBuilder/CVDocument.tsx:168-183 | a technical line iff hard skills exist and a soft line iff soft skills exist, each joined by `, ` |
| CvDocument.Render | src/components/CVBuilder/CVDocument.tsx:100-185 | summary, experience and education appear iff non-empty, and skills iff either list is. Entries map one to one, in order |
| CvBuilder.InitialData | src/components/CVBuilder/CVBuilder.tsx:14-30 | the literal: all personal fields and the summary are empty, and all lists are empty |
| CvBuilder.MountData | src/components/CVBuilder/CVBuilder.tsx:14-33 | a mount starts from the empty literal but with the shared skill arrays as they now are. That equals the literal iff both arrays are empty |
| CvBuilder.SkillSurvivesRemount | src/components/CVBuilder/FormSections/Skills.tsx:14-21 | after a skill is added, the next mount lists it (and the other array unchanged) while its personal fields are empty |
| CvBuilder.UpdatePersonalInfo | src/components/CVBuilder/CVBuilder.tsx:46-51 | exactly that personal field changes and every other field and section is unchanged |
| CvBuilder.UpdateSummary | src/components/CVBuilder/CVBuilder.tsx:53-55 | only the summary changes |
| CvBuilder.SetExperience | src/components/CVBuilder/CVBuilder.tsx:78 | only the experience section is replaced |
| CvBuilder.SetEducation | src/components/CVBuilder/CVBuilder.tsx:86 | only the education section is replaced |
| CvBuilder.SetSkills | src/components/CVBuilder/CVBuilder.tsx:94 | only the skills are replaced |
| CvBuilder.IsPaidAtMount | src/components/CVBuilder/CVBuilder.tsx:38-44 | paid iff storage `cv_paid` equals `'true'` |
| CvBuilder.DownloadControlFor | src/components/CVBuilder/CVBuilder.tsx:105-126 | a `my-cv.pdf` link of the rendered CV iff paid, otherwise a button to `/pricing` |
| CvBuilder.InitialDocument | src/components/CVBuilder/CVBuilder.tsx:14-30 | the empty literal, which the first mount starts from, renders as `Your Name` with no contacts and no sections |
| CvBuilder.AddedExperienceRenders | src/components/CVBuilder/FormSections/Experience.tsx:10-21 | a new entry renders last, with the date text " - " and no bullets |
| CvBuilder.RemovedExperienceRenders | src/components/CVBuilder/FormSections/Experience.tsx:27-29 | after a removal only entries of other ids are shown, and the other blocks are unchanged |
| App.PathKey | src/App.tsx:24 | the pathname after its first character, or `home` when that is empty |
| App.SectionForPath | src/App.tsx:23-30 | always one of the four ids. `create`, `analyze` and `pricing` map to themselves and everything else maps to `home` |
| App.KnownPaths | src/App.tsx:24-29 | `/` and the empty path give home, the three routes give their ids, and both payment pages give home |
| Navigation.TargetFor | src/components/Navigation.tsx:53-54 | home navigates to `/`, any other item to `/` + id |
| Navigation.Click | src/components/Navigation.tsx:51-55 | a click sets `activeSection` to the id and navigates to its target |
| Navigation.OneActive | src/components/Navigation.tsx:19-47 | at most one item is active, and one is active iff the section is a nav id |
| Navigation.RoundTrip | src/components/Navigation.tsx:51-55 | every item's target maps back to that item in the layout's sync |
| CvCreator.IndicatorFor | src/components/CVCreator.tsx:40-53 | highlighted iff step ≥ k, a check iff step > k, pulsing iff step = k |
| CvCreator.IndicatorsAgree | src/components/CVCreator.tsx:36-70 | on steps 1..3 exactly the current indicator pulses, earlier ones show checks, and connector k is filled iff k is passed |
| CvCreator.Progress | src/components/CVCreator.tsx:114-119 | 75 and 45 on the last two bars while processing, all 100 otherwise |
| CvCreator.Wizard.constructor | src/components/CVCreator.tsx:5-6 | starts at step 1, not processing |
| CvCreator.Wizard.HandleProcess | src/components/CVCreator.tsx:14-20 | sets `isProcessing` and starts a timer capturing the step. The step stays in 1..3 |
| CvCreator.Wizard.TimerFires | src/components/CVCreator.tsx:16-19 | clears `isProcessing` and sets the step to the captured step + 1 |
| CvCreator.Wizard.CreateAnother | src/components/CVCreator.tsx:181-186 | from step 3 the step returns to 1 |
| CvCreator.HappyPath | src/components/CVCreator.tsx:95-186 | Continue, View Results and Create Another cycle through the steps |
| CvCreator.StaleTimerSkipsStep | src/components/CVCreator.tsx:14-20 | a stale timer can take step 1 to step 3 |
| PaymentFlow.BodyOf | src/components/Payment/PaymentModal.tsx:37-42 | the server reads provider, price id, amount and reference, and no currency or e-mail |
| PaymentFlow.StripeRoundTrip | server/index.js:39-49 | the reference and price reach Stripe. The modal embeds the checkout iff Stripe gave a secret |
| PaymentFlow.PaystackRoundTrip | server/index.js:51-74 | the reference reaches Paystack, and the amount is 100 × price (100000 for 0) with the default e-mail. The modal redirects iff a URL came back |
| PaymentFlow.PaypalRoundTrip | server/index.js:76-83 | no provider call, and the modal always redirects to the mock approval URL |
| PaymentFlow.SuccessPathNotCanceled | src/components/Payment/PaymentStatus.tsx:9 | `/payment/success` does not count as canceled |
| PaymentFlow.NonStripeLandingsFail | server/index.js:64-81 | returning from Paystack or PayPal ends in error and never sets `cv_paid` |
| PaymentFlow.StripeLandingSessionId | server/index.js:47 | the filled-in Stripe return URL yields that session id |
| PaymentFlow.VerifiedStatus | server/index.js:144-151 | the verify-session reply reads as paid or open exactly as the lookup says, and non-`cs_` ids as paid |
| PaymentFlow.StripeLanding | src/components/Payment/PaymentStatus.tsx:13-49 | for an id of URL-unreserved characters, a Stripe landing succeeds, and sets `cv_paid`, iff the id is non-empty and is not `cs_` or is paid. An open session stays loading |
| PaymentFlow.ErrorPageLandingFails | src/components/Payment/PaymentStatus.tsx:21-47 | a non-JSON verify-session answer, such as Express's error page, makes the landing end in error without writing `cv_paid` |
| PaymentFlow.PaidUnlocksDownload | src/components/CVBuilder/CVBuilder.tsx:38-44 | over the storage the landing's effect leaves, a landing that marks the CV paid makes the builder offer the download, and any other landing leaves the paid flag as it was |

## Left out

- Express routing, CORS, dotenv and `app.listen` are left out. Each request
  is one call of `Server.PaymentServer.Handle`, and requests are handled one
  at a time.
- The 400 that `express.json()` sends for a malformed JSON body, before the
  create-payment, Paystack or PayPal handler runs, is not modelled. The
  handlers are modelled on bodies that parsed.
- PaymentFlow.StripeLanding: stated only for ids of URL-unreserved
  characters other than `.` and `..`. The client puts the id into the fetch
  path unencoded, and for other ids the URL parser and the router may change
  or split it. Neither is modelled; `PaymentFlow.ErrorPageLandingFails`
  covers the error-page answers such ids get.
- The Paystack body's fields other than `event` and `data.reference` are
  kept as `unread` maps of flat JSON values, so `JSON.stringify` sees them.
  Field order and nested values in them are not modelled.
- The Stripe SDK (`sessions.create` and `retrieve`, `webhooks.constructEvent`),
  the axios call to Paystack, HMAC-SHA512 (RFC 2104 section 2 over FIPS 180-4
  section 6.4) and `JSON.stringify` are oracles in `Server.Env`, with no
  properties assumed.
- Console logging is left out: it has no effect on any result.
- CvAnalyzer.AnalyzeWithModel: the `parse` parameter yields an
  `AnalysisResult`, so it also stands for the unchecked cast of
  `JSON.parse`'s value. A reply that parses to another shape, such as `null`
  or `[]`, is returned as is by the source without a fallback. The model
  cannot express that.
- Server.PaystackWebhook: where the handler throws (no secret key, or no
  `data` on a `charge.success`), the model records no answer and no credit.
  What follows depends on the Express version, which is not part of this
  model. Express 5 answers 500. Under Express 4 the rejection is unhandled,
  and on Node 15 and later that ends the process. `Server.PaymentServer.Handle`
  going on to the next request holds only in the former case.
- PDF and DOCX text extraction and the language model call are library I/O.
  The prompt's wording is not modelled beyond the CV excerpt it carries.
- `window.location`, `localStorage`, `fetch` and `setTimeout` belong to the
  environment. They appear as fields and parameters, and a timer's firing
  is its own method. The landing page's empty three-second timer does
  nothing and is not modelled.
- PaymentModal.ClientReferenceId: the clock reading and the base-36 text of
  the random number are parameters. The model does not state which
  characters `toString(36)` produces.
- React rendering is not modelled: state updates apply at once. Styles,
  `PDFViewer`, `PDFDownloadLink` and `ProtectedPreview` are presentation.
  Only the document's content tree is modelled.
- Hero, Achievements, Analysis, Pricing, PersonalInfo and Summary are not
  part of this model. They are presentation, static plan data or plain
  input bindings.
- Experience.UpdateItem: each edit is typed, so the text fields take strings
  and `current` takes a boolean. The form only writes such values. Writes
  of other types that `value: any` would accept are not modelled.
- CvBuilder.UpdatePersonalInfo: the field is one of the six keys the form
  passes. The source's `field: string` would add a new key for any other
  name, which no caller does.
- Skills.Spliced: the index is an integer. JavaScript's handling of
  fractional or `NaN` indices is not modelled.
- Server.PaystackAmount: the amount is an integer. JavaScript numbers that
  are fractional or strings are not modelled.
- Strings are sequences of Unicode scalar values. JavaScript's UTF-16 code
  units differ only for characters outside the Basic Multilingual Plane, for
  `substring(7)` and `substring(0, 10000)`.
- The Stripe return URL's template is filled in by Stripe. The model takes
  the result as given (`PaymentFlow.WithSessionId`) and checks no URL
  text parsing.
