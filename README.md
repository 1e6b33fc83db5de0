# AddCompany form — a Dafny model

This project models the logic inside the `AddCompany` React component of the
placements portal (`client/src/Components/Team/Company/AddCompany.js`). The
component holds a company draft, can pre-fill it from a LinkedIn profile
through a scraping endpoint, and submits it to `POST /addCompany`. The model
covers the component's only pieces of logic:

- `getCompanyId` (module `CompanyId`). It splits a URL on `/`, finds the first
  segment equal to `"company"` and takes the segment after it. `Split`,
  `Join` and `FindIndex` model `String.prototype.split`, its inverse and
  `Array.prototype.findIndex`.
- The draft record and the merge of a scrape response into it (module
  `CompanyDraft`). Each of `name`, `natureOfBusiness`, `website`, `linkedIn`
  and `logo` becomes `res.data.<key> || formData.<key>`. The input boxes are
  modelled with the key each one writes and the key each one shows. The
  "Company Website" box is named `logo`, so typing into it writes `logo`.
- The name box's helper text and error flag (module `HelperText`).
- The component's state as a class (module `Component`). Its fields are the
  seven `useState` variables. Its methods are the handlers `runScrapper`,
  `handleAddCompany`, `handleChange` and `handleClose`, plus one method for
  each way a request's promise settles.

JavaScript `undefined` is `Option.None`. A string is truthy when it is present
and non-empty (`JsValues.IsTruthy`). An `errors` list in a failure body is
truthy whenever it is present, even when it is empty, as arrays are in
JavaScript.

The scrape continuation is a closure over the `formData` of the render that
started it. `RunScrapper` therefore returns a `ScrapeRequest` that holds this
snapshot, and `ScrapeSucceeded` merges the response into the snapshot, not
into the current draft. Edits made while the scrape was pending are lost.

The `.catch` handlers read `err.response.data`. A rejection without a
response (a network error) therefore throws inside the handler. In the scrape
handler this happens before any setter runs, so the spinner stays on. In the
submit handler it happens after `setAddCompanyLoad(false)`, so only the
spinner is dropped. These outcomes are modelled as `ScrapeNoResponse` and
`SubmitNoResponse`.

Two behaviours of the code are easy to miss:

- `getCompanyId` does not return `undefined` when there is no `company`
  segment: `findIndex` gives -1 and the result is segment 0, the text before
  the first `/`. So `https://example.com` yields `"https:"`, which is truthy,
  and a scrape is requested (`SiteUrlExample`). Only a URL whose first
  `company` segment is its last segment yields `undefined`.
- A failed submission without `errors` keeps the old `errors` list; one with
  `errors` keeps the old `error` (`AddCompanyFailed`).

## Model

| member | source | states |
|---|---|---|
| CompanyId.Split | client/src/Components/Team/Company/AddCompany.js:19 | `url.split("/")` gives at least one segment; no segment contains the separator; the first segment is the text before the first separator (the whole string when there is none) |
| CompanyId.JoinSplit | client/src/Components/Team/Company/AddCompany.js:19 | joining the segments of a split with the separator gives back the original string |
| CompanyId.SplitJoin | client/src/Components/Team/Company/AddCompany.js:19 | splitting the join of separator-free segments gives back those segments, so split is a bijection onto non-empty lists of separator-free segments |
| CompanyId.FindIndex | client/src/Components/Team/Company/AddCompany.js:20 | `findIndex` is -1 exactly when the element is absent; otherwise the element is at that index and at no earlier one |
| CompanyId.GetCompanyId | client/src/Components/Team/Company/AddCompany.js:18-22 | the result is undefined exactly when the last segment is "company" and no earlier segment is; a returned identifier never contains '/' |
| CompanyId.CompanyIdAfterMarker | client/src/Components/Team/Company/AddCompany.js:18-22 | for any URL `.../company/<id>/...` whose earlier segments are not "company", the result is `<id>`, whatever follows, including further "company" segments |
| CompanyId.ProfileUrl | client/src/Components/Team/Company/AddCompany.js:18-22 | a URL `<scheme>//<host>/company/<id>/` yields `<id>` |
| CompanyId.PlaceholderUrl | client/src/Components/Team/Company/AddCompany.js:128 | the LinkedIn box's placeholder `https://www.linkedin.com/company/google/` yields `"google"` |
| CompanyId.CompanyIdWithoutMarker | client/src/Components/Team/Company/AddCompany.js:20-21 | without a "company" segment `findIndex` is -1 and the result is segment 0, not undefined |
| CompanyId.SiteUrl | client/src/Components/Team/Company/AddCompany.js:20-21 | a URL `<scheme>//<host>` without a "company" segment yields its scheme |
| CompanyId.SiteUrlExample | client/src/Components/Team/Company/AddCompany.js:20-21 | `https://example.com` yields `"https:"`, a truthy identifier |
| CompanyId.BareNameUrl | client/src/Components/Team/Company/AddCompany.js:19-21 | any text that contains no '/' and is not "company" is its own identifier |
| CompanyId.EmptyCompanyIds | client/src/Components/Team/Company/AddCompany.js:19-21 | the empty URL and `company/` yield `""`; `company` alone yields undefined |
| CompanyDraft.With | client/src/Components/Team/Company/AddCompany.js:99 | `{ ...formData, [name]: value }` sets the named key to the value and leaves every other key as it was |
| CompanyDraft.Merge | client/src/Components/Team/Company/AddCompany.js:59-66 | the record built by the `.then` continuation; `MergeAt` states it key by key: a truthy response value replaces the draft value, otherwise the draft value is kept, and the five unscraped keys are copied |
| CompanyDraft.Scraped | client/src/Components/Team/Company/AddCompany.js:61-65 | a scrape response carries values only for the five scraped keys |
| CompanyDraft.MergeAt | client/src/Components/Team/Company/AddCompany.js:59-66 | key by key: a truthy response value replaces the draft's value; an empty or absent one keeps it; the five unscraped keys never change |
| CompanyDraft.MergeNothingTruthy | client/src/Components/Team/Company/AddCompany.js:59-66 | a response with no truthy value leaves the draft unchanged |
| CompanyDraft.MergeIdempotent | client/src/Components/Team/Company/AddCompany.js:59-66 | merging the same response twice is the same as merging it once |
| CompanyDraft.MergeOverrides | client/src/Components/Team/Company/AddCompany.js:59-66 | drafts that differ only on keys the response fills in merge to the same draft |
| CompanyDraft.WrittenKey | client/src/Components/Team/Company/AddCompany.js:124-259 | the `name` attribute of each box, the key `handleChange` writes; `WebsiteBoxWritesLogo` states that the website box writes `logo` and no box writes `website` |
| CompanyDraft.ShownKey | client/src/Components/Team/Company/AddCompany.js:124-259 | the `value` attribute of each box; `WebsiteBoxWritesLogo` states that it equals the written key for every box but the website box |
| CompanyDraft.WebsiteBoxWritesLogo | client/src/Components/Team/Company/AddCompany.js:182-197 | the "Company Website" box is the only box that shows one key and writes another; it writes `logo`, and no box writes `website` |
| CompanyDraft.EditBox | client/src/Components/Team/Company/AddCompany.js:188-197 | typing into any box leaves `website` unchanged; typing into the website box sets `logo` |
| HelperText.FindByParam | client/src/Components/Team/Company/AddCompany.js:160 | `errors.find` is undefined exactly when no entry has the parameter; otherwise it is the first entry with it |
| HelperText.NameMessage | client/src/Components/Team/Company/AddCompany.js:160 | `errors.find((e) => e.param === "name")?.error`: undefined when no entry is about `name`, else the first such entry's message (stated through `FindByParam`, and used by `NameHelperTextCases` and `FlaggedWithDefaultText`) |
| HelperText.NameHelperText | client/src/Components/Team/Company/AddCompany.js:157-163 | the name box's helper text; `NameHelperTextCases` and `FlaggedWithDefaultText` state all four cases over all inputs: non-empty `error`, first `name` entry with a non-empty message, no `name` entry, first `name` entry with an empty message |
| HelperText.NameInError | client/src/Components/Team/Company/AddCompany.js:164 | the name box is flagged exactly when `error` is non-empty or some entry is about `name` |
| HelperText.NameHelperTextCases | client/src/Components/Team/Company/AddCompany.js:157-163 | a non-empty `error` is shown; otherwise the first `name` entry's non-empty message; with no `name` entry and empty `error`, the default text |
| HelperText.HelperTextOnlyInError | client/src/Components/Team/Company/AddCompany.js:157-164 | for every `error` and `errors`, a box that is not flagged shows the default text, so other text is shown only while the box is flagged |
| HelperText.FlaggedWithDefaultText | client/src/Components/Team/Company/AddCompany.js:157-164 | for every list whose first `name` entry has an empty message, with `error` empty, the box is flagged and shows the default text; later `name` entries are not consulted |
| Component.AddCompany.constructor | client/src/Components/Team/Company/AddCompany.js:26-43 | on mount nothing is loading, the notification is closed, there are no errors and every draft field is empty |
| Component.AddCompany.RunScrapper | client/src/Components/Team/Company/AddCompany.js:45-76 | clears the scrape message; a request is started exactly when the extracted identifier is truthy, and it carries that identifier and the current draft, with the spinner on; otherwise the message is "LinkedIn URL Invalid!" and the spinner and draft are unchanged |
| Component.AddCompany.ScrapeSucceeded | client/src/Components/Team/Company/AddCompany.js:56-67 | the spinner goes off and the draft becomes the merge of the response into the draft the request captured |
| Component.AddCompany.ScrapeFailed | client/src/Components/Team/Company/AddCompany.js:68-72 | with a response: message "Some error Occured!" and spinner off, draft unchanged; without one: nothing changes |
| Component.AddCompany.HandleAddCompany | client/src/Components/Team/Company/AddCompany.js:78-81 | the submit spinner goes on and the whole current draft is posted |
| Component.AddCompany.AddCompanySucceeded | client/src/Components/Team/Company/AddCompany.js:82-85 | the notification opens and the submit spinner goes off |
| Component.AddCompany.AddCompanyFailed | client/src/Components/Team/Company/AddCompany.js:86-91 | the submit spinner goes off; without `errors` the message becomes "Company with same name already exists" and `errors` is kept; with `errors` they replace the list and the message is kept; without a response both are kept |
| Component.AddCompany.HandleChange | client/src/Components/Team/Company/AddCompany.js:95-100 | all three kinds of feedback are cleared, the key the box writes gets the value and nothing else in the draft changes; the name box then shows its default text, unflagged |
| Component.AddCompany.HandleClose | client/src/Components/Team/Company/AddCompany.js:102-107 | the reason "clickaway" leaves the notification as it was; any other reason, or none, closes it |

## Left out

- The HTTP calls through the shared axios client are not modelled. Each
  response is a parameter of the continuation method: scrape data or a
  failure for the scrape, and success or a failure body for the submission.
  The client configuration is not part of this model.
- The JSX tree, the MUI components, the style objects, the avatar, the
  Snackbar's six-second auto-hide and `console.log` are not modelled. They
  render state and compute nothing.
- The LinkedIn box's helper text and error flag (lines 129-130) are not
  modelled. They only show `scrapperError` when it is set.
- The "Add Company" button is disabled while a submission is in flight
  (line 272). `HandleAddCompany` has no precondition for this; its handler
  body does not check it.
- Asynchronous interleaving is not modelled. Each continuation is a separate
  sequential step, and any number of them may run in any order; nothing ties
  a continuation to a request that is still pending.
- JavaScript truthiness is modelled for strings only. A scrape body that is
  not an object, or an `errors` value that is not an array, is not modelled.
- Unicode and UTF-16 code units are not modelled: strings are sequences of
  Dafny characters.
