# RankAI client core, modelled in Dafny

RankAI is a Next.js front end for an SEO and GEO (generative-engine
optimisation) audit service. A user enters a page URL, a region and two
keywords. The client asks the backend for an SEO analysis, the raw HTML and
an overview, and then shows the results. The results screen fetches
competitors, FAQs and an AI page evaluation once each, and lists the audit's
checks, which the user can filter by pass/fail. The dashboard lists recent
audits, most recent first. The "optimise content" page sends the audit to
the backend and renders the rewritten content it gets back. A login modal
validates an e-mail address. A per-browser user id lives in `localStorage`.

This project models that client logic. Each source file gets one module:

- `AuditResults`: `extractDomain` and its regex fallback, competitor
  normalisation (filter, sort by SEO score, renumber), the SEO/GEO check
  lists with their pass/fail filters and counts, and the three fetch-once
  requests. The screen's state is the class `AuditResults.View`.
- `EvaluatePageView`: the score clamp, the colour bands, the ranking by
  clamped score and the accordion.
- `FAQView`: the two FAQ lists, each with its own open card.
- `Accordion`: the shared "one open item" state.
- `SEOCheckItem`: the status icons and the case-insensitive severity lookup.
- `Dashboard`: flattening the history and sorting it by date.
- `RecentActivityTable` and `CompetitorCard`: their score colours.
- `Config`: environment selection and URL joining.
- `User`: the `localStorage` user id.
- `LoginModal`: the e-mail rules and the modal's state.
- `URLAnalyzerForm`: the submit guard, the payload, the parallel requests.
- `OptimizeContentPage` and `OptimizeContentOutput`: the proceed/back flow
  and the fallback text rendering.

Shared modules:

- `Wrappers`: `Option`, JavaScript truthiness and `||`.
- `Outcomes`: a settled promise, and `err.message` or a fallback text.
- `Text`: the JavaScript whitespace set, trim, join, split, and upper case
  for a-z plus U+0131 (dotless i), which upper-cases to `I`.
- `Seqs`: map, filter, count.
- `Sorting`: the stable `Array.prototype.sort`. Its specification is a
  functional insertion sort. An in-place array version is proved equal to it.

How the model is built:

- State that a React component keeps in hooks is a class whose fields
  mirror that state. Its methods are the event handlers. Each handler is
  proved to produce a pure transition function of the old state, and the
  lemmas are stated about those functions.
- Each asynchronous request is two events: the start, and the settlement
  with a `Resolved` or `Rejected` outcome.
- The backend, the browser's URL parser and `localStorage`
  are parameters.

## Model

| member | source | states |
|---|---|---|
| AuditResults.FindSub | components/url-audit/AuditResults.tsx:42 | an index found is where the pattern occurs |
| AuditResults.FindSubLeftmost | components/url-audit/AuditResults.tsx:42 | the index found is the leftmost occurrence; none is found exactly when the pattern occurs nowhere |
| AuditResults.ReplaceFirst | components/url-audit/AuditResults.tsx:42 | `String.replace` with a string pattern: unchanged when the pattern is absent, else the first occurrence replaced |
| AuditResults.StripLeadingWww | components/url-audit/AuditResults.tsx:42 | the host is the result with or without a "www." prefix; a host not starting with "www." is unchanged |
| AuditResults.FirstNonSlash | components/url-audit/AuditResults.tsx:44 | the position of the first character that is not '/', where the regex's leftmost match starts |
| AuditResults.RunFrom | components/url-audit/AuditResults.tsx:44 | `[^\/]+` takes the longest slash-free run from a position |
| AuditResults.SchemeLength | components/url-audit/AuditResults.tsx:44 | the optional group consumes 8 characters only for "https://", 7 only for "http://", else nothing |
| AuditResults.CaptureFrom | components/url-audit/AuditResults.tsx:44 | the capture fails exactly at the end of the string or at a '/'; a capture is non-empty and slash-free |
| AuditResults.RegexHost | components/url-audit/AuditResults.tsx:44-45 | the regex fails to match exactly when the string is all '/' characters; a capture is non-empty and slash-free |
| AuditResults.DomainFallback | components/url-audit/AuditResults.tsx:44-45 | the capture group when the regex matches, otherwise the input |
| AuditResults.FallbackStripsSchemeAndWww | components/url-audit/AuditResults.tsx:44-45 | for an optional http/https scheme, a "www." host and a path, the fallback returns exactly the host |
| AuditResults.FallbackKeepsBareHost | components/url-audit/AuditResults.tsx:44-45 | a host without "www." comes back unchanged after an optional scheme and before a path, unless a scheme-less URL itself begins with "http://" or "https://" |
| AuditResults.FallbackOfSlashes | components/url-audit/AuditResults.tsx:45 | a string of only slashes does not match and comes back unchanged |
| AuditResults.ExtractDomainAsWritten | components/url-audit/AuditResults.tsx:39-47 | the parser's host with its first "www." removed, or the regex fallback when the parser throws |
| AuditResults.ExtractDomain | components/url-audit/AuditResults.tsx:39-47 | the parser's host with only a leading "www." removed, or the regex fallback when the parser throws |
| AuditResults.ReplaceCutsInnerWww | components/url-audit/AuditResults.tsx:42 | host "awww.example.com" becomes "aexample.com" as written, but is unchanged by the leading-only strip |
| AuditResults.AsWrittenAgreesOnLeadingWww | components/url-audit/AuditResults.tsx:42 | the two versions agree whenever "www." occurs in the host at no position other than the start |
| AuditResults.FromApi | components/url-audit/AuditResults.tsx:105-111 | a competitor keeps the item's url and scores, takes the domain of `extractDomain` as written (first "www." removed anywhere in the host) and position index + 1 |
| AuditResults.Ranked | components/url-audit/AuditResults.tsx:103-111 | one competitor per item with fetchResponse true, in response order, the i-th at position i + 1 |
| AuditResults.Renumber | components/url-audit/AuditResults.tsx:116-119 | entry i gets position i + 1 and is otherwise unchanged |
| AuditResults.RenumberInPlace | components/url-audit/AuditResults.tsx:117-119 | the loop leaves the array holding the renumbered list |
| AuditResults.NormalizeCompetitors | components/url-audit/AuditResults.tsx:103-119 | filtering, mapping, the in-place sort and renumbering together give the normalised list |
| AuditResults.CompetitorListSpec | components/url-audit/AuditResults.tsx:103-119 | the list holds exactly the fetched items, SEO score descending, ties in response order, positions 1..n |
| AuditResults.Normalize | components/url-audit/AuditResults.tsx:103-119 | the competitor list shown: the fetched items mapped, sorted by SEO score descending, renumbered 1..n; its properties are proved in `CompetitorListSpec` |
| AuditResults.GetStatus | components/url-audit/AuditResults.tsx:204-209 | "passed" exactly when the check passes, "failed" otherwise, whatever the severity |
| AuditResults.ToRow | components/url-audit/AuditResults.tsx:216-221 | status follows pass; description defaults to ""; severity is the part's when truthy, else the general one |
| AuditResults.SortedChecksSpec | components/url-audit/AuditResults.tsx:212-221 | the rows come from exactly the part's checks, ascending by order, ties kept in input order |
| AuditResults.SortedChecks | components/url-audit/AuditResults.tsx:212-215 | one part's checks ascending by `order`, ties in input order; its properties are proved in `SortedChecksSpec` |
| AuditResults.RowsVisibleIff | components/url-audit/AuditResults.tsx:222-226 | a row is shown exactly when it is one of the part's rows and the filter for its status is on |
| AuditResults.Rows | components/url-audit/AuditResults.tsx:222-226 | one part's rows in sorted order that the pass/fail toggles let through; `RowsVisibleIff`, `BothOffShowsNothing` and `AllOnShowsEverything` state which |
| AuditResults.BothOffShowsNothing | components/url-audit/AuditResults.tsx:222-226 | with both filters off, no row is shown |
| AuditResults.AllOnShowsEverything | components/url-audit/AuditResults.tsx:222-226 | with both filters on, every row is shown in sorted order |
| AuditResults.TogglePassed | components/url-audit/AuditResults.tsx:406 | flips only the passed filter |
| AuditResults.ToggleFailed | components/url-audit/AuditResults.tsx:419 | flips only the failed filter |
| AuditResults.ToggleTwiceRestores | components/url-audit/AuditResults.tsx:406-419 | pressing a filter button twice restores the filters; the two buttons commute |
| AuditResults.CountsCoverPart | components/url-audit/AuditResults.tsx:247-260 | the passed and failed counts add up to the number of checks in the part |
| AuditResults.CountsMatchRows | components/url-audit/AuditResults.tsx:247-260 | each count equals the rows shown under the passed-only or failed-only filter |
| AuditResults.PartCounts | components/url-audit/AuditResults.tsx:247-260 | the passed and failed counts of one part, whatever the toggles; proved in `CountsCoverPart` and `CountsMatchRows` |
| AuditResults.Begin | components/url-audit/AuditResults.tsx:85-91 | with a missing input or an earlier fetch nothing changes; otherwise loading, error cleared, marked fetched |
| AuditResults.Finish | components/url-audit/AuditResults.tsx:121-128 | success stores the data; failure stores err.message or the fallback and clears the fetched mark; loading ends |
| AuditResults.MayFetch | components/url-audit/AuditResults.tsx:85 | the fetch guard: URL and both keywords non-empty and the request not yet fetched; `Begin` and `FetchOnceUnlessFailed` state what it gates |
| AuditResults.FetchOnceUnlessFailed | components/url-audit/AuditResults.tsx:85-128 | after a begin or a success no new fetch begins; after a failure one may |
| AuditResults.Present | components/url-audit/AuditResults.tsx:152-153 | a resolved response is stored as present data; a rejection keeps its thrown value |
| AuditResults.EvaluationPayloadSpec | components/url-audit/AuditResults.tsx:178-187 | the region defaults to "India", a given region is kept, a trimmed url is kept, the content is empty |
| AuditResults.EvaluationPayload | components/url-audit/AuditResults.tsx:178-187 | the evaluation request built from the inputs; proved in `EvaluationPayloadSpec` |
| AuditResults.SeoPayload | components/url-audit/AuditResults.tsx:94-98 | the competitor and FAQ request: the trimmed URL and keywords; proved in `SeoPayloadSpec` |
| AuditResults.SeoPayloadSpec | components/url-audit/AuditResults.tsx:94-98 | the SEO payload's URL and primary keyword equal the evaluation payload's; a field with no surrounding white space is sent as it is; no sent field starts or ends with white space |
| AuditResults.SettleCompetitors | components/url-audit/AuditResults.tsx:100-128 | a response is stored normalised; a rejection stores its message or "Failed to fetch competitors" |
| AuditResults.FaqProps | components/url-audit/AuditResults.tsx:548-552 | the FAQ view gets the request's loading flag, error and FAQ lists, empty lists without data |
| AuditResults.FaqRequestScreens | components/url-audit/AuditResults.tsx:137-159 | a begun FAQ request shows the spinner; a failed one shows its error text |
| AuditResults.View.constructor | components/url-audit/AuditResults.tsx:52-72 | both filters on, every request idle and not fetched |
| AuditResults.View.PressPassed | components/url-audit/AuditResults.tsx:406 | flips the passed filter; the requests are untouched |
| AuditResults.View.PressFailed | components/url-audit/AuditResults.tsx:419 | flips the failed filter; the requests are untouched |
| AuditResults.View.ResetFilters | components/url-audit/AuditResults.tsx:432 | both filters back on; the requests are untouched |
| AuditResults.View.StartCompetitors | components/url-audit/AuditResults.tsx:84-98 | begins the competitor request and sends the trimmed payload only when the guard allows |
| AuditResults.View.CompetitorsSettled | components/url-audit/AuditResults.tsx:100-128 | settles the competitor request with the normalised list or the error |
| AuditResults.View.StartFaqs | components/url-audit/AuditResults.tsx:136-150 | begins the FAQ request and sends the trimmed payload only when the guard allows |
| AuditResults.View.FaqsSettled | components/url-audit/AuditResults.tsx:152-159 | settles the FAQ request |
| AuditResults.View.StartEvaluation | components/url-audit/AuditResults.tsx:168-187 | begins the evaluation request and sends its payload only when the guard allows |
| AuditResults.View.EvaluationSettled | components/url-audit/AuditResults.tsx:189-196 | settles the evaluation request |
| Sorting.SortPermutation | components/url-audit/AuditResults.tsx:114 | the sort only reorders: the result is a permutation of the input |
| Sorting.SortSorted | components/url-audit/AuditResults.tsx:114 | the result is non-increasing in the key |
| Sorting.SortStable | components/url-audit/AuditResults.tsx:114 | elements with equal keys keep their input order |
| Sorting.SortInPlace | app/dashboard/page.tsx:43-47 | sorting an array in place leaves the stable descending sort of its old contents |
| Sorting.SortDesc | app/dashboard/page.tsx:43-47 | the stable `Array.prototype.sort` with a descending key, as a functional insertion sort; proved in `SortPermutation`, `SortSorted` and `SortStable` |
| Wrappers.OrElse | components/url-audit/AuditResults.tsx:219 | `a \|\| b`: a when a is truthy, otherwise b |
| Outcomes.ErrorText | components/url-audit/AuditResults.tsx:123 | an Error's message, otherwise the fallback text |
| Text.Trim | components/url-audit/URLAnalyzerForm.tsx:21 | `String.prototype.trim`: leading and trailing ECMAScript white space removed; stated in `TrimCutsOnlyWhitespace` |
| Text.TrimCutsOnlyWhitespace | components/url-audit/URLAnalyzerForm.tsx:21 | the trimmed text is one contiguous piece of the input with only white space cut on both sides, and it neither starts nor ends with white space |
| Text.ToUpper | components/url-audit/SEOCheckItem.tsx:69 | `toUpperCase` character by character: the length is kept and a-z and U+0131 map to upper case |
| Accordion.Toggle | components/url-audit/EvaluatePageView.tsx:214 | clicking the open item closes all; clicking another opens only that one |
| Accordion.ToggleTwice | components/url-audit/EvaluatePageView.tsx:214 | clicking an item twice restores the state when nothing or that item was open; otherwise all items end closed |
| Accordion.OpenFlags | components/url-audit/EvaluatePageView.tsx:213 | item i is shown open exactly when it is the open one, so at most one flag is set |
| EvaluatePageView.ClampScore | components/url-audit/EvaluatePageView.tsx:12-15 | the result is in 0..100; NaN and values below 0 give 0, values above 100 give 100, the rest are unchanged |
| EvaluatePageView.ClampIdempotent | components/url-audit/EvaluatePageView.tsx:12-15 | clamping twice is clamping once |
| EvaluatePageView.ClampMonotone | components/url-audit/EvaluatePageView.tsx:14 | clamping keeps the order of finite scores |
| EvaluatePageView.ClampExamples | components/url-audit/EvaluatePageView.tsx:12-15 | -5 gives 0, 140 gives 100, 72.5 is kept, NaN gives 0 |
| EvaluatePageView.ScoreColor | components/url-audit/EvaluatePageView.tsx:29-34 | green from a clamped 85, yellow from 70, red below |
| EvaluatePageView.ScoreColorOfClamped | components/url-audit/EvaluatePageView.tsx:56 | the colour of the clamped score is the colour of the raw score |
| EvaluatePageView.LevelStyles | components/url-audit/EvaluatePageView.tsx:17-27 | the HIGH style for "HIGH", the MEDIUM style for "MEDIUM", the LOW style for any other text |
| EvaluatePageView.SortedParamsSpec | components/url-audit/EvaluatePageView.tsx:124-127 | a permutation of the parameter scores, clamped score descending, ties kept in order |
| EvaluatePageView.SortedParams | components/url-audit/EvaluatePageView.tsx:124-127 | a sorted copy of the parameter scores, highest clamped score first, or nothing without them; proved in `SortedParamsSpec` and `SortedParamsMissing` |
| EvaluatePageView.SortedParamsMissing | components/url-audit/EvaluatePageView.tsx:125 | no data or no parameter scores give the empty list |
| EvaluatePageView.ListToShow | components/url-audit/EvaluatePageView.tsx:93 | a list is shown exactly when present and non-empty |
| EvaluatePageView.Card | components/url-audit/EvaluatePageView.tsx:56-113 | a card shows the clamped score, its colour, its open flag and its two lists when non-empty |
| EvaluatePageView.Render | components/url-audit/EvaluatePageView.tsx:129-155 | loading, then error, then nothing without data, then the report with the clamped overall score and ranked cards |
| EvaluatePageView.ReportCardsRanked | components/url-audit/EvaluatePageView.tsx:124-127 | the report's cards are non-increasing in displayed score |
| EvaluatePageView.ParamAccordion.constructor | components/url-audit/EvaluatePageView.tsx:122 | no parameter open |
| EvaluatePageView.ParamAccordion.ToggleParam | components/url-audit/EvaluatePageView.tsx:214 | the open parameter after a click |
| FAQView.Cards | components/url-audit/FAQView.tsx:175-180 | one card per FAQ, in order, open exactly when its index is the section's open index |
| FAQView.Section | components/url-audit/FAQView.tsx:165 | a section is shown exactly when its list is non-empty |
| FAQView.Render | components/url-audit/FAQView.tsx:17-37 | loading, then error, then the two sections, with the empty state exactly when both are hidden |
| FAQView.OneOpenPerSection | components/url-audit/FAQView.tsx:179 | at most one card per section is open |
| FAQView.OpenState.constructor | components/url-audit/FAQView.tsx:14-15 | the first competitor FAQ starts open, no recommended FAQ does |
| FAQView.OpenState.ToggleExtracted | components/url-audit/FAQView.tsx:180 | a click toggles the competitor section only |
| FAQView.OpenState.ToggleGenerated | components/url-audit/FAQView.tsx:214 | a click toggles the recommended section only |
| FAQView.InitialRender | components/url-audit/FAQView.tsx:14-15 | on first render only the first competitor FAQ is open |
| SEOCheckItem.StatusIconColor | components/url-audit/SEOCheckItem.tsx:9-36 | green exactly for passed, red exactly for failed |
| SEOCheckItem.ExactPill | components/url-audit/SEOCheckItem.tsx:39-55 | the map has an entry exactly for "HIGH", "Medium" and "Low" |
| SEOCheckItem.SeverityConfig | components/url-audit/SEOCheckItem.tsx:58-80 | no pill for a passed check or a missing or blank label; an exact key gets its pill; otherwise one of the three pills or none |
| SEOCheckItem.UpperPill | components/url-audit/SEOCheckItem.tsx:69-79 | the upper-case fallback: HIGH, MEDIUM or MED, LOW, else none; `SeverityConfigIsCaseInsensitive` and `ExactKeysAreUpperKeys` state its role |
| SEOCheckItem.SeverityConfigIsCaseInsensitive | components/url-audit/SEOCheckItem.tsx:62-79 | for a failed check, the pill is decided by the trimmed, upper-cased label alone |
| SEOCheckItem.ExactKeysAreUpperKeys | components/url-audit/SEOCheckItem.tsx:65-78 | each exact key gets the same pill as its upper-cased form |
| SEOCheckItem.UntrimmedLookup | components/url-audit/SEOCheckItem.tsx:63-79 | a label without surrounding blanks is looked up by its upper case |
| SEOCheckItem.LowerCaseHighExample | components/url-audit/SEOCheckItem.tsx:69-72 | "high" gets the HIGH pill |
| SEOCheckItem.AbbreviatedMediumExample | components/url-audit/SEOCheckItem.tsx:73-75 | "med" gets the MEDIUM pill |
| SEOCheckItem.MixedCaseLowExample | components/url-audit/SEOCheckItem.tsx:76-78 | "lOw" gets the LOW pill |
| SEOCheckItem.UnknownLabelExample | components/url-audit/SEOCheckItem.tsx:79 | "critical" gets no pill |
| Dashboard.ToActivity | app/dashboard/page.tsx:33-38 | an activity keeps the item's title, date and scores |
| Dashboard.FlattenLength | app/dashboard/page.tsx:29-40 | the flattened list holds as many activities as the groups hold items |
| Dashboard.FlattenAt | app/dashboard/page.tsx:31-40 | the activity at a group's offset plus j is that group's item j |
| Dashboard.Flatten | app/dashboard/page.tsx:29-40 | every audit of every URL in push order, URL by URL; its length and positions are proved in `FlattenLength` and `FlattenAt` |
| Dashboard.BuildActivities | app/dashboard/page.tsx:29-47 | the nested loops and the in-place sort give the flattened history sorted by date |
| Dashboard.RecentActivitiesSpec | app/dashboard/page.tsx:42-47 | a permutation of the flattened history with one entry per audit, newest first, same-date ties in history order |
| Dashboard.StartFetch | app/dashboard/page.tsx:24-25 | loading with the error cleared and the list kept |
| Dashboard.Settle | app/dashboard/page.tsx:49-55 | success stores the sorted activities; failure stores the error text and keeps the list; loading ends |
| Dashboard.Render | app/dashboard/page.tsx:70-90 | spinner while loading, else the error when truthy, else the table of activities |
| Dashboard.FailedFetchScreen | app/dashboard/page.tsx:50-51 | a failed fetch shows its error text, or the table when that text is empty |
| Dashboard.Page.constructor | app/dashboard/page.tsx:17-19 | no activities, loading, no error |
| Dashboard.Page.FetchStarted | app/dashboard/page.tsx:24-25 | the page's state when the fetch starts |
| Dashboard.Page.Settled | app/dashboard/page.tsx:26-55 | the page's state when the fetch settles |
| RecentActivityTable.ScoreColor | components/dashboard/RecentActivityTable.tsx:26-30 | green from 85, orange from 75, red below |
| RecentActivityTable.ScoreColorMonotone | components/dashboard/RecentActivityTable.tsx:26-30 | a higher score never gets a worse colour |
| CompetitorCard.ScoreColor | components/url-audit/CompetitorCard.tsx:19-23 | green from 90, orange from 85, light orange below |
| CompetitorCard.ScoreColorMonotone | components/url-audit/CompetitorCard.tsx:19-23 | a higher score never gets a worse colour |
| Config.EnvironmentName | lib/config.ts:23 | `NEXT_PUBLIC_ENV`, else `NODE_ENV`, else "development", each only when non-empty |
| Config.GetEnvironment | lib/config.ts:22-32 | production exactly for "production" or "prod", uat exactly for "uat", development otherwise |
| Config.GetConfig | lib/config.ts:37-47 | base URLs default to "", and exactly one environment flag is set, the one matching the environment |
| Config.StripTrailingSlash | lib/config.ts:70 | removes one trailing '/', if any |
| Config.EndpointPath | lib/config.ts:71 | the endpoint, with a leading '/' added when missing |
| Config.JoinUrl | lib/config.ts:69-73 | the URL starts with the base less its trailing slash and ends with the endpoint |
| Config.GetApiUrl | lib/config.ts:69-73 | the API base less its trailing slash, then the rooted endpoint |
| Config.GetBackendUrl | lib/config.ts:78-82 | the backend base less its trailing slash, then the rooted endpoint |
| Config.JoinUrlShape | lib/config.ts:69-73 | the URL is the base with at most one trailing '/' removed, followed by the rooted endpoint |
| Config.JoinUrlTrailingSlashIrrelevant | lib/config.ts:70 | a base with or without one trailing '/' gives the same URL |
| Config.MissingApiBaseUrl | lib/config.ts:42 | with no API base set, the API URL is just the rooted endpoint |
| Config.BackendUrlMirrorsApiUrl | lib/config.ts:78-82 | with equal bases, the backend URL equals the API URL |
| User.GetItem | lib/user.ts:18 | a stored key's value, or none |
| User.UserIdOf | lib/user.ts:12-33 | "" outside a browser; else the stored id, else the default id, else the built-in one, never "" |
| User.StorageAfterGet | lib/user.ts:25-30 | the id is written only when none was stored |
| User.StorageAfterSet | lib/user.ts:38-42 | in a browser the id key holds the new value; elsewhere nothing changes |
| User.StorageAfterClear | lib/user.ts:47-51 | in a browser the id key is removed and no other key changes; elsewhere nothing changes |
| User.UserStore.GetUserId | lib/user.ts:12-33 | returns the id and updates the storage as the functions say |
| User.UserStore.SetUserId | lib/user.ts:38-42 | the storage after a set |
| User.UserStore.ClearUserId | lib/user.ts:47-51 | the storage after a clear |
| User.GetUserIdIdempotent | lib/user.ts:12-33 | a second get returns the same id and writes nothing |
| User.GetUserIdWritesOnlyUserId | lib/user.ts:28-30 | a get changes no other key |
| User.SetThenGet | lib/user.ts:38-42 | after setting a non-empty id, a get returns it |
| User.ClearThenGet | lib/user.ts:47-51 | after a clear, a get returns the default id or the built-in one |
| LoginModal.ValidateEmailIsRegex | components/layout/LoginModal.tsx:18-21 | the scanning validator accepts exactly the strings the e-mail regex matches |
| LoginModal.ValidateEmail | components/layout/LoginModal.tsx:18-21 | `validateEmail` as a left-to-right scan; `ValidateEmailIsRegex` proves it accepts exactly what the regular expression matches |
| LoginModal.MatchesEmailRegex | components/layout/LoginModal.tsx:19 | the regular expression `^[^\s@]+@[^\s@]+\.[^\s@]+$` as a split of the string; `ValidateEmailIsRegex` proves the scan accepts exactly these |
| LoginModal.ScanMatches | components/layout/LoginModal.tsx:19 | an accepted address matches the regex |
| LoginModal.MatchIsScanned | components/layout/LoginModal.tsx:19 | a string the regex matches is accepted |
| LoginModal.SliceIsRange | components/layout/LoginModal.tsx:19 | a slice is all allowed characters exactly when its range is |
| LoginModal.ValidEmailShape | components/layout/LoginModal.tsx:19 | a valid address has one inner '@', every other character allowed, and no whitespace |
| LoginModal.ValidIsNotBlank | components/layout/LoginModal.tsx:33-41 | a valid address is never blank |
| LoginModal.BlurError | components/layout/LoginModal.tsx:33-41 | the required message exactly when blank, no error exactly when valid, the invalid message otherwise |
| LoginModal.ChangeError | components/layout/LoginModal.tsx:23-31 | typing clears the error exactly when there was none or the text is now valid, and otherwise keeps it |
| LoginModal.Submit | components/layout/LoginModal.tsx:43-57 | a valid address starts loading; an invalid one gets the blur error and loading is unchanged |
| LoginModal.PaddedAddressIsInvalid | components/layout/LoginModal.tsx:47-55 | a valid address padded with spaces is not blank but invalid, and gets the invalid message |
| LoginModal.ChangeThenBlur | components/layout/LoginModal.tsx:23-41 | typing either clears or keeps the error, and a blur then clears it exactly for a valid address |
| LoginModal.Visible | components/layout/LoginModal.tsx:72 | the modal is drawn only when it is open and mounted |
| LoginModal.VisibleOnlyAfterMount | components/layout/LoginModal.tsx:66-72 | nothing is drawn from the initial state whatever `isOpen` is; after the mount effect the modal is drawn exactly while open |
| LoginModal.Modal.constructor | components/layout/LoginModal.tsx:12-15 | empty address, no error, not loading, not yet mounted |
| LoginModal.Modal.Mount | components/layout/LoginModal.tsx:66-70 | only the mounted flag changes |
| LoginModal.Modal.EmailChange | components/layout/LoginModal.tsx:23-31 | stores the text and the error after typing |
| LoginModal.Modal.EmailBlur | components/layout/LoginModal.tsx:33-41 | stores the blur verdict on the address |
| LoginModal.Modal.HandleSubmit | components/layout/LoginModal.tsx:43-57 | the submit transition, and it starts a login exactly for a valid address |
| URLAnalyzerForm.JoinAll | components/url-audit/URLAnalyzerForm.tsx:32-41 | `Promise.all`: resolved exactly when all three resolve, with their results; otherwise the earliest rejection |
| URLAnalyzerForm.SubmitEnabledIffReady | components/url-audit/URLAnalyzerForm.tsx:174 | the button is enabled exactly when not loading and the URL and both keywords are non-blank |
| URLAnalyzerForm.SubmitDisabled | components/url-audit/URLAnalyzerForm.tsx:174 | the button's `disabled` expression; `SubmitEnabledIffReady` proves it is the negation of the submit guard while not loading |
| URLAnalyzerForm.CanSubmit | components/url-audit/URLAnalyzerForm.tsx:21 | the submit guard: URL and both keywords non-blank after trim; `StartSubmit` and `SubmitEnabledIffReady` state what it gates |
| URLAnalyzerForm.ShowsAudit | components/url-audit/URLAnalyzerForm.tsx:212 | the audit is drawn only when shown and all three results are present; `SubmitSucceeds` and `SubmitFailureKeepsResults` state when |
| URLAnalyzerForm.Payload | components/url-audit/URLAnalyzerForm.tsx:25-29 | under the submit guard the trimmed fields sent are non-empty |
| URLAnalyzerForm.StartSubmit | components/url-audit/URLAnalyzerForm.tsx:21-23 | a blank field leaves the form unchanged; otherwise loading with the error cleared |
| URLAnalyzerForm.Settle | components/url-audit/URLAnalyzerForm.tsx:38-47 | success stores the three results and shows them; failure stores the error text and keeps the old results; loading ends |
| URLAnalyzerForm.SubmitSucceeds | components/url-audit/URLAnalyzerForm.tsx:19-47 | a ready form whose three requests resolve shows the audit with those results and no error |
| URLAnalyzerForm.SubmitFailureKeepsResults | components/url-audit/URLAnalyzerForm.tsx:42-47 | if any request fails, the audit shown and its data stay as they were and an error is set |
| URLAnalyzerForm.Form.constructor | components/url-audit/URLAnalyzerForm.tsx:8-17 | empty fields with region "United States", no results, not loading, no error |
| URLAnalyzerForm.Form.HandleSubmit | components/url-audit/URLAnalyzerForm.tsx:19-29 | starts the submit and sends the payload exactly when the guard allows |
| URLAnalyzerForm.Form.Settled | components/url-audit/URLAnalyzerForm.tsx:32-47 | the form's state when the requests settle |
| OptimizeContentOutput.FAQBlockRoundTrip | components/optimize-content/OptimizeContentOutput.tsx:34 | a FAQ's block splits at its first newline back into its question and answer lines |
| OptimizeContentOutput.FormattedFAQsSmall | components/optimize-content/OptimizeContentOutput.tsx:33-35 | no FAQs give "", one FAQ gives its block |
| OptimizeContentOutput.FormattedFAQsSnoc | components/optimize-content/OptimizeContentOutput.tsx:33-35 | consecutive blocks are separated by a blank line |
| OptimizeContentOutput.LinesRoundTrip | components/optimize-content/OptimizeContentOutput.tsx:38 | splitting the newline-joined entries restores them when none contains a newline |
| OptimizeContentOutput.LinesSingle | components/optimize-content/OptimizeContentOutput.tsx:38 | a single entry is its own text |
| OptimizeContentOutput.FAQBlock | components/optimize-content/OptimizeContentOutput.tsx:34 | one FAQ as "Q: question", a newline, "A: answer"; `FAQBlockRoundTrip` proves it splits back |
| OptimizeContentOutput.FormattedFAQs | components/optimize-content/OptimizeContentOutput.tsx:33-35 | the FAQ blocks in order separated by a blank line; proved in `FormattedFAQsSmall` and `FormattedFAQsSnoc` |
| OptimizeContentOutput.Lines | components/optimize-content/OptimizeContentOutput.tsx:38 | the entries joined by newlines, for the TOC and the H2 and H3 lists; `LinesRoundTrip` proves splitting recovers them |
| OptimizeContentOutput.Render | components/optimize-content/OptimizeContentOutput.tsx:16-38 | the fallback exactly without data; otherwise the lists newline-joined and the FAQs formatted |
| OptimizeContentPage.Proceed | app/optimize-content/page.tsx:16-19 | stores the content, starts loading, clears the error, keeps the output |
| OptimizeContentPage.Settle | app/optimize-content/page.tsx:27-34 | success stores the output and shows it; failure stores the error text and keeps the screen; loading ends |
| OptimizeContentPage.Back | app/optimize-content/page.tsx:50-54 | back hides and clears the output and the error, keeping the content |
| OptimizeContentPage.Render | app/optimize-content/page.tsx:40-56 | the input form exactly when the output is hidden, else the output screen with the original content |
| OptimizeContentPage.ProceedThenSucceed | app/optimize-content/page.tsx:16-34 | a successful proceed shows the returned content with no error |
| OptimizeContentPage.ProceedThenFail | app/optimize-content/page.tsx:29-34 | a failed proceed stays on the input form with the error |
| OptimizeContentPage.BackAfterSuccess | app/optimize-content/page.tsx:50-54 | back after a success returns to a clean input form |
| OptimizeContentPage.Page.constructor | app/optimize-content/page.tsx:10-14 | input screen, no content, no output, not loading, no error |
| OptimizeContentPage.Page.StartProceed | app/optimize-content/page.tsx:16-26 | starts a proceed and sends the user id and the content |
| OptimizeContentPage.Page.Settled | app/optimize-content/page.tsx:27-34 | the page's state when the request settles |
| OptimizeContentPage.Page.OnBack | app/optimize-content/page.tsx:50-54 | the page's state after back |

## Left out

- The HTTP transport in `lib/api.ts`: each backend call is an outcome given to the model.
- Scheduling of the asynchronous effects: requests are sequential start and settle events. Which of several `Promise.all` rejections arrives first is a parameter (`earliest`).
- The browser's `new URL` parser: the host it yields, or its failure, is a parameter (`hostOf`). Only the regex fallback is modelled character by character.
- Date parsing: activity dates are integer timestamps. Invalid dates (NaN from `getTime`) are not modelled.
- NaN among check `order` values and competitor or activity scores: those keys are reals. NaN is modelled only in `clampScore`, where the source tests for it.
- JavaScript's negative zero is not distinguished from 0.
- The iteration order of `Object.values` over the history response is taken as the given sequence of groups.
- `severityConfigMap` lookups of inherited object keys (such as "constructor") are not modelled. Only the listed keys are.
- The login modal's focus timer, its portal, the password field and the session call are not modelled. Only the e-mail rules and the modal's visibility and error state are.
- Tab selection (`activeTab`, `activeSubTab`) and the input setters of the forms are not modelled. They only store what the user chose.
- Presentational components that only lay out their props (competitor and overview views, headers, icons) are not modelled, nor are the EvaluatePageView sections that only print fields.
- Console logging and warnings.
- The `return true` branch of the check filter is unreachable because a status is always passed or failed. The model has no third status.
- AuditResults.FallbackKeepsBareHost: with no scheme, the URL must not itself begin with "http://" or "https://" (a host "http:" or "https:" followed by a "//" path). There the regex's optional `https?://` group takes those characters, and that case is not covered.

## Findings

| source | as written | input that shows it | evidently intended | confidence | as-written member | corrected member |
|---|---|---|---|---|---|---|
| components/url-audit/AuditResults.tsx:42 | `hostname.replace('www.', '')` removes the first "www." anywhere in the host | a competitor URL with host "awww.example.com" is shown as "aexample.com" | strip only a leading "www." | not executed | AuditResults.ReplaceCutsInnerWww | AuditResults.ExtractDomain |

The competitor list (`AuditResults.FromApi` and everything built on it) uses
`ExtractDomainAsWritten`, so it shows what the program shows.
`ExtractDomain` is the corrected reference definition.
`AuditResults.AsWrittenAgreesOnLeadingWww` proves the two agree on every host
with no "www." past its start.
