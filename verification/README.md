# HireWise recruiter front end: a Dafny model of its decision logic

This project models the logic the HireWise recruiter front end uses to turn
loosely-shaped backend JSON into what the recruiter sees, and proves
properties of that logic. It covers six parts:

- **The request wrapper.** `request` in `src/api/apiClient.ts` builds the URL
  and headers and suppresses logging for the polled per-job applications
  endpoint. It turns a response into the parsed JSON value or into an error
  whose message starts with the HTTP status.
- **The search façade.** `searchApi.search` in `src/api/search.ts` posts the
  query with its paging defaults and re-throws failures under a fixed prefix.
- **The recruiter dashboard.** This is `src/pages/Recruiter/RecruiterDashboard.tsx`:
  - the normalizer that extracts a candidate list and a match count from a
    search response of unknown shape;
  - how filters are derived from the response or from the query;
  - the search, filter and paging actions;
  - how a profile is mapped onto its result card.
- **The candidate card.** `src/components/Recruiter/CandidateCard.tsx` splits a
  bio into highlighted and plain pieces by the query terms and the skills.
- **The candidate profile drawer.** `src/components/Recruiter/CandidateProfileDrawer.tsx`
  resolves résumé sections, scores, links, header, summary and skill-category
  labels through `||` fallback chains.
- **The job detail page.** `src/pages/HR/JobDetailPage.tsx` provides:
  - the score colour bands;
  - the applications guard;
  - the match-count caption;
  - the capped tag row;
  - the card's score lines;
  - the public link.

The model is made of pure functions over immutable values. A JSON value is
the datatype `Json.Json`, which has an explicit `Undefined` so that property
reads and `||` chains read as in JavaScript. Objects are ordered field lists:
the first occurrence of a key wins, and key order is insertion order.
`fetch` is replaced by its settled result, and `JSON.parse` by a function
parameter. React state is an immutable record, and each handler is a
transition from one record to the next.

Modules: `Wrappers` (Option, Result), `Strings`, `Json`, `ApiClient`,
`SearchApi`, `RecruiterDashboard`, `CandidateCard`, `ProfileDrawer`,
`JobDetailPage`.

## Model

| member | source | states |
|---|---|---|
| Json.OrChainIsFirstTruthy | src/pages/Recruiter/RecruiterDashboard.tsx:76 | a left-grouped `a \|\| b \|\| …` chain yields its first truthy operand, or its last operand when none is truthy |
| Json.FirstTruthyIndex | src/components/Recruiter/CandidateProfileDrawer.tsx:34 | the operand an `\|\|` chain picks: every operand before it is falsy, and it is truthy unless it is the last |
| Json.SpreadLookup | src/pages/Recruiter/RecruiterDashboard.tsx:139 | reading a key of `{...a, ...b}` gives `b`'s value when `b` has the key and `a`'s otherwise |
| Json.AssignLookup | src/pages/Recruiter/RecruiterDashboard.tsx:112 | after `obj[k] = v`, `k` reads `v` and every other key reads as before |
| Json.Remove | src/api/apiClient.ts:29 | `delete obj[k]` removes the key and leaves every other key's value unchanged |
| ApiClient.RequestHeaders | src/api/apiClient.ts:21-30 | the JSON content type is sent unless the caller sets its own; a `FormData` body sends no content type; every other caller header is passed through unchanged |
| ApiClient.Prepare | src/api/apiClient.ts:19-39 | the URL is the base URL (the default when the variable is unset or empty) followed by the endpoint; method and body are the caller's |
| ApiClient.ErrorDetail | src/api/apiClient.ts:47-56 | the detail of a failed response is the body's `message`, else its `error`, else the status text; an unparsable body gives its own text, or "An error occurred" when empty; a `null` body has no detail because reading from it throws |
| ApiClient.Settle | src/api/apiClient.ts:46-85 | a rejected fetch propagates; a non-ok response fails with "status: detail" and carries its status; a `null` error body fails with the TypeError of reading from it; an ok response returns the parsed body, or fails with "Invalid JSON response from server" |
| ApiClient.CallLogs | src/api/apiClient.ts:32-44 | the request is logged exactly when the URL is not the per-job applications path; the status is logged for every response except a 500 from that path, which is thrown without any output |
| ApiClient.Request | src/api/apiClient.ts:19-86 | one call sends the prepared request, writes exactly the console output `CallLogs` gives (so a 500 from the quiet endpoint throws with no output), and settles as `Settle` says |
| ApiClient.SuppressionKeepsResult | src/api/apiClient.ts:60-64 | whether logging is suppressed never changes what a call returns or throws |
| ApiClient.ApplicationsJobEndpointIsQuiet | src/api/apiClient.ts:32 | every per-job applications endpoint is quiet, whatever the base URL |
| ApiClient.StatusLeadsMessage | src/api/apiClient.ts:57-58 | the HTTP status of a failed response reads back from the digits at the front of the error message |
| SearchApi.SearchOptions | src/api/search.ts:103-111 | the search is a POST whose body holds the query, the page (1 by default) and the page size (15 by default) |
| SearchApi.SearchRequest | src/api/search.ts:108-111 | a search calls `fetch` with a POST to the base URL followed by "/api/users/search", the JSON content type, and the query body with its defaults |
| SearchApi.Rewrap | src/api/search.ts:124 | a re-thrown error starts with "Search API failed: " and continues with the original message, or "Unknown error" when that is empty |
| SearchApi.Search | src/api/search.ts:102-127 | the search sends the search request; it succeeds exactly when the wrapper does and returns its value unchanged; a failure from an HTTP response always carries the wrapper's own message |
| SearchApi.SearchReturnsParsedBody | src/api/search.ts:108-117 | a successful search returns exactly the parsed response body, whatever its shape |
| RecruiterDashboard.ResolveTotal | src/pages/Recruiter/RecruiterDashboard.tsx:76 | the total is the first truthy of `total`, `totalMatches` and `count`, so a total of 0 is skipped; when none is truthy it is the list's length |
| RecruiterDashboard.FirstArrayIndex | src/pages/Recruiter/RecruiterDashboard.tsx:86-87 | the first field in key order whose value is an array: no earlier field holds one, and none is found only when no field holds one |
| RecruiterDashboard.Normalize | src/pages/Recruiter/RecruiterDashboard.tsx:67-92 | a nullish response throws; a bare array is the list and its length the total; otherwise the first truthy of `candidates`, `users`, `data` decides (a non-array value gives an empty list), then the first array-valued field; whenever one of these applies to an object response, the total is the first truthy of `total`, `totalMatches` and `count`, else the list's length; the list is always empty, the response itself, or a field's own value |
| RecruiterDashboard.NormalizeKeepsRecords | src/pages/Recruiter/RecruiterDashboard.tsx:70-92 | the normalizer never invents records: the list is empty, the response, or one of its field values |
| RecruiterDashboard.EmptyKeyArrayDropped | src/pages/Recruiter/RecruiterDashboard.tsx:87-91 | the as-written fallback drops an array stored under the key `""`; the corrected normalizer keeps it |
| RecruiterDashboard.AsWrittenAgreesOtherwise | src/pages/Recruiter/RecruiterDashboard.tsx:84-92 | the as-written and corrected normalizers agree on every response whose first array-valued key is not `""` |
| RecruiterDashboard.FiltersFromResponse | src/pages/Recruiter/RecruiterDashboard.tsx:103-108 | filters from a response hold the four filter keys; each takes the response's value when truthy, else `''` (or `[]` for skills) |
| RecruiterDashboard.EngineerFilters | src/pages/Recruiter/RecruiterDashboard.tsx:112 | a "software engineer" query sets the job title and the skills and keeps every other filter |
| RecruiterDashboard.MarketingFilters | src/pages/Recruiter/RecruiterDashboard.tsx:114 | a "marketing" query sets the job title and the location and keeps every other filter |
| RecruiterDashboard.DeriveFilters | src/pages/Recruiter/RecruiterDashboard.tsx:101-116 | filters come from the response when it carries truthy `filters`; otherwise a case-insensitive "software engineer" query takes precedence over "marketing", and any other query keeps the filters; the `in` test throws on a primitive response |
| RecruiterDashboard.HandleSearch | src/pages/Recruiter/RecruiterDashboard.tsx:52-136 | a search always records the query and the page; a failure or a primitive response leaves no results, a zero count and unchanged filters; otherwise the results and count are the normalized ones and the filters are the derived ones |
| RecruiterDashboard.MergeFilters | src/pages/Recruiter/RecruiterDashboard.tsx:139 | the new filters override, every other filter is kept, and existing filters keep their order |
| RecruiterDashboard.SpreadReadsLaterFirst | src/pages/Recruiter/RecruiterDashboard.tsx:139 | every key of a spread reads the later object's value when it has one |
| RecruiterDashboard.UpdateFilters | src/pages/Recruiter/RecruiterDashboard.tsx:138-145 | updating the filters merges them, and re-runs the search from page 1 exactly when a search was made with a non-empty query |
| RecruiterDashboard.RunSearch | src/pages/Recruiter/RecruiterDashboard.tsx:147-151 | "run search" re-searches the query on the current page exactly when the query is non-empty |
| RecruiterDashboard.ChangePage | src/pages/Recruiter/RecruiterDashboard.tsx:153-157 | a page change searches the query on the new page exactly when the query is non-empty |
| RecruiterDashboard.EducationLine | src/pages/Recruiter/RecruiterDashboard.tsx:230-231 | the card has an education line exactly when the résumé or the profile has an education record, and the line is the degree and a space, then ", " and the field exactly when the field is truthy, then " at " and the institution, each through `String(...)`; from the profile it is degree, space, field, " at ", university, each `''` when falsy |
| RecruiterDashboard.CardFor | src/pages/Recruiter/RecruiterDashboard.tsx:214-240 | every field is the first truthy operand of its fallback chain: id, name, role (experience title, current title, current position), company, location, bio (résumé summary, bio, summary, description), skills and the three links (résumé contact first, then the profile, and `website` last for the portfolio); a card always shows a name and a skills list, and there is never a match score |
| RecruiterDashboard.Cards | src/pages/Recruiter/RecruiterDashboard.tsx:213-256 | one card per result, in order; the mapping to card props throws exactly when some result is `null` or `undefined` |
| CandidateCard.QueryTerms | src/components/Recruiter/CandidateCard.tsx:42 | the query terms are exactly the lower-cased whitespace-separated words longer than two characters |
| CandidateCard.LongWordsAppend | src/components/Recruiter/CandidateCard.tsx:42 | the length filter distributes over concatenation, so it keeps the words in their order and with their repetitions |
| CandidateCard.LongWordsSingle | src/components/Recruiter/CandidateCard.tsx:42 | a single word is kept exactly when it is longer than two characters |
| CandidateCard.LowerAll | src/components/Recruiter/CandidateCard.tsx:43 | each skill is lower-cased in place |
| CandidateCard.Dedup | src/components/Recruiter/CandidateCard.tsx:44 | `[...new Set(xs)]` has the same members as `xs`, each once |
| CandidateCard.DedupOrder | src/components/Recruiter/CandidateCard.tsx:44 | `[...new Set(xs)]` keeps the order of first occurrence |
| CandidateCard.HighlightTerms | src/components/Recruiter/CandidateCard.tsx:41-44 | the highlight terms are the query terms and the lower-cased skills, each once, query terms first, in order of first occurrence |
| CandidateCard.QueryTermsOfWords | src/components/Recruiter/CandidateCard.tsx:42 | a query made of long, lower-case, space-free words yields exactly those words |
| CandidateCard.FirstTermAtSpec | src/components/Recruiter/CandidateCard.tsx:50-52 | at a position, the regex alternation matches the first term, in list order, that occurs there ignoring case |
| CandidateCard.SplitFromIsSplit | src/components/Recruiter/CandidateCard.tsx:50-52 | the leftmost-first scan splits the text into plain and matched pieces that alternate and concatenate back to the text |
| CandidateCard.SplitFromScanned | src/components/Recruiter/CandidateCard.tsx:50-52 | the scan's pieces are a stretch with no match inside it, then the first alternative that occurs where that stretch ends, and so on, ending with a stretch that reaches the end of the text |
| CandidateCard.ScannedOffsets | src/components/Recruiter/CandidateCard.tsx:50-52 | read by position, every even-numbered piece of such a scan has no match starting inside it and every odd-numbered one is the first alternative occurring at its offset |
| CandidateCard.Split | src/components/Recruiter/CandidateCard.tsx:52 | splitting by the capturing pattern yields an odd number of pieces that concatenate back to the text; a piece is a term, ignoring case, exactly when it sits at an odd position; no term starts inside an even piece, and each odd piece is the text of the first alternative that occurs at its offset |
| CandidateCard.Spans | src/components/Recruiter/CandidateCard.tsx:56-65 | each piece becomes one span, highlighted exactly when its lower-cased text is a term |
| CandidateCard.BioSpans | src/components/Recruiter/CandidateCard.tsx:46-67 | the spans concatenate back to the bio and alternate plain and highlighted; no term starts inside a plain span, and each highlighted span is the first term occurring at its offset; with no terms, the bio is one plain span |
| CandidateCard.HighlightedBio | src/components/Recruiter/CandidateCard.tsx:38-67 | an empty bio renders nothing; otherwise the spans concatenate back to the bio, a span is highlighted exactly when its text is a highlight term, no highlight term starts inside a plain span, and each highlighted span is the first highlight term occurring at its offset |
| ProfileDrawer.WithDefault | src/components/Recruiter/CandidateProfileDrawer.tsx:27-31 | `v \|\| d` with a truthy default is never falsy and keeps a truthy `v` |
| ProfileDrawer.ParsedResume | src/components/Recruiter/CandidateProfileDrawer.tsx:26 | the résumé is the candidate's own, else the nested candidate's, else `{}`, so it is always truthy |
| ProfileDrawer.ResolveSections | src/components/Recruiter/CandidateProfileDrawer.tsx:24-31 | a falsy candidate renders nothing; otherwise each section is read from the résumé with its `{}` or `[]` default and is always truthy |
| ProfileDrawer.UnifiedScore | src/components/Recruiter/CandidateProfileDrawer.tsx:33-34 | the overall score is the first truthy of `scores.unifiedScore`, `matchScore` and `alignmentScore` |
| ProfileDrawer.ResumeScore | src/components/Recruiter/CandidateProfileDrawer.tsx:35 | the résumé score is `scores.resumeScore`, else the candidate's `resumeScore` |
| ProfileDrawer.KindAt | src/components/Recruiter/CandidateProfileDrawer.tsx:40-80 | the four score cards have fixed positions: overall, résumé, GitHub, compensation |
| ProfileDrawer.CompensationText | src/components/Recruiter/CandidateProfileDrawer.tsx:79 | the compensation description is the analysis text, else "Salary expectation alignment", so it is never empty |
| ProfileDrawer.Card | src/components/Recruiter/CandidateProfileDrawer.tsx:40-80 | each score card carries the value resolved for its kind |
| ProfileDrawer.AllScoreItems | src/components/Recruiter/CandidateProfileDrawer.tsx:40-80 | there are four candidate score cards, in their fixed order, each with its resolved value |
| ProfileDrawer.Present | src/components/Recruiter/CandidateProfileDrawer.tsx:81 | the filter keeps exactly the cards whose value is neither `undefined` nor `null`; a score of 0 is kept |
| ProfileDrawer.PresentKeepsOrder | src/components/Recruiter/CandidateProfileDrawer.tsx:81 | filtering keeps the cards in their fixed order |
| ProfileDrawer.ScoreItems | src/components/Recruiter/CandidateProfileDrawer.tsx:33-81 | the cards shown are the present ones in fixed order; the overall card is shown exactly when the overall score is not nullish; the compensation card describes the analysis |
| ProfileDrawer.ResolveLinks | src/components/Recruiter/CandidateProfileDrawer.tsx:83-89 | each link and contact field is the first truthy of the résumé contact, the nested candidate and the candidate's own links |
| ProfileDrawer.AvatarInitial | src/components/Recruiter/CandidateProfileDrawer.tsx:107 | the avatar shows one character: the name's first, or "C" for an empty or missing name; a name of another type throws |
| ProfileDrawer.Subtitle | src/components/Recruiter/CandidateProfileDrawer.tsx:112 | the subtitle is the role, else the first experience's title, else "Candidate", so it is never empty |
| ProfileDrawer.HeaderLocation | src/components/Recruiter/CandidateProfileDrawer.tsx:113-118 | the location is shown exactly when the candidate's or the first experience's location is truthy, and what is shown is truthy |
| ProfileDrawer.Summary | src/components/Recruiter/CandidateProfileDrawer.tsx:245 | the summary is the résumé summary, else the profile, else the bio, else "No summary provided.", so it is never empty |
| ProfileDrawer.SpaceBeforeUpperAppend | src/components/Recruiter/CandidateProfileDrawer.tsx:405 | inserting a space before each capital letter distributes over concatenation |
| ProfileDrawer.SpaceBeforeUpperChars | src/components/Recruiter/CandidateProfileDrawer.tsx:405 | the replacement is each character of the key in turn, with one space put in front of each capital letter and nothing else changed |
| ProfileDrawer.CategoryLabel | src/components/Recruiter/CandidateProfileDrawer.tsx:405 | a category label is the spaced key with only leading and trailing whitespace cut away, and it neither starts nor ends with whitespace |
| ProfileDrawer.CamelCaseLabel | src/components/Recruiter/CandidateProfileDrawer.tsx:405 | a camelCase key made of words becomes those words separated by single spaces |
| ProfileDrawer.CamelCaseLabelWords | src/components/Recruiter/CandidateProfileDrawer.tsx:405 | splitting the label of a camelCase key on whitespace gives back its words |
| ProfileDrawer.Categories | src/components/Recruiter/CandidateProfileDrawer.tsx:400-408 | rendering fails exactly when some shown category's items are not an array (no `map`); otherwise the list is the listing of the entries in key order, and a category is listed exactly when its items are truthy with a non-zero length, under its label, with its items |
| ProfileDrawer.ListingAppend | src/components/Recruiter/CandidateProfileDrawer.tsx:400-408 | categories are listed entry by entry in key order: the listing of two runs of entries is the first's followed by the second's |
| ProfileDrawer.ListingSingle | src/components/Recruiter/CandidateProfileDrawer.tsx:400-408 | a single entry is listed once, under its label, exactly when it is shown, and otherwise not at all |
| ProfileDrawer.SkillCategories | src/components/Recruiter/CandidateProfileDrawer.tsx:400-408 | the skills tab fails exactly when a shown category's items are not an array; otherwise it lists the skills object's entries in key order, and every listed category comes from the skills object and has an array of items to show, and every such category is listed |
| JobDetailPage.BandOf | src/pages/HR/JobDetailPage.tsx:16-21 | the bands have inclusive lower thresholds: green from 80, yellow from 60, orange from 40, red below |
| JobDetailPage.BandMonotone | src/pages/HR/JobDetailPage.tsx:16-35 | a higher score never falls into a worse band |
| JobDetailPage.PalettesDistinguishBands | src/pages/HR/JobDetailPage.tsx:16-35 | each of the three palettes gives different bands different colours |
| JobDetailPage.ScoreColor | src/pages/HR/JobDetailPage.tsx:16-21 | the text colour is that of the score's band |
| JobDetailPage.ScoreBgColor | src/pages/HR/JobDetailPage.tsx:23-28 | the background colour is that of the score's band |
| JobDetailPage.StrokeColor | src/pages/HR/JobDetailPage.tsx:30-35 | the stroke colour is that of the score's band |
| JobDetailPage.ColoursAgree | src/pages/HR/JobDetailPage.tsx:16-35 | two scores get the same text colour exactly when they get the same stroke and the same background |
| JobDetailPage.Applications | src/pages/HR/JobDetailPage.tsx:96-112 | the applications list is the fetched value when it is an array, and empty otherwise or on failure |
| JobDetailPage.SingleCaptionReadsOne | src/pages/HR/JobDetailPage.tsx:162 | the singular caption starts with the count 1 |
| JobDetailPage.CountLabel | src/pages/HR/JobDetailPage.tsx:162 | the caption starts with a count that reads back as the number of applications, ends in " found", is singular exactly for one, and for any other count is the count followed by " matches found" |
| JobDetailPage.TagRowOf | src/pages/HR/JobDetailPage.tsx:229-243 | there is no tag row without tags; the row shows the first twelve tags in order, and a "+N more" badge appears exactly when tags are hidden, with N making up the total; the badge reads exactly "+", N and " more" |
| JobDetailPage.CardUnifiedScore | src/pages/HR/JobDetailPage.tsx:178 | for an application that is not `null` or `undefined`, the circle shows `scores.unifiedScore`, else the alignment score |
| JobDetailPage.ResumeLine | src/pages/HR/JobDetailPage.tsx:177-192 | for an application that is not `null` or `undefined`, the résumé line is shown exactly when the résumé score is truthy and not strictly equal to the circle's score |
| JobDetailPage.ApplicationCardScores | src/pages/HR/JobDetailPage.tsx:176-192 | the score part of each card: computing the scores throws exactly when an application is `null` or `undefined`; otherwise each card, in order, gets that application's circle score and résumé line |
| JobDetailPage.ResumeSlotAsWritten | src/pages/HR/JobDetailPage.tsx:190-194 | as written, the résumé slot shows the line exactly when `ResumeLine` does, and a stray "0" exactly when the résumé score is 0 |
| JobDetailPage.ZeroResumeScoreShowsZero | src/pages/HR/JobDetailPage.tsx:190 | a résumé score of 0 beside a unified score of 70 prints "0" as written, where the corrected line shows nothing |
| JobDetailPage.CardTags | src/pages/HR/JobDetailPage.tsx:229-243 | the tag row of a `tags` value: rendering throws exactly when a truthy non-array passes `tags.length > 0`; an array gets its `TagRowOf` row; a row is shown only for a non-empty array |
| JobDetailPage.ApplicationCards | src/pages/HR/JobDetailPage.tsx:176-243 | rendering the applications throws exactly when one is `null` or `undefined` or has tags that pass the guard without being an array; otherwise each card, in order, has that application's scores and tag row |
| JobDetailPage.CardsKeepScores | src/pages/HR/JobDetailPage.tsx:176-192 | whenever every card renders, its scores are the ones `ApplicationCardScores` gives |
| JobDetailPage.StringTagsThrow | src/pages/HR/JobDetailPage.tsx:229-231 | an application whose tags are a non-empty string has fine scores but makes the card throw |
| JobDetailPage.CaptionCountsCards | src/pages/HR/JobDetailPage.tsx:162-176 | the caption's count reads back as the number of applications, which is the number of cards listed |
| JobDetailPage.SameScoreHidesResumeLine | src/pages/HR/JobDetailPage.tsx:190 | equal numeric scores never show the résumé line |
| JobDetailPage.AgentPath | src/pages/HR/JobDetailPage.tsx:133 | the in-app link is "/agent/" followed by the job id |
| JobDetailPage.PublicLink | src/pages/HR/JobDetailPage.tsx:122 | the shareable link is the origin, then "/agent/", then the job id |
| JobDetailPage.Description | src/pages/HR/JobDetailPage.tsx:151 | the description shown is the enhanced one, else the raw one |
| JobDetailPage.View | src/pages/HR/JobDetailPage.tsx:119-120 | the page shows a spinner while loading, "Job not found" without a job, and the job otherwise |

## Left out

- `fetch`, `console`, `alert`, the clipboard and `window.location` are not called. A settled fetch, the base-URL variable and the page origin are inputs, and console output is a list of log entries. The logged objects, alert texts and the details of `console.error` are not modelled.
- `JSON.parse` is a function parameter that yields `None` where it would throw. Its grammar is not modelled.
- Reading a response body is not modelled: `response.text()` is the `body` string of the response.
- `TimeoutError` and `NetworkError` in `src/api/apiClient.ts` are declared but never thrown by `request`, so they are not modelled.
- `src/api/applications.ts`, `src/api/jobs.ts` and the other API modules are not part of this model. The job page and the dashboard take the settled result of their calls as input.
- React rendering, effects, the loading flags and races between overlapping searches are not modelled. Each handler runs to completion on the state it was given.
- The "Loading applications..." caption, the tab bar, the experience, education and project lists, the top reasons, the "Other Tags" list and the `Modal` component are plain rendering without decisions of their own.
- The geometry of the circular score (radius, circumference, offset) and `Math.round` involve floating point and are not modelled. Score bands take a `real` score.
- JSON numbers are integers in `Json.Num`. Fractional numbers, `NaN` and their string forms are left out. `Json.ToJsString` writes every digit of an integer. JavaScript switches to exponent form from 10^21 on (`"1e+21"`), and it does not hold integers above 2^53 exactly. Neither is modelled.
- Object keys keep insertion order. JavaScript's ordering of integer-like keys first is not modelled.
- Strings are sequences of characters, one per code point. JavaScript's `length` and `charAt` count UTF-16 code units, so a character outside the Basic Multilingual Plane counts twice in the `t.length > 2` test of a search term, and `charAt(0)` gives only half of it as the avatar initial; neither is modelled. Lower-casing covers ASCII letters only, so the `i` flag and `toLowerCase` are modelled for ASCII.
- Parsed JSON objects are assumed to have distinct keys. `Json.Lookup` reads the first field of a name, while `JSON.parse` keeps the last of repeated keys; the two agree whenever the keys are distinct.
- The whitespace set is that of JavaScript's `\s` for the characters it lists. Other Unicode case mappings and normalization are not modelled.
- CandidateCard.HighlightTerms: every skill must be a non-empty string. An empty skill would put an empty alternative into the regular expression, and non-string skills would make `toLowerCase` throw; neither is modelled.
- CandidateCard.HighlightedBio: requires the same non-empty skills. The regular-expression escaping is not modelled: terms match literally, which is what the escaping achieves.
- RecruiterDashboard.CardFor: requires a result that is not `null` or `undefined`, since the source reads `candidate.parsedResume` without `?.`. `RecruiterDashboard.Cards` models the throw for such a list.
- RecruiterDashboard.EducationLine: the " at " and name ending, counted from the end of the line, is stated only when the institution (or the university) is a string. The head-to-tail description holds for every value.
- RecruiterDashboard.Cards: covers only the mapping to card props. The card itself can still throw while rendering, and that is not modelled. A truthy `tags` or `skills` value that is not an array has no `map` (src/components/Recruiter/CandidateCard.tsx:43). A truthy `bio` that is not a string has no `split` once there are terms to highlight (src/components/Recruiter/CandidateCard.tsx:52).
- JobDetailPage.CardUnifiedScore: requires an application that is not `null` or `undefined`, since the source reads `application.scores` without `?.` (src/pages/HR/JobDetailPage.tsx:177). `JobDetailPage.ApplicationCardScores` models the throw for such a list.
- JobDetailPage.ResumeLine: requires an application that is not `null` or `undefined`, for the same reason. `JobDetailPage.ApplicationCardScores` models the throw. It is the corrected résumé slot, which shows nothing for a score of 0. The code as written prints a stray "0" there, as `JobDetailPage.ResumeSlotAsWritten` models (see Findings).
- JobDetailPage.ApplicationCardScores: covers only the score part of a card. A truthy `tags` value that is not an array but has a positive `length` also throws, at `slice(0, 12).map`; `JobDetailPage.ApplicationCards` models that throw. React's own throw for a tag, name, email, company, phone or preview that is a plain object is not modelled.
- JobDetailPage.CardTags: `length > 0` converts a string length to a number only when it is plain decimal digits. Strings with blanks, signs, fractions, exponents, hex digits or `Infinity` are read as not positive, unlike JavaScript.
- RecruiterDashboard.HandleSearch: the `alert` shown on a failure with a message is not modelled. The results it records come from the corrected `RecruiterDashboard.Normalize` (see Findings), not from the code as written. The two differ only when a response object without a truthy `candidates`, `users` or `data` field has the empty string as the key of its first array-valued field, such as `{"": ["alice"]}`: the code as written records no results and a count of 0, while the model records `["alice"]` and a count of 1.
- The shortlist button, selection of all results and the profile drawer's open and close state carry no logic beyond storing a value, so they are not modelled.
- ProfileDrawer.AvatarInitial: `charAt` on a value that is neither a string nor nullish is modelled as a throw (`None`), which is what happens for numbers, arrays and objects.

## Findings

| source | as written | input that shows it | evidently intended | confidence | as-written member | corrected member |
|---|---|---|---|---|---|---|
| src/pages/Recruiter/RecruiterDashboard.tsx:87-91 | the key found by `find` is tested for truthiness (`if (arrayKey)`), so an array stored under the empty key `""` counts as not found | the search response `{"": ["alice"]}` yields no candidates and a count of 0 | use the first array-valued field whatever its key, so the response above yields `["alice"]` with a count of 1 | medium; not executed | RecruiterDashboard.EmptyKeyArrayDropped | RecruiterDashboard.Normalize |
| src/pages/HR/JobDetailPage.tsx:190 | the résumé line is guarded by `resumeScore && ...`, which evaluates to the number 0 for a résumé score of 0, and React prints that number | an application with `scores: {resumeScore: 0, unifiedScore: 70}` shows a bare "0" under "Match Score" | show nothing unless the résumé score is truthy and differs from the circle's score | high; not executed | JobDetailPage.ZeroResumeScoreShowsZero | JobDetailPage.ResumeLine |
