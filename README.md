# Job-list page: view-state model

A Dafny model of the state machine behind the job-list page of a small
React application (`src/components/Jobs/index.js`). The page keeps three
filter strings, a job list, a profile and two independent fetch statuses.
Two fetches (profile, jobs) each move their status to in-progress, then on
an OK response replace their data wholesale with records mapped from the
API's snake_case fields and move to success, or on any other response move
only the status to failure. The job-list region shows a loader, a failure
view, a "no jobs" view, the list, or nothing, chosen from the jobs status
and whether the list is empty.

Files, one module each:

- `optional.dfy` — `Option`.
- `api_status.dfy` — the four statuses and their string constants.
- `job_records.dfy` — wire records, view records, the field-by-field mapping and its inverse.
- `requests.dfy` — the filter snapshot, the Authorization header, the two URLs, and a reader of query strings (split at '&' and '=') that the jobs URL is checked against.
- `views.dfy` — `ViewFor`, the status-to-view selection.
- `page_state.dfy` — the component state as a value, each handler as a transition, the page as a sequence of events, and the independence and last-response lemmas.
- `jobs.dfy` — the component as a class whose fields are the state and whose methods are the handlers, each specified by the transition it performs.

Two behaviours of the code a reader might not expect:

- Changing an input does not start a fetch. `onChangeInput` only stores the value (`src/components/Jobs/index.js:107-110`). The handlers start fetches on mount, on the search button and on Retry.
- The filter group is not wired to the state. `FilterGroup` is rendered with no props (`src/components/Jobs/index.js:209`). Its render calls `.map` on the missing option lists (`src/components/FilterGroup/index.js:9` and `:29`), which throws. So, as the repository stands, the first render of the page fails and `componentDidMount` never runs. The model describes the component's handlers as they would behave if the filter group rendered.

## Model

| member | source | states |
|---|---|---|
| `ApiStatuses.StatusNamed` | src/components/Jobs/index.js:12-17 | a string read as a status is that status's stored constant |
| `ApiStatuses.LabelRoundTrip` | src/components/Jobs/index.js:12-17 | each status's constant, as `Label` gives it, reads back as that status (this is the contract of `Label`) |
| `ApiStatuses.LabelsDistinct` | src/components/Jobs/index.js:12-17 | two statuses share a constant only if they are the same status, so the switch tells all four apart |
| `JobRecords.ToJobSummary` | src/components/Jobs/index.js:70-79 | the mapped record carries each of the eight wire fields under its camelCase name |
| `JobRecords.ToJobSummaryCorresponds` | src/components/Jobs/index.js:70-79 | a view record carries the eight wire fields under their camelCase names exactly when it is the mapped record |
| `JobRecords.ModifiedJobsList` | src/components/Jobs/index.js:69-79 | the mapped list has the input's length, and its i-th entry's id, companyLogoUrl, employmentType, jobDescription, location, packagePerAnnum, rating and title equal the i-th wire entry's fields |
| `JobRecords.RawJobsRoundTrip` | src/components/Jobs/index.js:69-79 | the mapping loses nothing: the wire list is recovered from the mapped list |
| `JobRecords.JobSummariesRoundTrip` | src/components/Jobs/index.js:69-79 | every job list is the mapping of some wire list |
| `JobRecords.ModifiedJobsListAppend` | src/components/Jobs/index.js:69-79 | mapping works entry by entry: mapping a concatenation concatenates the mapped parts |
| `JobRecords.ProfileDetailsOf` | src/components/Jobs/index.js:54-58 | a fetched profile is never the empty initial object |
| `JobRecords.ProfileRoundTrip` | src/components/Jobs/index.js:54-58 | the profile mapping from `profile_details` loses no field and reaches every fetched profile |
| `JobsRequests.AuthorizationHeader` | src/components/Jobs/index.js:46 | the header carries the cookie's value after "Bearer "; a missing cookie arrives as the token "undefined" |
| `JobsRequests.MissingCookieSentAsUndefined` | src/components/Jobs/index.js:41-47 | a missing cookie sends the same header as a cookie holding "undefined", and as no other cookie |
| `JobsRequests.ProfileRequest` | src/components/Jobs/index.js:42-48 | a GET of the fixed profile URL, which has no query, carrying the cookie as bearer token |
| `JobsRequests.JobsUrl` | src/components/Jobs/index.js:85 | the URL is the endpoint, `?employment_type=`, the employment type, `&minimum_package=`, the minimum package, `&search=` and the search text, in that order; its length is the fixed text's plus the three values', so nothing is escaped |
| `JobsRequests.JobsRequest` | src/components/Jobs/index.js:85-91 | a GET of the jobs URL carrying the cookie as bearer token; with no '&' or '#' in the values the model's query reader gets the three filter values back from its URL |
| `JobsRequests.JobsUrlQuery` | src/components/Jobs/index.js:84-85 | for values free of '#', the model's query reader gets employment_type, minimum_package and search back, in that order with the values verbatim, if and only if no value contains '&' |
| `JobsRequests.SearchWithAmpersandIsSplit` | src/components/Jobs/index.js:85 | a search text `a&b` is read as a search for `a` plus a stray parameter `b`, since values are not percent-encoded |
| `JobsViews.ViewFor` | src/components/Jobs/index.js:180-194 | total case split: Initial gives nothing, InProgress the loader, Failure the failure view whatever the list holds, Success with an empty list the no-jobs view, Success with a non-empty list that list |
| `JobsViews.ViewRevealsStatus` | src/components/Jobs/index.js:180-194 | no two statuses share a view |
| `JobsPage.StartJobs` | src/components/Jobs/index.js:82 | only the jobs status changes, to InProgress, and the loader shows |
| `JobsPage.CompleteJobs` | src/components/Jobs/index.js:96-104 | OK: status Success and the list replaced by the mapped entries, in order; not OK: status Failure and list unchanged, shown as the failure view; the settle step never leaves the status InProgress (a fetch that never settles is a start with no settle, see `JobsPage.UnsettledFetchShowsLoader`); filters and profile untouched |
| `JobsPage.StartProfile` | src/components/Jobs/index.js:40 | only the profile status changes, to InProgress |
| `JobsPage.CompleteProfile` | src/components/Jobs/index.js:53-66 | OK: status Success and the profile replaced by the mapped fields; not OK: status Failure and profile unchanged; jobs and filters untouched |
| `JobsPage.ChangeInput` | src/components/Jobs/index.js:107-110 | the key named by the input holds the new value, every other key holds what it held, and no fetch field changes |
| `JobsPage.InitialStateIsEmpty` | src/components/Jobs/index.js:19-32 | in `InitialPageState` the filters are empty strings, the region shows nothing, and the first request carries three empty parameters (this is the contract of `InitialPageState`) |
| `JobsPage.RefetchIsIdempotent` | src/components/Jobs/index.js:81-105 | settling a re-fetch with the same response as the previous settle, OK or not, gives back the same state: the state update of a fetch is idempotent |
| `JobsPage.JobsIndependentOfProfile` | src/components/Jobs/index.js:39-67 | dropping every profile event changes nothing outside the profile fields |
| `JobsPage.ProfileIndependentOfJobs` | src/components/Jobs/index.js:81-110 | the profile and its status depend on the profile events alone |
| `JobsPage.LastSettledResponseWins` | src/components/Jobs/index.js:93-104 | the jobs response that settles last decides the region, whichever request was started last, provided no jobs fetch starts after it settles |
| `JobsPage.UnsettledFetchShowsLoader` | src/components/Jobs/index.js:82-94 | a jobs fetch that starts and never settles leaves the status InProgress and the loader shown, whatever profile fetches and input changes follow |
| `JobsPage.Step` | src/components/Jobs/index.js:39-110 | a handler run as an event: profile events touch only the profile part, jobs events only the jobs part, input events no fetch field; consistency is kept |
| `JobsPage.RunAppend` | src/components/Jobs/index.js:39-110 | handlers run as a sequence of events: running two sequences in turn is running their concatenation |
| `JobsPage.NonJobsEventsKeepJobs` | src/components/Jobs/index.js:39-110 | profile fetches and input changes, in any number and order, leave the job list and its status alone |
| `JobsPage.RunKeepsConsistent` | src/components/Jobs/index.js:26-32 | in every reachable state a status still Initial has no data, and input keys never shadow state keys |
| `JobsComponent.Jobs.constructor` | src/components/Jobs/index.js:26-32 | the object starts in the initial state |
| `JobsComponent.Jobs.ComponentDidMount` | src/components/Jobs/index.js:34-37 | starts the profile fetch, then the jobs fetch, and returns both requests |
| `JobsComponent.Jobs.StartProfileFetch` | src/components/Jobs/index.js:39-48 | performs `StartProfile` on the fields and returns the profile request |
| `JobsComponent.Jobs.CompleteProfileFetch` | src/components/Jobs/index.js:50-66 | performs `CompleteProfile` on the fields |
| `JobsComponent.Jobs.StartJobsFetch` | src/components/Jobs/index.js:81-91 | performs `StartJobs` and returns the request built from the current filters |
| `JobsComponent.Jobs.CompleteJobsFetch` | src/components/Jobs/index.js:93-105 | performs `CompleteJobs` on the fields |
| `JobsComponent.Jobs.OnChangeInput` | src/components/Jobs/index.js:107-110 | performs `ChangeInput` on the fields |

## Left out

- Rendering: the JSX markup, CSS, `Header`, `ProfileCard`, `JobItem`, `Loader`, the search icon and the search bar. They are presentational; the job-list region's choice of view is modelled as a `JobsView` value.
- How `ProfileCard` uses the profile status: that component is not part of this model.
- `Cookies.get`: the cookie's value is a parameter of each fetch.
- `fetch` and `response.json()`: I/O. A response is an `ok` flag and an already parsed body. If the body fails to parse, or lacks `jobs` or `profile_details`, the source throws before or inside the `ok` branch and the status stays InProgress; a `fetch` that rejects (a network, DNS or CORS error, or a header value the browser refuses, such as a cookie holding a character outside Latin-1) also throws before the `ok` check (src/components/Jobs/index.js:50 and :93) and leaves the status InProgress. The model shows both as a start step with no settle step (`JobsPage.UnsettledFetchShowsLoader`); the failure itself is outside the model. A wire record lacking a field would be copied as `undefined`; the model's records always have every field.
- Overlapping requests: each fetch is a start step and a later settle step, and any order of steps can be run (`JobsPage.Run`). What is left out is timing, and React's batching of `setState`.
- `JobsPage.ChangeInput`: an input named after one of the four fetch keys would store a string in that field. The typed model cannot hold that, so this function requires the name not to be a fetch key. The only input wired to the handler is named `searchInput`.
- `JobsComponent.Jobs.OnChangeInput`: the same restriction as `JobsPage.ChangeInput`.
- `JobsRequests.JobsUrlQuery`: states the query reading only for values free of '#', which would start a URL fragment. The reader models no percent-decoding and no reading of '+' as a space. It also does not model the clean-up `fetch` applies when it parses the URL string (src/components/Jobs/index.js:93): leading and trailing spaces and control characters are stripped and every tab and newline is removed. So trailing whitespace in the search text, which ends the URL, and tabs or newlines in any value do not reach the server, although the reader returns them.
- `JobsRequests.JobsRequest`: its query-reading clause has the same limits as `JobsRequests.JobsUrlQuery`. The URL clean-up of `fetch` is not modelled, so trailing whitespace in the search text and tabs or newlines in any value do not reach the server.
- `rating` is a JSON number. It is modelled as a `real` that is only copied; floating point is not modelled.
- Rendering failure: as written, the render of `FilterGroup` throws (it reads `.map` of props the page never passes), so the page never mounts and no handler ever runs. The model describes the handlers as if the filter group rendered; it does not model the failed render.
- `src/components/FilterGroup/index.js` and `src/components/JobDetails/index.js` are not part of this model. The first would render option lists into inputs, but it throws because the page gives it no props. The second echoes a route parameter.
