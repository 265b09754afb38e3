# Encore UI — a verified model of the console's logic

Encore UI is a web console for the Encore video-transcoding service. It has two parts:

- a small Node/Express gateway that adds a bearer token and forwards API calls to the Encore backend;
- a React single-page application that lists, creates, inspects and cancels encoding jobs and shows the job queue.

This project models the logic under the markup. That covers:

- **gateway:** its decisions;
- **client:** its request shaping and error wrapping;
- **React Query cache:** how the mutation hooks change it;
- **retry policy and route table:** of the application shell;
- **configuration store:** persisted in local storage;
- **pages:** the ordering, filter, pagination and display rules of the four pages.

Each source file maps to one Dafny module:

| module | file | models |
|---|---|---|
| `Server` | `server.dfy` | `server/server.js`: token choice, `/health`, `proxyToEncore` and its failure classes, route dispatch with `/api` stripping and the SPA fallback, the CORS origin list |
| `Api` | `api.dfy` | `src/lib/api.ts`: client headers, the request of each of the eight operations, `withErrorHandling`, `createSafeEncoreApi` |
| `Hooks` | `hooks.dfy` | `src/hooks/useApi.ts`: query keys, per-hook cache policy, a `QueryClient` class whose methods are the mutations' `onSuccess` handlers, the status-count loop |
| `App` | `app.dfy` | `src/App.tsx`: the `retry` predicate, the default staleness window, the route table |
| `Config`, `ConfigCodec` | `config.dfy`, `config_codec.dfy` | `src/contexts/ConfigContext.tsx`: a `ConfigStore` class over the configuration and local storage, with the flat-object JSON encoding it saves in and reads back |
| `QueuePage`, `JobsPage`, `JobDetailPage`, `SettingsPage` | one file each | the page rules |
| `Types`, `Json`, `Strings`, `Wrappers` | helper files | the entity types of `src/types/api.ts`, JSON values with JavaScript truthiness, the string built-ins the code uses (ASCII lowering, `trim`, `split`, `includes`, `replace`), `Option` |

## Model

| member | source | states |
|---|---|---|
| Server.ApiUrl | server/server.js:37 | The backend URL is `ENCORE_API_URL` when it is set and non-empty, otherwise `http://localhost:8080`. |
| Server.Start | server/server.js:42-50 | The OSC context exists exactly when an OSC access token is set and the SDK constructor succeeded. |
| Server.GetBearerToken | server/server.js:53-72 | A static token is returned without any minting call. Otherwise, with a context and an access token, exactly one token is minted for the `encore` service, and a mint failure is thrown as `Failed to generate authentication token`. Otherwise the result is null and no call is made. |
| Server.StaticTokenIgnoresMinting | server/server.js:55-57 | With a static token, the result does not depend on the minting service at all, and no token is minted. |
| Server.AuthMethodMatchesTokenChoice | server/server.js:90-91 | `authMethod` is `static` exactly when the static token is used, `osc-dynamic` exactly when a token is minted, and `none` exactly when the token is null without minting. |
| Server.AuthMethodOf | server/server.js:90-99 | `authMethod` is `static` exactly when a static token is set. It is `osc-dynamic` exactly when there is no static token and both the OSC context and its access token exist, the condition under which a token would be minted. |
| Server.Health | server/server.js:88-109 | `/health` is 200 exactly when token retrieval does not throw. It then reports the API URL, `hasToken` iff the token is truthy, and the auth method. Otherwise it is 500 with status `ERROR`, `Token generation failed` and the thrown message. |
| Server.HealthWithStaticToken | server/server.js:88-99 | With a static token, health always succeeds and reports `hasToken` and `static`. |
| Server.ForwardHeaders | server/server.js:75-85 | The backend client always sends a JSON content type. It sends `Authorization: Bearer <token>` exactly when the token is truthy, and no other header. |
| Server.ResponseErrorText | server/server.js:137-143 | The relayed error is the backend's `message` when that is truthy, otherwise the response's status text. |
| Server.ProxyToEncore | server/server.js:112-158 | A token failure answers 401 `Authentication failed` and sends nothing to the backend. Otherwise exactly one request is sent: the lower-cased method, `req.url`, the body as data and the query as params, to the configured base URL with the token headers. The answer is then one of: the backend status and data unchanged; a relayed error status with error text and details; 503 when no response came back; 500 `Internal server error` otherwise. A failure carrying the token message is always 401. |
| Server.ApiRouteStripsPrefix | server/server.js:161-165 | Among requests that reach the route table, every one whose path starts with `/api/` is proxied, with the first `/api` removed from its url. |
| Server.ApiRouteForwardsRemainder | server/server.js:161-165 | When the url itself starts with `/api`, what is forwarded is the url without those four characters. |
| Server.LegacyRoutesVerbatim | server/server.js:168-172 | Among requests that reach the route table, those under `/encoreJobs`, `/queue` or `/encore` are proxied with their url unchanged. |
| Server.FallbackNotFoundOnlyForHealth | server/server.js:184-194 | The fallback's 404 JSON body is sent exactly for GET paths that begin with `/health` and are not the health route itself. Its `/api/` arm can never fire. |
| Server.HealthPrefixNotProxied | server/server.js:161-172 | A path beginning with `/health` matches none of the proxy routes. |
| Server.Dispatch | server/server.js:88-194 | The route table for requests the middleware passes on, in registration order. Only a GET or HEAD on the health path reaches the health check. A request is proxied only under `/api/` or a legacy prefix. The shell and the 404 body answer only GET or HEAD. A request matches no route exactly when it is neither a GET nor a HEAD and matches no proxy pattern. |
| Server.FallbackServesShell | server/server.js:184-194 | Every other GET that reaches the route table, that is one not answered with a built file, is answered with the application shell. |
| Server.CorsOrigins | server/server.js:18-21 | Without `ALLOWED_ORIGINS` the origins are the two development origins. With it there is one origin per comma-separated piece, each being that piece trimmed. |
| Server.CorsOriginsClean | server/server.js:19-21 | Every allowed origin is already trimmed and contains no comma. |
| Api.ClientHeaders | src/lib/api.ts:12-19 | The content type is always JSON. `Authorization` is present iff the token is present and not blank, and its value is `Bearer ` plus the trimmed token. No other header is set. |
| Api.CreateApiClient | src/lib/api.ts:12-25 | The client keeps the base URL. Its headers are the JSON content type, plus `Authorization: Bearer <trimmed token>` iff the token is not blank, and no other header. |
| Api.RequestOf | src/lib/api.ts:28-72 | Each of the eight operations sends its own request: method, path, parameters and body as listed. `getJobs` defaults its params to `{}`. `cancelJob` is a POST to `.../{id}/cancel` with no body. `getJobsByStatus` sends `{status, ...params}`. |
| Api.StatusParams | src/lib/api.ts:60-65 | A status inside the caller's params overrides the status argument, and the other fields pass through. |
| Api.JobPathRoundTrip | src/lib/api.ts:35-57 | The job id can be read back from `/encoreJobs/{id}`. |
| Api.JobPathInjective | src/lib/api.ts:35-57 | Different ids address different job paths. |
| Api.JobPath | src/lib/api.ts:36 | The path of one job is `/encoreJobs/` followed by the id as given. `JobPathRoundTrip` and `JobPathInjective` state that the id can be read back and that distinct ids give distinct paths. |
| Api.BodyOnlyForWrites | src/lib/api.ts:40-48 | Only create and update send a body, and it is the caller's data unchanged. |
| Api.JobOperationsUnderJobsPath | src/lib/api.ts:28-71 | Every operation except the queue read addresses the `/encoreJobs` collection. |
| Api.ResultOf | src/lib/api.ts:50-52 | Delete resolves to nothing. Every other operation resolves to the response data unchanged. |
| Api.WithErrorHandling | src/lib/api.ts:75-89 | A result passes through unchanged. An axios error becomes an `Error` whose message is `API Error: ` followed by the response's truthy `message` or else the axios message. Any other error is rethrown unchanged, so no axios error escapes. |
| Api.WithErrorHandlingIdempotent | src/lib/api.ts:75-89 | Wrapping twice is wrapping once. |
| Api.AxiosMessage | src/lib/api.ts:83-84 | The detail of the rewritten error is the response data's `message` when that is truthy, rendered as a template literal renders it, otherwise the axios error's own message. |
| Api.RawCall | src/lib/api.ts:28-72 | An operation resolves to its result from the transport's data, or rejects with the transport's error. |
| Api.CreateSafeEncoreApi | src/lib/api.ts:92-106 | The safe API is built over one client with the configured base URL. Its headers are the JSON content type, plus `Authorization: Bearer <trimmed token>` iff the token is not blank, and no other header. |
| Api.Invoke | src/lib/api.ts:92-106 | A safe operation resolves exactly when the transport does, with the same result. A rejection is never an axios error. |
| Hooks.KeyFamilies | src/hooks/useApi.ts:18-24 | The `['jobs']` filter selects every list key and every by-status key, and never a single-job key or the queue key. The queue key selects only itself. A single-job key selects only that job. |
| Hooks.JobsKey | src/hooks/useApi.ts:19 | A job list is keyed `['jobs', params]`. `KeyFamilies` proves the `['jobs']` filter selects it. |
| Hooks.JobKey | src/hooks/useApi.ts:20 | A single job is keyed `['job', id]`. `KeyFamilies` proves the `['jobs']` filter never selects it, and that it selects only that job. |
| Hooks.JobsByStatusKey | src/hooks/useApi.ts:21-22 | A by-status list is keyed `['jobs', 'by-status', status, params]`. `KeyFamilies` proves the `['jobs']` filter selects it. |
| Hooks.QueueKey | src/hooks/useApi.ts:23 | The queue is keyed `['queue']`. `KeyFamilies` proves it selects neither lists nor jobs and is selected by neither. |
| Hooks.UseJob | src/hooks/useApi.ts:38-48 | The single-job query is enabled iff the id is non-empty. |
| Hooks.UseJobs | src/hooks/useApi.ts:27-36 | The job list reads `getJobs(params)` under its list key, always enabled, with 30 s staleness and 5 s polling. `PolicyTable` states the constants. |
| Hooks.UseJobsByStatus | src/hooks/useApi.ts:50-59 | The by-status list reads `getJobsByStatus(status, params)` under its by-status key, always enabled, with 30 s staleness and 5 s polling. |
| Hooks.UseQueue | src/hooks/useApi.ts:61-70 | The queue reads `getQueue()` under `['queue']`, always enabled, with 10 s staleness and 3 s polling. |
| Hooks.PolicyTable | src/hooks/useApi.ts:27-70 | The lists and by-status lists use 30 s staleness and 5 s polling. A single job uses 10 s and 2 s, and the queue 10 s and 3 s. Each hook polls inside its staleness window and fetches the resource its key names. |
| Hooks.Invalidate | src/hooks/useApi.ts:81-82 | Invalidation marks exactly the entries the filter key is a prefix of. It keeps every key and all data. |
| Hooks.Remove | src/hooks/useApi.ts:110 | Removal drops exactly the entries the filter selects, and keeps the rest unchanged. |
| Hooks.SetData | src/hooks/useApi.ts:95 | Writing data stores the new data as a fresh entry, and changes no other entry. |
| Hooks.AfterCreate | src/hooks/useApi.ts:79-83 | Create invalidates every jobs-prefixed entry and the queue. Single-job entries are untouched and no data changes. |
| Hooks.AfterUpdate | src/hooks/useApi.ts:94-99 | Update stores the returned job under `['job', id]` as fresh and invalidates the lists. The queue entry and other jobs' entries are unchanged. |
| Hooks.AfterDelete | src/hooks/useApi.ts:109-113 | Delete drops `['job', id]` and invalidates the lists. The queue entry and other jobs' entries are unchanged, and no key is added. |
| Hooks.AfterCancel | src/hooks/useApi.ts:123-128 | Cancel invalidates the job, every list and the queue. Other jobs' entries are unchanged. |
| Hooks.CancelIdempotent | src/hooks/useApi.ts:123-128 | A second successful cancel of the same job leaves the cache as the first one left it. |
| Hooks.QueryClient.InvalidateQueries | src/hooks/useApi.ts:81-82 | The cache becomes its invalidation by the prefix. |
| Hooks.QueryClient.SetQueryData | src/hooks/useApi.ts:95 | The cache becomes the old cache with that entry written. |
| Hooks.QueryClient.RemoveQueries | src/hooks/useApi.ts:110 | The cache becomes the old cache without the selected entries. |
| Hooks.QueryClient.OnCreateSuccess | src/hooks/useApi.ts:79-83 | The handler's two calls change the cache into `AfterCreate` of the old cache. |
| Hooks.QueryClient.OnUpdateSuccess | src/hooks/useApi.ts:94-99 | The handler's two calls change the cache into `AfterUpdate` of the old cache. |
| Hooks.QueryClient.OnDeleteSuccess | src/hooks/useApi.ts:109-113 | The handler's two calls change the cache into `AfterDelete` of the old cache. |
| Hooks.QueryClient.OnCancelSuccess | src/hooks/useApi.ts:123-128 | The handler's three calls change the cache into `AfterCancel` of the old cache. |
| Hooks.Increment | src/hooks/useApi.ts:152-173 | A job raises exactly its own status's counter by one and leaves the total alone. |
| Hooks.CountsCoverJobs | src/hooks/useApi.ts:152-173 | The six per-status counts of a job sequence add up to its length. |
| Hooks.JobStatusCounts | src/hooks/useApi.ts:133-176 | The total is the reported element count, or 0 when absent. A reported total of 0 gives six zero counters. Otherwise each counter is the number of embedded jobs with that status, and the counters add up to the number of embedded jobs, which can differ from the total. |
| App.DigitFourStopsRetry | src/App.tsx:21-25 | An `Error` whose message contains a `4` anywhere is never retried, whatever the failure count. |
| App.Retry | src/App.tsx:21-27 | The `retry` option refuses an `Error` whose message contains `4`, and otherwise allows a retry iff fewer than three failures have occurred. The lemmas around it prove the substring test, the bound of three, monotonicity and the non-`Error` case. |
| App.AtMostThreeRetries | src/App.tsx:26 | A retry is granted only below three failures. |
| App.RetryMonotone | src/App.tsx:21-27 | Once a retry is refused for an error, it is refused for every higher failure count. |
| App.NonErrorRetriedByCount | src/App.tsx:23 | A thrown non-`Error` value is retried iff the failure count is below three. |
| App.SafeApiErrorsRetriedByDetail | src/App.tsx:21-27 | An error from the safe API is retried iff its detail text has no `4` and fewer than three failures have occurred. |
| App.EffectiveStaleTime | src/App.tsx:20 | A query's own staleness window wins over the five-minute default. |
| App.HooksOverrideDefaultStaleTime | src/App.tsx:20 | Every hook sets its own staleness window, and each is shorter than the default. |
| App.StripTrailingSlashes | src/App.tsx:39-46 | The router sees the pathname as a prefix of it that ends in no slash, with only slashes removed. |
| App.RouteOf | src/App.tsx:39-46 | The matched job-detail id is always one non-empty segment other than `new`. |
| App.RouteTable | src/App.tsx:40-45 | `/`, `/jobs`, `/jobs/new`, `/queue` and `/settings` reach their own pages. |
| App.JobDetailRoute | src/App.tsx:43 | `/jobs/{id}` shows that job's detail page iff the id is one segment and, compared case-insensitively, not `new`. |
| App.TrailingSlashIgnored | src/App.tsx:39-46 | A trailing slash never changes the page. |
| ConfigCodec.SerializeRoundTrip | src/contexts/ConfigContext.tsx:19-30 | Parsing what the save effect writes gives back both fields of the configuration. |
| ConfigCodec.Serialize | src/contexts/ConfigContext.tsx:30 | `JSON.stringify` of the configuration: an object text with the URL and token members in declaration order, each value escaped as `JSON.stringify` escapes strings. `SerializeRoundTrip` proves that parsing it gives both fields back. |
| ConfigCodec.Parse | src/contexts/ConfigContext.tsx:19 | `JSON.parse` of a saved entry, for a flat object with string values. Any other text is a parse failure (`None`). `SerializeRoundTrip`, `StringRoundTrip` and `TwoMembersRoundTrip` prove it inverts the encoding. |
| ConfigCodec.StringRoundTrip | src/contexts/ConfigContext.tsx:19-30 | Any string, escaped as `JSON.stringify` escapes it, parses back to itself and leaves the remaining input untouched. |
| ConfigCodec.TwoMembersRoundTrip | src/contexts/ConfigContext.tsx:19-30 | A two-member object with distinct plain keys parses to the map of its two members. |
| Config.DefaultConfig | src/contexts/ConfigContext.tsx:4-7 | The default URL is the build variable when it is non-empty, else `http://localhost:8080`. The default token is the build variable, else the empty string. |
| Config.Merge | src/contexts/ConfigContext.tsx:33-35 | Exactly the provided fields are replaced. |
| Config.MergeIdempotent | src/contexts/ConfigContext.tsx:33-35 | Merging the same fields twice equals merging once, and merging nothing changes nothing. |
| Config.Overlay | src/contexts/ConfigContext.tsx:20 | Each saved field overrides the default, and an absent field keeps the default. |
| Config.LoadSaved | src/contexts/ConfigContext.tsx:16-19 | A missing or empty entry is not parsed. Otherwise the entry's parse is used. |
| Config.InitialConfig | src/contexts/ConfigContext.tsx:14-26 | If there is no saved entry, it is empty, or it does not parse, the initial configuration is the default. Otherwise it is the saved fields over the default. |
| Config.ReloadRestores | src/contexts/ConfigContext.tsx:14-31 | Whatever configuration the save effect wrote is what the next load starts from. |
| Config.ConfigStore.constructor | src/contexts/ConfigContext.tsx:14-31 | Mounting loads the initial configuration and saves it under `encore-ui-config`. The store starts in its invariant. |
| Config.ConfigStore.Update | src/contexts/ConfigContext.tsx:33-35 | The configuration becomes the merge, and the saved entry becomes its serialisation. Other storage keys are unchanged. |
| Config.ConfigStore.Reset | src/contexts/ConfigContext.tsx:37-40 | The configuration becomes the default and the entry is removed. If the configuration changed, the save effect writes the default back. If it already was the default object, the entry stays removed. |
| Config.ConfigStore.Reloaded | src/contexts/ConfigContext.tsx:14-31 | In every reachable state, reloading the page restores the current configuration. |
| QueuePage.CompareIsBefore | src/pages/Queue.tsx:140 | The comparator keeps `a` first exactly when `a` has the higher priority, or the same priority and an earlier or equal creation time. This order is total. |
| QueuePage.Compare | src/pages/Queue.tsx:140 | The sort comparator `b.priority - a.priority \|\| created(a) - created(b)` on integer creation times. `CompareIsBefore` ties its sign to `Before`. |
| QueuePage.Before | src/pages/Queue.tsx:140 | The order the comparator induces: higher priority first, then the earlier creation time. `CompareIsBefore` proves it total. |
| QueuePage.SortQueue | src/pages/Queue.tsx:139-140 | The cached array is sorted in place. Afterwards it is ordered and holds the same items. |
| QueuePage.InsertAt | src/pages/Queue.tsx:140 | One insertion step extends the sorted prefix by one element. It keeps the items and the suffix. |
| QueuePage.Swap | src/pages/Queue.tsx:140 | Exchanging two neighbours changes only those two positions. |
| QueuePage.SortedAdjacent | src/pages/Queue.tsx:140 | In the sorted queue, priority never rises between neighbours, and within one priority the creation time never falls. |
| QueuePage.AdjacentSorted | src/pages/Queue.tsx:140 | Order between neighbours is enough for the whole sequence to be sorted. |
| QueuePage.ExampleOrder | src/pages/Queue.tsx:140 | With T0 < T1 < T2, the items {10, T1}, {20, T2}, {20, T0} can only sort as 20/T0, 20/T2, 10/T1. |
| QueuePage.Rows | src/pages/Queue.tsx:141-149 | Row i shows item i at position i + 1. Positions are distinct and lie between 1 and the queue length. |
| QueuePage.QueueLength | src/pages/Queue.tsx:53 | The queue-length card shows the ellipsis exactly while loading, else the queue's length, or 0 without data. |
| QueuePage.QueuedJobsCount | src/pages/Queue.tsx:65 | The queued-jobs card shows the ellipsis exactly while loading, else the number of embedded jobs. |
| QueuePage.ProcessingCount | src/pages/Queue.tsx:77 | The processing card shows the number of embedded in-progress jobs, or 0 when absent. |
| QueuePage.TableIffPositiveLength | src/pages/Queue.tsx:90-116 | The table is shown exactly when the length card shows a positive number. |
| QueuePage.SegmentLabel | src/pages/Queue.tsx:177 | A present segment shows its own decimal value, so 0 shows as `0`. An absent one shows `-`, and only an absent one does. |
| QueuePage.ShortId | src/pages/Queue.tsx:158 | The link text is the first eight characters of the id (fewer for a shorter id) followed by `...`. |
| JobsPage.QueryParams | src/pages/Jobs.tsx:31-35 | The query always carries the page and size 20. It carries a status iff a single status is chosen. |
| JobsPage.FilterJobs | src/pages/Jobs.tsx:37-44 | A job is kept iff it matches the search. Every matching job keeps all of its occurrences, and every non-matching one is dropped. The result only removes jobs. |
| JobsPage.Matches | src/pages/Jobs.tsx:38-43 | The search test: an empty term keeps the job. Otherwise the lower-cased term must be a substring of the lower-cased base name, the id, or the external id when present. |
| JobsPage.EmptyTermKeepsAll | src/pages/Jobs.tsx:38 | An empty search keeps every job, in order. |
| JobsPage.FilterPreservesOrder | src/pages/Jobs.tsx:37-44 | The kept jobs appear in their original relative order. |
| JobsPage.TermCaseIgnored | src/pages/Jobs.tsx:39-43 | Lower-casing the search term changes nothing. |
| JobsPage.ListViewOf | src/pages/Jobs.tsx:93-123 | Loading shows the skeleton, then an error shows the error box. "No jobs found" is shown exactly when the backend returned an empty list. A table only ever holds matching jobs, and at least one. |
| JobsPage.SecondaryLabel | src/pages/Jobs.tsx:162 | The second line is the non-empty external id, else the first eight characters of the id. |
| JobsPage.RangeWithinResults | src/pages/Jobs.tsx:225-229 | On a page that holds results, the "showing" range is non-empty, inside the results and at most one page long. Consecutive pages' ranges meet without a gap. |
| JobsPage.RangeLabel | src/pages/Jobs.tsx:225-229 | "Showing `page*20+1` to `min((page+1)*20, totalElements)`". `RangeWithinResults` proves it lies within the results and that consecutive pages meet without a gap. |
| JobsPage.PaginationShown | src/pages/Jobs.tsx:221 | The pagination bar renders only when the backend reports more than one page. |
| JobsPage.PreviousDisabled | src/pages/Jobs.tsx:233-234 | Previous is disabled exactly at page 0. `JobsView.Previous` proves the page never goes negative. |
| JobsPage.NextDisabled | src/pages/Jobs.tsx:240-241 | Next is disabled when the page is at or beyond `totalPages - 1`. `JobsView.Next` proves the page never leaves the reported range. |
| JobsPage.JobsView.constructor | src/pages/Jobs.tsx:27-29 | The page starts with an empty search, all statuses and page 0. |
| JobsPage.JobsView.Query | src/pages/Jobs.tsx:31-35 | The issued query carries the current page and size 20 and no sort. It carries a status exactly when a single status is chosen, and then that status. |
| JobsPage.JobsView.SetSearchTerm | src/pages/Jobs.tsx:27 | Typing changes only the search term. |
| JobsPage.JobsView.SetStatusFilter | src/pages/Jobs.tsx:28 | Choosing a status changes only the filter. The page number is not reset. |
| JobsPage.JobsView.Previous | src/pages/Jobs.tsx:233-234 | Previous does nothing at page 0 and otherwise goes back one page. The page never goes negative. |
| JobsPage.JobsView.Next | src/pages/Jobs.tsx:240-241 | Next does nothing on the last reported page and otherwise goes forward one page. It never leaves the reported range. |
| JobDetailPage.ViewOf | src/pages/JobDetail.tsx:29-79 | A missing id shows the invalid-id message. The job is shown exactly when there is an id, loading is done, there is no error and a job arrived. |
| JobDetailPage.CancelOfferedIffNotTerminal | src/pages/JobDetail.tsx:109 | Cancel is offered exactly for NEW, QUEUED and IN_PROGRESS, never for a terminal status. |
| JobDetailPage.CancelOffered | src/pages/JobDetail.tsx:109 | The cancel button is offered for NEW, QUEUED and IN_PROGRESS. `CancelOfferedIffNotTerminal` proves these are exactly the non-terminal statuses. |
| JobDetailPage.ShowsProgress | src/pages/JobDetail.tsx:146 | The progress section is shown exactly for a job in progress. |
| JobDetailPage.ShowsFailure | src/pages/JobDetail.tsx:243 | The failure box is shown exactly for a failed job with a non-empty message. `DisplayOf` proves it never appears together with progress or cancel. |
| JobDetailPage.CancelRequest | src/pages/JobDetail.tsx:83-91 | A cancel request, a POST to the job's cancel path without a body, is sent iff the user confirms. |
| JobDetailPage.OptionalRowsOf | src/pages/JobDetail.tsx:202-232 | The started and completed rows appear iff their dates are present. The seek and duration rows appear iff their values are non-zero. |
| JobDetailPage.DisplayOf | src/pages/JobDetail.tsx:18-25 | The badge shows the status label and the priority tier. Cancel is offered iff the status is not terminal. Progress is shown iff the job is in progress. The failure box is shown iff the job failed with a non-empty message. Progress and failure never show together, and neither do failure and cancel. |
| JobDetailPage.ZeroIsHidden | src/pages/JobDetail.tsx:225-232 | A seek or duration of 0 is hidden. |
| Types.StatusName | src/types/api.ts:3-9 | Every status has a non-empty wire name. |
| Types.StatusNameInjective | src/types/api.ts:3-9 | Distinct statuses have distinct wire names. |
| Types.StatusLabelInjective | src/pages/JobDetail.tsx:18-25 | The label table covers all six statuses and tells them apart. |
| Types.StatusLabel | src/pages/JobDetail.tsx:18-25 | Each of the six statuses has its non-empty `statusConfig` label, the same on src/pages/Jobs.tsx:17-24. |
| Types.Tier | src/pages/Queue.tsx:164-168 | The tier is red iff priority ≥ 50, yellow iff 25 ≤ priority < 50, and green iff priority < 25 (the same bands as src/pages/JobDetail.tsx:184-188 and src/pages/Jobs.tsx:203-207). |
| Types.TierMonotone | src/pages/JobDetail.tsx:184-188 | A higher priority never gets a lower tier. |
| SettingsPage.TestUrl | src/pages/Settings.tsx:34 | The test URL is the configured URL with at most one trailing slash removed, followed by a slash. |
| SettingsPage.TestUrlNormal | src/pages/Settings.tsx:34 | The test URL always ends in a slash, and normalising it again changes nothing. |
| SettingsPage.Differs | src/pages/Settings.tsx:51 | The form differs from a configuration iff the URL or the token differs from it. |
| SettingsPage.SettingsForm.HasChanges | src/pages/Settings.tsx:51 | `hasChanges` compares the fields with the live configuration. Save is disabled without it (src/pages/Settings.tsx:135-142), and `Save`, `Reset` and `ResetAsWritten` state what it is afterwards. |
| SettingsPage.SettingsForm.constructor | src/pages/Settings.tsx:5-9 | The fields start from the configuration, idle and untested, with nothing to save. |
| SettingsPage.SettingsForm.EditUrl | src/pages/Settings.tsx:6 | Editing the URL changes only the URL field. |
| SettingsPage.SettingsForm.EditToken | src/pages/Settings.tsx:7 | Editing the token changes only the token field. |
| SettingsPage.SettingsForm.Save | src/pages/Settings.tsx:11-13 | With changes, both fields are passed to `updateConfig` and saved. Without changes the button is disabled and storage is unchanged. Either way the configuration then equals the form. |
| SettingsPage.SettingsForm.ResetAsWritten | src/pages/Settings.tsx:15-19 | The store returns to the default, but the fields take the configuration from before the reset. The form then shows changes exactly when that configuration was not the default. |
| SettingsPage.SettingsForm.Reset | src/pages/Settings.tsx:15-19 | The store and the fields both return to the default, with nothing left to save. |
| SettingsPage.SettingsForm.StartTest | src/pages/Settings.tsx:21-34 | Pressing the button while a test runs does nothing. Otherwise it raises the flag, clears the status and requests the test URL. `Authorization` is `Bearer ` plus the trimmed token iff the token is not blank. |
| SettingsPage.SettingsForm.FinishTest | src/pages/Settings.tsx:39-48 | The status becomes success exactly on an ok response, and error on a non-ok response or an exception. The flag always drops. |
| SettingsPage.ResetLeavesStaleFields | src/pages/Settings.tsx:15-19 | After the reset as written, a saved configuration that differs from the default still differs from the live (default) configuration. |
| SettingsPage.ResetCounterexample | src/pages/Settings.tsx:15-19 | With the built-in defaults, a saved custom URL and token are still in the form after a reset. |

## Left out

- **Transport and infrastructure:** HTTP is not modelled. The backend call and `fetch` are parameters returning an abstract outcome. Express middleware (`cors`, `express.json`, `express.static`), `app.listen`, console logging and the `/health` timestamp are left out.
  - The error middleware (server/server.js:175-181) is left out. It answers 500 `{error: 'Internal server error', message}` for any error passed on by middleware. Chief among these are the body parsers (`express.json` and `express.urlencoded`, server/server.js:28-29): a POST to `/api/encoreJobs` with a malformed JSON body is answered that way and is never proxied. The route handlers modelled here catch their own errors.
  - The CORS `credentials`, `methods` and `allowedHeaders` options are constants with no logic.
- Server.Dispatch: models only the route table, not the middleware in front of it.
  - `cors` (server/server.js:27) answers every `OPTIONS` preflight itself with 204, including `OPTIONS /api/...`, although `Dispatch` would proxy it.
  - `express.static` (server/server.js:33) answers every GET or HEAD that names a built file, before the fallback.
  - The routing lemmas are therefore about requests that reach the route table.
- **OSC SDK:** `getServiceAccessToken` is a parameter `string -> MintOutcome`, and creating the context is a boolean parameter of `Server.Start`.
- **Request fields:** `req.url` and `req.path` are independent fields of a request. How axios merges a query string left in the url with `params` is not resolved.
- **React Query:** its internals are left out: the retry executor and back-off, refetch intervals as timers, background refetching, in-flight races, and the mutations' `isPending` flags. Staleness windows and intervals are constants.
  - The cache records only data and an invalidated flag.
  - Query keys compare structurally, which is what React Query's hashing does for these JSON keys.
- **Rendering:** JSX, CSS classes, icons, `date-fns` formatting and floating-point output (`speed.toFixed`, file sizes in MB) are presentation and are not modelled.
  - The job detail page's inputs, outputs and backend-configuration sections, and the Queue page's "Currently Processing" list, only render fields.
  - src/pages/CreateJob.tsx, src/pages/Dashboard.tsx, src/components/Layout.tsx, src/hooks/useConfig.ts and the theme context are not part of this model.
- **Numbers and time:** JSON numbers are integers. The queue sort's `new Date(created).getTime()` is taken as an integer creation time, so invalid dates (`NaN`) are not modelled.
- **Strings:** `toLowerCase` is modelled on ASCII letters only. Route parameters are not URL-decoded (`App.RouteOf` yields the raw segment).
- **Local storage and JSON:** local storage is a `map<string, string>`.
  - The codec models `JSON.stringify` of the two-field configuration exactly. `JSON.parse` is modelled for flat objects with string values.
  - Any other saved JSON (numbers, nesting, arrays, surrogate-pair escapes) is treated as a parse failure, so it falls back to the defaults.
  - Saved keys other than the two fields are ignored, where the source would spread them into the state object and save them again.
- **bearerToken:** the configuration always holds a token string, possibly empty. The source's optional `bearerToken` is therefore read as `''`, which is what `config.bearerToken \|\| ''` yields.
- **Connection test:** SettingsPage.SettingsForm.StartTest and FinishTest split `testConnection` at its `await`. Interleavings of several pending tests are not modelled.

- Server.Dispatch: the fallback's 404 message uses `req.url` where the source uses `req.originalUrl`. Both are the same string at the fallback, because no router has rewritten the url by then.
- QueuePage.SortQueue: does not state that the sort is stable. `Array.prototype.sort` is stable, but the page does not rely on it.

## Findings

| source | as written | input that shows it | evidently intended | confidence | as-written member | corrected member |
|---|---|---|---|---|---|---|
| src/pages/Settings.tsx:15-19 | `handleReset` resets the store, then fills the fields from the `config` captured at render, which is the configuration from before the reset | a saved URL `http://encore.example:8080` and token `secret` with the built-in defaults: after Reset the form still shows them, Save is enabled, and saving writes the old configuration back | the fields return to the default configuration together with the store | not executed | SettingsPage.SettingsForm.ResetAsWritten, SettingsPage.ResetCounterexample | SettingsPage.SettingsForm.Reset |
