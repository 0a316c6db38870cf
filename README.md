# LinkLog write path and popup rules, in Dafny

LinkLog is a browser extension that saves a profile (name, title, company, URL, dates, tag,
notes) as one row of a Google Sheet through an Apps Script endpoint. This project models two
parts of it.

The first part is the background service worker's write path (`service_worker.js`):

- The immediate save chooses between `append` and `update` from the local index, makes one
  attempt, and either records the returned row identity or puts the row on the offline queue.
- One shared function classifies each answer from the endpoint.
- The drain makes one pass over the persisted queue in order. Before a retry it waits
  `min(1000 * 2^n, 30000)` ms. It drops an item once it has failed five times. A re-entrancy
  flag makes a second drain request a no-op while a drain is running.
- Unknown message types get the default error reply.

The second part is the popup's pure decisions (`popup.js`):

- the keyword score of each scraped experience entry and the stable ranking by that score;
- the 8-column payload that a save sends;
- the CSV export;
- the model chosen when the AI provider changes;
- whether the save button is enabled.

The worker is a `class Worker` (`service_worker.dfy`). Its fields stand for the two
`chrome.storage.local` keys, the in-memory `offlineQueue`, the `isProcessingQueue` flag and the
settings cache. The save and drain methods (`SaveRow`, `FlushQueue`, `DrainPass`, `Visit`,
`Attempt`) are proved against specification functions in `reconcile.dfy`: `Survivors`,
`IndexAfter`, `Tries` and `SaveOutcome`. The lemmas there prove what those functions promise.
`CheckExistingProfile` is proved against `Records.Lookup`. `UpdateLocalIndex`, `Enqueue`,
`Restart`, `Wake` and `LoadSettings` state the new value of every field they write directly
in their `ensures`. The popup's decisions are plain functions, apart from `scoreRoleHeuristic`,
which keeps its loop as a method.

Facts about the code that the model keeps:

- A throttled reply (429) has no separate class. It is an HTTP error like any other status
  below 500 that is not 401 or 403.
- No kind of error is final. The drain keeps every failed item, whatever the error, until its
  counter reaches the ceiling. The immediate save as written queues nothing, because of the
  `mode` scoping defect under "## Findings"; with that defect corrected, every failed save is
  queued.
- A failed save does not request a drain. Only the timer, installation and activation do.
- Each pass makes one attempt per item. In a pass over A, B and C answered 503, success and
  400, A and C are both kept with counter 1 and only B is written to the index
  (`Reconcile.MixedPass`).
- A row gets at most six attempts in all: the immediate one, then at most five in the drain.
- Each attempt sends the item's stored payload under the mode stored with it. The drain does
  not consult the local index again to choose the mode.

Scores are counted in half-points so that they stay integers. A title match is 6, a company
match 3, a description match 2, and a current role starts at 2.

## Model

| member | source | states |
|---|---|---|
| ServiceWorker.RouteMessage | service_worker.js:46-63 | exactly the three known message types are handled; any other type gets the error "Unknown message type" |
| ServiceWorker.Worker.constructor | service_worker.js:7-22 | a fresh worker has an empty index, an empty queue, an empty mirror, no drain running and URL and token unset |
| ServiceWorker.Worker.Restart | service_worker.js:7-22 | on a restart the globals are reset while both storage keys survive |
| ServiceWorker.Worker.Wake | service_worker.js:7-43 | a start-up that loads the settings: storage survives, the globals are reset and the cache holds the synced settings |
| ServiceWorker.RestartedDrainDropsQueue | service_worker.js:7-18 | with the default settings every attempt fails as not configured, and an item is gone once the drain has made the passes left before its ceiling |
| ServiceWorker.Worker.LoadSettings | service_worker.js:32-36 | the synced settings replace the cache |
| ServiceWorker.Worker.CheckExistingProfile | service_worker.js:110-117 | an entry is returned iff the URL is in the index, and it is the stored one |
| ServiceWorker.Worker.UpdateLocalIndex | service_worker.js:124-133 | the index maps the URL to the new entry; every other key keeps its entry and no key is removed |
| ServiceWorker.Worker.Enqueue | service_worker.js:186-205 | the stored queue gains exactly one item at its tail, with the payload, mode and time and a retry count of 0; the mirror equals the stored queue; the retry bound is kept |
| ServiceWorker.Worker.SaveRow | service_worker.js:70-103 | the new index, queue and reply are those of `SaveOutcome` for the classified attempt: a success writes the index and replies with the mode, a failure enqueues under the mode chosen before the attempt and replies with the error message; the request sent carries the payload and the mode chosen from the index before the attempt |
| ServiceWorker.Worker.FlushQueue | service_worker.js:210-279 | a drain requested while one runs, or over an empty queue, changes nothing and sends nothing; otherwise the queue becomes the pass's survivors, the mirror equals it, the index is the one the pass's successes leave, the tries are `Tries` of the queue (one wait and one request per item, in order), and the flag is restored |
| ServiceWorker.Worker.DrainPass | service_worker.js:228-265 | the loop over the queue yields the pass's survivors, leaves the index written by its successes, and records the wait and the request of each attempt |
| ServiceWorker.Worker.Visit | service_worker.js:229-264 | handling the next item extends the pass's survivors, index and tries by exactly that item's contribution |
| ServiceWorker.Worker.Attempt | service_worker.js:229-264 | one attempt sends the item's stored payload and mode; it writes the item's URL in the index on success; on failure it writes nothing and keeps the bumped item only while its counter is below 5 |
| Records.Lookup | service_worker.js:113-114 | an entry is found iff the URL is a key, and it is the stored one |
| Records.ChooseMode | service_worker.js:73-74 | the mode is `update` iff the profile URL is already in the local index |
| Records.UpsertThenUpdate | service_worker.js:70-86 | once a URL's entry has been written, the next save of that URL is an `update` |
| AppsScript.PostRow | service_worker.js:141-179 | unconfigured settings fail before any request; success iff the status is 2xx and the envelope says ok, and the envelope's row id and message are then returned; a rejected `fetch` is unreachable; a 2xx body that is not JSON is a bad body; 401/403 is an auth failure, 500 and above a server error, and any other non-2xx status an HTTP error carrying the status; exactly a 2xx envelope with `ok` false is a rejection, carrying its own error text, or the default text when that text is empty or missing |
| AppsScript.RequestFor | service_worker.js:141-157 | no request is made iff the URL or token is missing; otherwise it goes to the configured URL with the token, the given mode and the payload |
| AppsScript.NotConfiguredIffNoRequest | service_worker.js:141-146 | an attempt fails as not configured exactly when no request is sent |
| AppsScript.ErrorMessage | service_worker.js:143-171 | each failure kind's message is the text the code throws: "Apps Script URL or token not configured", "Authentication failed - check your token", "Server error: " or "HTTP error: " followed by the status in decimal (which reads back as the status), the `fetch` or JSON reason, or the envelope's error |
| Text.Decimal | service_worker.js:162-164 | `${response.status}` is a non-empty string of digits with no leading zero that reads back as the status |
| AppsScript.TooManyRequestsIsHttpError | service_worker.js:158-166 | a 429 reply is classified as an ordinary HTTP error |
| Reconcile.BackoffDelay | service_worker.js:231 | the computed delay never exceeds 30000 ms |
| Reconcile.WaitBefore | service_worker.js:231-235 | a first attempt is not delayed, and no wait exceeds 30000 ms |
| Reconcile.Tries | service_worker.js:228-238 | a pass has one try per item, in queue order: the wait before that item's attempt and the request with that item's stored payload and mode |
| Reconcile.DrainResendsStoredItems | service_worker.js:238 | with the endpoint configured, the i-th attempt of a pass sends the i-th stored item's payload under its stored mode |
| Reconcile.BackoffSchedule | service_worker.js:231-235 | retries 1 to 4 wait 2000, 4000, 8000 and 16000 ms; retry 5 and later wait 30000 ms |
| Reconcile.BackoffMonotone | service_worker.js:231 | the delay never decreases as the retry count grows |
| Reconcile.Bumped | service_worker.js:256 | a failed item keeps its payload, mode and timestamp, and its counter grows by one |
| Reconcile.SurvivorsAtPositions | service_worker.js:252-264 | each survivor is the bumped item at some position of the queue whose attempt failed |
| Reconcile.SurvivorPositionsIncrease | service_worker.js:226-265 | survivors keep their relative order in the queue |
| Reconcile.SurvivorPositionsExact | service_worker.js:252-264 | a position of the queue survives iff its attempt failed and its bumped counter is below 5 |
| Reconcile.SurvivorsAre | service_worker.js:228-265 | the new queue holds exactly the failed items whose bumped counter is below 5, in queue order, each with payload, mode and timestamp unchanged and its counter one higher |
| Reconcile.DrainNeverGrows | service_worker.js:226-265 | a pass never lengthens the queue |
| Reconcile.DrainKeepsBound | service_worker.js:255-263 | after a pass every stored item has been tried fewer than 5 times |
| Reconcile.LastFailureDrops | service_worker.js:259-263 | an item on its fifth failure is not kept |
| Reconcile.LastPosted | service_worker.js:240-245 | the last successful attempt for a URL in the pass is a success for that URL |
| Reconcile.LastPostedIs | service_worker.js:240-245 | the position found is a success for the URL with no later success for it; none is found only when the pass has no success for the URL |
| Reconcile.IndexAfterLookup | service_worker.js:240-245 | after a pass, a URL with a success maps to the entry of its last success, and every other URL keeps its old lookup |
| Reconcile.AllFailedKeepsIndex | service_worker.js:252-264 | a pass in which every attempt fails leaves the index unchanged |
| Reconcile.IndexAfterGrows | service_worker.js:240-245 | a pass never removes a key from the index |
| Reconcile.MixedPass | service_worker.js:228-270 | a pass over A, B, C answered 503, success and 400 keeps A and C with counter 1 and writes only B to the index |
| Reconcile.AfterFailuresCount | service_worker.js:252-263 | after k failed passes an item survives iff its counter plus k is below 5, and its counter has then grown by k with the rest of the item kept |
| Reconcile.AtMostFiveAttempts | service_worker.js:255-263 | no enqueued item is attempted more than five times by the drain |
| Reconcile.AsWrittenLosesFailedSave | service_worker.js:70-103 | in the code as written, a failed save neither queues the row nor replies |
| Reconcile.SaveEffects | service_worker.js:70-103 | a successful save writes only its URL in the index and leaves the queue alone; a failed one leaves the index alone and appends exactly one 0-count item with the chosen mode |
| Reconcile.SaveModeRoundTrip | service_worker.js:73-86 | a successful save replies `update` iff the URL was already indexed and `append` iff it was not, and the next save of that URL is an `update`; a failed save leaves the next mode as it was |
| Reconcile.SaveKeepsBound | service_worker.js:186-192 | a save keeps every stored item below the retry ceiling |
| RoleScoring.ScoreRoleHeuristic | popup.js:265-283 | the returned score is `HeuristicScore`: the base plus, for every keyword word, 3 if the title contains it, 1.5 for the company and 1 for the description |
| RoleScoring.AddWordPoints | popup.js:276-280 | the loop adds `WordsScore` of the words to its starting score |
| RoleScoring.WordsScoreBounds | popup.js:276-280 | each word adds between 0 and 5.5 points |
| RoleScoring.WordsScoreAppend | popup.js:276-280 | the score of a word list is the sum over its parts, so a repeated word counts each time |
| RoleScoring.ScoreBounds | popup.js:265-283 | the score lies between the base and the base plus 5.5 points per keyword word |
| RoleScoring.BlankKeywordScoresBase | popup.js:266-267 | an empty or blank keyword scores 1 for a current role and 0 otherwise |
| RoleScoring.ScoreIsSumOverWords | popup.js:266-280 | the early return for a blank keyword agrees with the sum over the words of the untrimmed lowered keyword |
| RoleRanking.Annotate | popup.js:231-234 | every role is tagged with its own position and its heuristic score |
| RoleRanking.Insert | popup.js:235 | inserting adds exactly that element |
| RoleRanking.SortByScore | popup.js:235 | the sort is a permutation |
| RoleRanking.SortNonIncreasing | popup.js:235 | the sorted scores never increase |
| RoleRanking.SortStable | popup.js:235 | equal scores keep their input order |
| RoleRanking.RankRolesCorrect | popup.js:231-235 | the ranking is a permutation of the tagged roles, each with its original position and score, ordered by descending score with ties in scraped order |
| PopupRules.OrElse | popup.js:567-574 | a non-empty value is kept; a missing or empty one gives the fallback |
| PopupRules.PayloadFallbacks | popup.js:566-575 | the title and company are the selected role's when non-empty, else the profile's, else empty; missing follow-up, tag and notes become empty; the URL and request time are passed through |
| PopupRules.SaveRequest | popup.js:556-575 | a payload is sent iff both URL and token are set, and it is the built payload |
| PopupRules.ExportCsv | popup.js:791-811 | no CSV is produced exactly when there is no profile |
| PopupRules.CsvRowIsPayload | popup.js:797-808 | the exported row has the columns of the payload a save would send, in the same order |
| PopupRules.CsvLineRoundTrip | popup.js:811 | a line of quote-free fields reads back as exactly those fields |
| PopupRules.CsvLineNewlineFree | popup.js:811 | a line has a line break iff one of its fields has one, so a notes value with a line break splits the data row |
| PopupRules.CsvHeaderLine | popup.js:797-811 | the header line has no line break and reads back as the eight column names |
| PopupRules.ExportCsvLines | popup.js:791-811 | with no quote and no line break in any field, the export is the header line, a line break, and the payload's line; neither line has a line break, and they read back as the column names and the payload's fields |
| PopupRules.UnescapedQuotesCollide | popup.js:811 | embedded quotes are not escaped, so two different rows can export to the same line |
| PopupRules.SelectModel | popup.js:856-896 | the current model is kept if the provider offers it, else the provider's first model; the result is always one of the provider's models; an unknown provider leaves the field empty |
| PopupRules.SelectModelIdempotent | popup.js:891-895 | choosing again for the same provider keeps the choice |
| PopupRules.SaveEnabledIff | popup.js:547-552 | the button is enabled iff a role is selected or the title or company field holds a non-whitespace character |
| Text.TrimEmptyIff | popup.js:549 | a string trims to empty iff it is entirely whitespace |
| Text.Words | popup.js:269 | the split words are non-empty and hold no whitespace |
| Text.WordsSingle | popup.js:269 | a non-empty string without whitespace is one word, itself |
| Text.WordsSplit | popup.js:269 | a whitespace character splits: the words of `a + [c] + b` are those of `a` followed by those of `b` |
| Text.AllSpaceHasNoWords | popup.js:269 | an all-whitespace string has no words |
| Text.SomeWordUnlessAllSpace | popup.js:269 | a string with a non-whitespace character has at least one word |
| Text.ContainsIff | popup.js:277-279 | `includes` holds iff the needle occurs at some position of the field |

## Left out

- Chrome storage, messaging and `sendResponse` are reduced to the worker's fields and return
  values. The asynchronous callbacks and the moment each write reaches storage are not modelled.
- `JSON.stringify` and the fixed `Content-Type` header are not modelled. A `Request` holds
  the URL, the bearer token, the mode and the payload that the body is made from.
- PopupRules.ExportCsv: a field holding a line break or a double quote is written out
  unescaped. The export is then no longer two well-formed lines (`CsvLineNewlineFree`,
  `UnescapedQuotesCollide`); `ExportCsvLines` covers only fields with neither.
- `fetch` and `response.json()` are not modelled. Each attempt's answer is a `Response` argument,
  and a body that is not JSON is an opaque reason string.
- Timers are not modelled. The `setTimeout` waits are returned as numbers. The 60-second
  `setInterval`, `onInstalled` and `activate` triggers are callers of `FlushQueue`.
- Concurrency is not modelled. Each method runs to completion before the next one starts, so
  the model does not capture a save that lands in the middle of a drain pass. In the code, such
  a save's new item is overwritten when the pass rewrites the queue.
- `new Date().toISOString()` is not modelled. Each operation takes one opaque `now` string and
  uses it for every timestamp it writes.
- ServiceWorker.Worker.FlushQueue: its settings are fixed for the whole pass, because a
  settings reload arriving mid-pass is a concurrency effect.
- `handleTestAppsScript` is not modelled. It only relays the status of a connectivity probe.
- `handleConnectClicked` is not modelled. It only reports whether a setting is on.
- `postAirtable` and `postNotion` are stubs that do nothing, so they are not modelled.
- `normalizeDateISO` is not modelled. It parses dates, and it is not used on the write path.
- The AI re-ranking (`reRankWithLLM`) and the demo-mode random scores are not modelled, because
  they call a remote model or `Math.random`. The ranking modelled is the heuristic stage.
- `handleProviderChange`, `saveSettings`, `toggleSwitch`, `clearForm` and the other DOM and
  status-message code are user interface and are not modelled.
- Text.Lower: lowercases ASCII letters only, whereas `toLowerCase` follows Unicode case mapping.
- Reconcile.BackoffDelay: uses unbounded integers. The floating-point `Math.pow` overflows to
  `Infinity` for very large counts, but `Math.min` caps both at 30000.
- content.js, the page scraper that produces profiles and roles, is not part of this model.

## Findings

| source | as written | input that shows it | evidently intended | confidence | as-written member | corrected member |
|---|---|---|---|---|---|---|
| service_worker.js:74-95 | `mode` is declared with `const` inside the `try` block, and the `catch` block reads it, which throws a `ReferenceError` there | any save whose attempt fails, e.g. when the URL or token is unset or the endpoint answers 500 | a failed save is queued under the mode chosen before the attempt, and the caller gets the error with `queued: true` | high, not executed | Reconcile.SaveOutcomeAsWritten, Reconcile.AsWrittenLosesFailedSave | ServiceWorker.Worker.SaveRow, Reconcile.SaveOutcome, Reconcile.SaveEffects |
| service_worker.js:7-43 | `loadSettings` runs only on installation, activation and a sync-storage change; a worker that is stopped and started again keeps the default cache with an empty URL and token, while the one-minute timer keeps draining | a worker restarted with a non-empty queue and no settings change: every save and every drain attempt fails as not configured, and five passes drop every queued item | every start of the worker loads the synced settings before it saves or drains | medium, not executed | ServiceWorker.Worker.Restart, ServiceWorker.RestartedDrainDropsQueue | ServiceWorker.Worker.Wake |
