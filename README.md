# Vulnerability sync pipeline — a Dafny model

This project models the scheduled sync Lambda of the vulnerability dashboard
(`terraform/lambda/sync/index.mjs`). The Lambda:

- downloads the CISA Known Exploited Vulnerabilities (KEV) catalog into a lookup map;
- splits the last two years into 120-day date windows;
- pages through the NVD 2.0 CVE API for each window, with retries and rate-limit pauses;
- turns every CVE into a flat record enriched with the KEV data;
- writes the records to DynamoDB in slices of 25, retrying unprocessed items with a linear back-off;
- returns a summary: records processed, records written, and KEV matches.

Each function of the file has a Dafny counterpart:

| Source function | Dafny counterpart | File |
|---|---|---|
| `fetchWithRetry` | `FetchRetry.FetchWithRetry` | `fetch_retry.dfy` |
| `fetchKevData` | `KevLookup.FetchKevData` | `kev_lookup.dfy` |
| `extractCvss`, `extractCwe`, `extractVendorProduct`, `buildCveItem` | pure functions | `record_builder.dfy` |
| `String.prototype.split`, `replace(/_/g, " ")` (string helpers the CPE parsing relies on) | functions | `cpe_strings.dfy` |
| `fetchNvdWindow` | `NvdWindow.FetchNvdWindow` | `nvd_window.dfy` |
| `getDateWindows` | `DateWindows.GetDateWindows` | `date_windows.dfy` |
| `batchWriteItems` | `BatchWriter.BatchWriteItems` | `batch_writer.dfy` |
| `handler` | `SyncHandler.Handler` | `sync_handler.dfy` |

The JSON shapes and the stored record are in `nvd_records.dfy`.

Each loop of the source that updates state is a `method` with a `while` or `for` loop, proved against a specification:

- the retry, page, send, slice and window loops are proved equal to the recursive functions `RetryFrom`, `WindowFrom`, `SendFrom`, `WriteFrom` and `WindowsFrom`;
- the loop that fills the KEV map and the loop over a page's entries are proved equal to `KevMapOf` and `PageItems`;
- the window planner's loop is proved to produce the windows described by the predicate `Planned`, which determines them.

The read-only scans are recursive functions: the nested configuration, node and match loops of `extractVendorProduct` (`ScanConfigs`, `ScanNodes`, `ScanMatches`), and the `find`, `map`/`filter` and `filter(...).length` calls (`FirstEnglish`, `NonEmptyUrls`, `CountKev`).

The promised properties are lemmas about those functions and that predicate.

The outside world is passed in as functions:

- The KEV download is a function from attempt number to response.
- The NVD API is a function from (window, page request, attempt) to response.
- DynamoDB's `BatchWriteCommand` is a function from (window, slice, call number, request items) to either the unprocessed items or a thrown error.
- Every `sleep` is recorded: each method returns the delays it slept, in order, in milliseconds.

Other modelling conventions:

- CVSS scores are integer tenths, so 9.8 is 98.
- Dates are day numbers.
- A JSON string that may be missing is an `Option<string>`.

In four places the code does something other than what the pipeline is meant to do. The model follows the code:

- Vendor and product are meant to be normalised to lower case with underscores turned into spaces. The code only turns underscores into spaces (`RecordBuilder.ExtractVendorProduct`).
- Items still unprocessed after five send calls are meant to be dropped from the written count. The code counts them as written. The code adds the slice's full length unless the send threw (`BatchWriter.AllWrittenIffNoThrow`, `BatchWriter.RejectedItemsStillCounted`). For example, a 25-item slice with 2 items rejected on every call adds 25, not 23.
- The windows are meant to cover the whole span, end date included. They do not always do so. When a full window ends on the day before the end date, the loop stops and the end date is never fetched (`DateWindows.EndDateCovered`, `DateWindows.LastDayLeftOut`).
- `fetchWithRetry` can return `undefined` without throwing. This happens exactly when no attempt succeeded and the last one was rate-limited. Both callers then read a property of `undefined` and throw, so the model treats that outcome as a failure (`FetchRetry.FailureDecidedByLastAttempt`, `KevLookup.FetchKevData`, `NvdWindow.WindowFrom`).

## Model

| member | source | states |
|---|---|---|
| FetchRetry.RetryFrom | terraform/lambda/sync/index.mjs:15-32 | at most `retries` attempts are made; one delay is slept per attempt that is not the last one, plus one more when the outcome is `undefined` |
| FetchRetry.RetryStep | terraform/lambda/sync/index.mjs:19-29 | a rate-limited attempt, or a failed attempt that is not the last, sleeps 10 s or 5 s respectively and then goes on to the next attempt |
| FetchRetry.RetryStop | terraform/lambda/sync/index.mjs:24-27 | a successful attempt ends the call with its body at that attempt, without sleeping; a plain failure on the last attempt ends it with a throw |
| FetchRetry.Attempt | terraform/lambda/sync/index.mjs:17-30 | one pass of the retry loop either ends the call with its outcome or sleeps and continues, as RetryFrom prescribes |
| FetchRetry.FetchWithRetry | terraform/lambda/sync/index.mjs:15-32 | the outcome, the delays slept and the number of attempts are exactly those of RetryFrom |
| FetchRetry.FetchedIsFirstSuccess | terraform/lambda/sync/index.mjs:16-25 | when some attempt succeeds, the call returns the body of the first successful attempt after exactly that many attempts |
| FetchRetry.FetchedOnlyAfterSuccess | terraform/lambda/sync/index.mjs:16-31 | without a successful attempt the call never returns a body |
| FetchRetry.FailureDecidedByLastAttempt | terraform/lambda/sync/index.mjs:19-32 | without a success, all attempts are made; the result is `undefined` if the last attempt was rate-limited and a throw otherwise |
| FetchRetry.DelayPerAttempt | terraform/lambda/sync/index.mjs:19-29 | the k-th delay follows a failed attempt k; it is 10 s when that attempt was rate-limited and 5 s otherwise |
| KevLookup.FetchKevData | terraform/lambda/sync/index.mjs:34-49 | returns a map exactly when the catalog download succeeds, and that map is KevMapOf of the catalog's vulnerabilities; the delays are the download's delays |
| KevLookup.KevEntryOf | terraform/lambda/sync/index.mjs:41-45 | definition: a missing date becomes null and a missing ransomware flag "Unknown" (properties in KevMapValues) |
| KevLookup.KevMapOf | terraform/lambda/sync/index.mjs:39-46 | definition: the entries are set in catalog order, later ones overwriting earlier ones (properties in KevMapKeys, KevMapLastWins, KevMapValues) |
| KevLookup.KevMapKeys | terraform/lambda/sync/index.mjs:39-46 | the map's keys are exactly the catalog's CVE ids |
| KevLookup.KevMapLastWins | terraform/lambda/sync/index.mjs:40-45 | for a repeated id, the last catalog entry is the one kept |
| KevLookup.KevMapValues | terraform/lambda/sync/index.mjs:41-45 | no value in the map is an empty string: the dates are null or non-empty, and the ransomware flag is never empty |
| RecordBuilder.V2Severity | terraform/lambda/sync/index.mjs:57-64 | the CVSS v2 band: CRITICAL ≥ 9.0, HIGH ≥ 7.0, MEDIUM ≥ 4.0, LOW > 0, NONE otherwise; each band holds in both directions |
| RecordBuilder.ExtractCvss | terraform/lambda/sync/index.mjs:51-67 | uses the first present version among v3.1, v3.0 and v2; v2 severity is derived from the score; with no data the result is 0/"NONE"; the severity is never empty |
| RecordBuilder.CvssIgnoresOlderVersions | terraform/lambda/sync/index.mjs:51-56 | once v3.1 (or v3.0) data is present, changing the older versions' metrics does not change the result |
| RecordBuilder.ExtractCwe | terraform/lambda/sync/index.mjs:69-74 | the "no info" pair is returned exactly when there is no weakness or no description; otherwise the id is the first description's value (or the no-info id) and the name is empty |
| RecordBuilder.ScanMatches | terraform/lambda/sync/index.mjs:81-91 | the scan of one node finds nothing exactly when no match qualifies |
| RecordBuilder.ScanNodes | terraform/lambda/sync/index.mjs:80-92 | definition: the nodes in order, stopping at the first node with a qualifying match (properties in ScanNodesFlat, ScanConfigsFlat) |
| RecordBuilder.ScanConfigs | terraform/lambda/sync/index.mjs:79-93 | definition: the configurations in order, stopping at the first with a qualifying match (properties in ScanConfigsFlat, ScanConfigsFields) |
| RecordBuilder.ScanConfigsFlat | terraform/lambda/sync/index.mjs:78-93 | the nested configuration → node → match loops with early return are a first-match scan of the flattened match list |
| RecordBuilder.ScanConfigsFields | terraform/lambda/sync/index.mjs:82-89 | every vendor/product the scan returns is non-empty and contains no underscore and no colon |
| RecordBuilder.ExtractVendorProduct | terraform/lambda/sync/index.mjs:76-96 | vendor and product are never empty and contain no underscore and no colon |
| RecordBuilder.VendorProductFromFirstQualifying | terraform/lambda/sync/index.mjs:78-93 | the result comes from the first match whose criteria has at least 5 colon-separated fields, whatever follows it |
| RecordBuilder.VendorProductUnknown | terraform/lambda/sync/index.mjs:78-95 | with no qualifying match, both fields are "unknown" |
| RecordBuilder.FromCriteriaOfFields | terraform/lambda/sync/index.mjs:83-88 | for a CPE string built from colon-free fields, vendor is field 3 and product is field 4, each with underscores turned into spaces |
| RecordBuilder.UnderscoresBecomeSpaces | terraform/lambda/sync/index.mjs:86-87 | a CPE whose fields 3 and 4 are "acme_corp" and "widget_pro" gives vendor "acme corp" and product "widget pro" |
| RecordBuilder.CpeFieldClean | terraform/lambda/sync/index.mjs:86-87 | a colon-free field becomes non-empty and contains no underscore and no colon |
| RecordBuilder.FirstEnglish | terraform/lambda/sync/index.mjs:105 | finds the first description whose lang is "en", or shows that none has it |
| RecordBuilder.EnglishDescription | terraform/lambda/sync/index.mjs:104-105 | definition: the value of the description FirstEnglish finds, or "" when there is none or it has no value |
| RecordBuilder.NonEmptyUrls | terraform/lambda/sync/index.mjs:106 | every kept URL is non-empty, every present URL is kept, and the list is no longer than the references |
| RecordBuilder.NonEmptyUrlsFromReferences | terraform/lambda/sync/index.mjs:106 | every kept URL is the `url` of some reference that has a non-empty one: the filter invents nothing |
| RecordBuilder.NonEmptyUrlsAppend | terraform/lambda/sync/index.mjs:106 | filtering keeps order: it distributes over concatenation |
| RecordBuilder.Prefix | terraform/lambda/sync/index.mjs:120-123 | `substring(0, n)` and `slice(0, n)` give the prefix of exactly n elements, or the whole input when it is shorter |
| RecordBuilder.BuildCveItem | terraform/lambda/sync/index.mjs:98-125 | the record carries the CVE id and the extractors' vendor/product, CWE and CVSS; it is a KEV record exactly when the id is in the map, with the KEV fields or the N/A/null/Unknown sentinels; the description is the first 2000 characters of the English one (all of it when shorter); the references are the first 10 non-empty URLs (all of them when fewer) |
| CpeStrings.Split | terraform/lambda/sync/index.mjs:83 | `split` gives at least one piece; no piece contains the separator; joining the pieces gives the input back |
| CpeStrings.SplitLength | terraform/lambda/sync/index.mjs:83-84 | the number of pieces is one more than the number of separators |
| CpeStrings.SplitOfJoin | terraform/lambda/sync/index.mjs:83 | splitting a join of separator-free pieces gives the pieces back |
| CpeStrings.ReplaceUnderscores | terraform/lambda/sync/index.mjs:86-87 | the length is kept; every underscore becomes a space and every other character is unchanged |
| DateWindows.GetDateWindows | terraform/lambda/sync/index.mjs:191-210 | an empty span gives no windows; otherwise the first window starts at the start date; each ends `windowDays` later or at the end date; the next starts the day after; every window starts before the end date |
| DateWindows.WindowsDisjoint | terraform/lambda/sync/index.mjs:196-208 | the windows are in order, do not overlap, and end no later than the end date |
| DateWindows.WindowContaining | terraform/lambda/sync/index.mjs:196-208 | every day from the start date up to the day before the end date lies in some window |
| DateWindows.EarlierWindowsEndSooner | terraform/lambda/sync/index.mjs:196-208 | every window but the last ends more than one day before the end date |
| DateWindows.EndDateCovered | terraform/lambda/sync/index.mjs:196-208 | the end date lies in a window exactly when the last window ends on it |
| DateWindows.LastDayLeftOut | terraform/lambda/sync/index.mjs:191-210 | with the end date 120 days after the start, the plan is the single window of days 0 to 119, so the end date is not fetched |
| DateWindows.LeapYearPlan | terraform/lambda/sync/index.mjs:191-210 | the 366 days of a leap year give four windows, the last ending on the end date |
| NvdWindow.PageItems | terraform/lambda/sync/index.mjs:174-178 | a page gives at most one record per entry |
| NvdWindow.PageItemsSingle | terraform/lambda/sync/index.mjs:174-178 | one entry yields the record built from its `cve`, or nothing when it has none; with PageItemsAppend this fixes every page's records |
| NvdWindow.PageItemsAppend | terraform/lambda/sync/index.mjs:174-178 | records keep page order: building distributes over concatenation |
| NvdWindow.PageItemsBuilt | terraform/lambda/sync/index.mjs:174-178 | every record of a page is one that `buildCveItem` makes of some CVE |
| NvdWindow.WindowFrom | terraform/lambda/sync/index.mjs:168-186 | no more requests are made than the bound allows, and a window that yields records made at least one request |
| NvdWindow.WindowItemsBuilt | terraform/lambda/sync/index.mjs:168-188 | every record a window gathers is one that `buildCveItem` makes of some CVE |
| NvdWindow.Step | terraform/lambda/sync/index.mjs:170-186 | definition of one do-while pass: a failed fetch ends the window as failed; a fetched page adds its records, and the window either ends or sleeps the page delay and continues |
| NvdWindow.AppendPageItems | terraform/lambda/sync/index.mjs:174-178 | the records of one page are appended, in order, after those gathered so far |
| NvdWindow.WindowStep | terraform/lambda/sync/index.mjs:170-186 | after a fetched page, the window either ends with all records gathered or sleeps the page delay and continues at the advanced start index |
| NvdWindow.TakePage | terraform/lambda/sync/index.mjs:171-186 | the loop body after a fetched page follows WindowStep |
| NvdWindow.PageRequest | terraform/lambda/sync/index.mjs:169-186 | one pass of the do-while either ends the window (failed fetch or last page) or continues, as WindowFrom prescribes |
| NvdWindow.FetchNvdWindow | terraform/lambda/sync/index.mjs:159-189 | the records, the delays and the number of page requests are exactly those of WindowFrom |
| NvdWindow.FirstAttemptPages | terraform/lambda/sync/index.mjs:15-25 | a page request whose first attempt succeeds returns that body without sleeping |
| NvdWindow.OnlyPageDelays | terraform/lambda/sync/index.mjs:168-186 | when every first attempt succeeds the window cannot fail; every delay is the page delay (0.7 s with an API key, 6.5 s without), one between each two requests |
| NvdWindow.RetryDelaysOnly | terraform/lambda/sync/index.mjs:19-29 | every wait inside one page request is a retry wait of 10 s or 5 s |
| NvdWindow.WindowWaitKinds | terraform/lambda/sync/index.mjs:168-186 | when page requests sleep only retry waits, a window sleeps nothing but those and the page delay |
| NvdWindow.PageDelayCount | terraform/lambda/sync/index.mjs:183-186 | when page requests sleep only retry waits, the page delay is slept once per request but the last (once per request when the bound cut the window off); a window that is not cut off made a request |
| NvdWindow.PageDelayBetweenRequests | terraform/lambda/sync/index.mjs:168-186 | whatever retries happen, every wait of a window is the page delay or a retry wait, and the page delay is slept once between each two page requests and nowhere else |
| BatchWriter.Batches | terraform/lambda/sync/index.mjs:131-132 | definition: `items.slice(i, i + 25)` for i = 0, 25, 50, … (properties in BatchesShape, BatchAt) |
| BatchWriter.BatchesShape | terraform/lambda/sync/index.mjs:128-132 | the slices concatenate back to the items; there are ceil(n / 25) of them; each holds 1 to 25 items and all but the last exactly 25 |
| BatchWriter.BatchAt | terraform/lambda/sync/index.mjs:131-132 | slice b is `items.slice(25 * b, 25 * b + 25)` |
| BatchWriter.SliceExists | terraform/lambda/sync/index.mjs:131 | the loop reaches slice b exactly when item 25 * b exists |
| BatchWriter.FiftyThreeItems | terraform/lambda/sync/index.mjs:128-132 | 53 items make slices of 25, 25 and 3 |
| BatchWriter.SendFrom | terraform/lambda/sync/index.mjs:139-150 | definition of the inner while loop: send the unprocessed items; a throw ends the slice; anything left is resent after 1000 × retries ms, at most 5 calls in all (properties in SendCallsBounded, BackoffDelays, AlwaysRejected) |
| BatchWriter.SendCallsBounded | terraform/lambda/sync/index.mjs:139-150 | a slice makes at most 5 send calls and sleeps at most once per call; a throw needs at least one call |
| BatchWriter.BackoffDelays | terraform/lambda/sync/index.mjs:146-149 | the t-th wait of a slice is 1000 × (number of retries so far) ms, rising by one second each time |
| BatchWriter.AlwaysRejected | terraform/lambda/sync/index.mjs:141-150 | a slice whose every call rejects items makes exactly 5 calls and 5 waits, leaves those items unprocessed, and does not throw |
| BatchWriter.SendStep | terraform/lambda/sync/index.mjs:141-149 | an answered send goes on with only the unprocessed items, after a wait when any are left |
| BatchWriter.SendOnce | terraform/lambda/sync/index.mjs:142-149 | one pass of the inner loop either ends the slice with a throw or continues as SendFrom prescribes |
| BatchWriter.WriteBatch | terraform/lambda/sync/index.mjs:138-150 | whether the slice threw, and its waits, are exactly those of SendFrom |
| BatchWriter.WriteFrom | terraform/lambda/sync/index.mjs:131-156 | the written count never exceeds the number of items in the remaining slices |
| BatchWriter.SizeOfFlatten | terraform/lambda/sync/index.mjs:131-132 | the remaining slices hold as many items as their concatenation |
| BatchWriter.WriteStep | terraform/lambda/sync/index.mjs:131-155 | each slice adds its full length to the count unless it threw, and its waits come before those of the later slices |
| BatchWriter.AllWrittenIffNoThrow | terraform/lambda/sync/index.mjs:137-155 | the count equals the number of items exactly when no slice threw |
| BatchWriter.ThrownBatchSkipped | terraform/lambda/sync/index.mjs:152-154 | a slice that throws adds nothing, and the loop goes on with the next slice |
| BatchWriter.RejectedItemsStillCounted | terraform/lambda/sync/index.mjs:141-151 | a 25-item slice with items rejected on every call still adds 25 to the count |
| BatchWriter.WriteSlice | terraform/lambda/sync/index.mjs:132-154 | one pass of the outer loop adds 0 or the slice's length, as the slice's outcome decides, and returns the slice's waits |
| BatchWriter.BatchWriteItems | terraform/lambda/sync/index.mjs:127-157 | the count and the waits are exactly those of WriteFrom over the slices; the count is at most the number of items |
| SyncHandler.WindowsFrom | terraform/lambda/sync/index.mjs:233-242 | definition of the window loop: a window whose fetch fails or is cut off ends the run; otherwise its records are counted and, when there are any, written, and the loop goes on (properties in TotalsBounded, CompletedTotals, CompletedOnlyIfEveryWindowFetched, FailedWindowFailsRun) |
| SyncHandler.Sync | terraform/lambda/sync/index.mjs:216-256 | definition of the handler once the windows are planned: load the KEV map (a failed load fails the run), then run the window loop from zero totals (properties in SyncTotals, ThreeRecordsOneKev, NoWindowsZeroTotals and the window-loop lemmas) |
| SyncHandler.StatusCode | terraform/lambda/sync/index.mjs:252-255 | a completed run answers 200 and a failed run 500, in both directions |
| SyncHandler.CountKev | terraform/lambda/sync/index.mjs:236 | the number of KEV records is at most the number of records, and 0 exactly when none is marked "TRUE" |
| SyncHandler.CountKevSingle | terraform/lambda/sync/index.mjs:236 | one record counts 1 exactly when it is marked "TRUE" |
| SyncHandler.CountKevAppend | terraform/lambda/sync/index.mjs:236 | counting distributes over concatenation; with CountKevSingle this fixes the count of every list |
| SyncHandler.CountIn | terraform/lambda/sync/index.mjs:233-236 | the number of records whose CVE id is in a given set, at most the number of records; the reference count for `kevMatches` |
| SyncHandler.CountKevIsCatalogMatches | terraform/lambda/sync/index.mjs:233-236 | when a record is marked "TRUE" exactly when its id is in a set, the KEV count is the number of records whose id is in that set |
| SyncHandler.WriterBounded | terraform/lambda/sync/index.mjs:238-241 | writing a window's records never reports more than were given |
| SyncHandler.TotalsBounded | terraform/lambda/sync/index.mjs:229-242 | a completed run never reports more written, or more KEV matches, than records processed |
| SyncHandler.CompletedOnlyIfEveryWindowFetched | terraform/lambda/sync/index.mjs:233-242 | a run completes only when every window's records were fetched |
| SyncHandler.FailedWindowFailsRun | terraform/lambda/sync/index.mjs:233-255 | the first window whose fetch fails makes the whole run fail, whatever later windows hold |
| SyncHandler.NoWindowsZeroTotals | terraform/lambda/sync/index.mjs:226-252 | with no windows and a loaded KEV map, the run completes with zero totals |
| SyncHandler.FetchedFrom | terraform/lambda/sync/index.mjs:233-235 | definition: the records of the windows in order, up to the first window whose fetch yields none (used by CompletedTotals and SyncTotals) |
| SyncHandler.WrittenFrom | terraform/lambda/sync/index.mjs:238-241 | definition: the sum of the counts each window's write reports (used by CompletedTotals and SyncTotals) |
| SyncHandler.CompletedTotals | terraform/lambda/sync/index.mjs:229-242 | the totals of a completed window loop are sums over the windows: `totalProcessed` adds up the records, `totalWritten` the counts the writes report, and `kevMatches` the KEV-marked records |
| SyncHandler.FetchedFromBuilt | terraform/lambda/sync/index.mjs:233-235 | when each window's records are made by the builder, so are all the records of the run |
| SyncHandler.KevMarkedIffInCatalog | terraform/lambda/sync/index.mjs:98-116 | a record built with the map of a catalog is marked "TRUE" exactly when its id is one of the catalog's `cveID`s |
| SyncHandler.SyncTotals | terraform/lambda/sync/index.mjs:216-251 | a completed handler run reports as processed all the records fetched, as written the sum the writes report, and as KEV matches the fetched records whose id is in the KEV catalog |
| SyncHandler.PageItemsThree | terraform/lambda/sync/index.mjs:174-178 | a page of three entries that all carry a `cve` yields their three records, in order |
| SyncHandler.OnePageWindow | terraform/lambda/sync/index.mjs:168-188 | a window whose first page, answered at the first attempt, holds all its results is fetched in one request with no wait |
| SyncHandler.OneSliceAccepted | terraform/lambda/sync/index.mjs:127-157 | 1 to 25 records accepted in full at the first send are written in one call with no wait, and all are counted |
| SyncHandler.CountKevThree | terraform/lambda/sync/index.mjs:236 | three records count one each for those marked "TRUE" |
| SyncHandler.KevMark | terraform/lambda/sync/index.mjs:98-116 | a record built with a catalog's map is marked "TRUE" exactly when its CVE's id is one of the catalog's `cveID`s |
| SyncHandler.OneKevOfThree | terraform/lambda/sync/index.mjs:98-116 | three CVEs of which only the first is in the catalog give exactly one KEV match |
| SyncHandler.OneWindowRun | terraform/lambda/sync/index.mjs:233-242 | a single window whose fetch yields records completes the run with that window tallied, after its fetch and write waits |
| SyncHandler.OnePageThreeRecords | terraform/lambda/sync/index.mjs:229-242 | one window with one page of three CVEs, all accepted at once, completes with 3 processed and 3 written, without sleeping |
| SyncHandler.ThreeRecordsOneKev | terraform/lambda/sync/index.mjs:216-251 | end to end: one window, one page of three CVEs of which one is in the KEV catalog, everything answered at once, gives Completed with 3 processed, 3 written and 1 KEV match, and no wait |
| SyncHandler.WriteWindow | terraform/lambda/sync/index.mjs:238-241 | writing happens only for a non-empty window, with batchWriteItems' count and waits |
| SyncHandler.WindowTurn | terraform/lambda/sync/index.mjs:234-241 | one pass of the window loop either ends the run (failed or cut-off fetch) or tallies the window and continues, as WindowsFrom prescribes |
| SyncHandler.ProcessWindows | terraform/lambda/sync/index.mjs:229-242 | the result and the waits are exactly those of WindowsFrom from zero totals |
| SyncHandler.Handler | terraform/lambda/sync/index.mjs:212-257 | the windows are planned with 119-day windows; a failed KEV download fails the run; the result and the waits are exactly those of Sync; a completed summary never has more written or more KEV matches than records processed |

## Left out

- I/O is not modelled; the outside world appears only as function parameters. This covers URL and header construction, the real `fetch`, the DynamoDB client, console logging and real sleeping. The DynamoDB table name is fixed by deployment and plays no part.
- Calendar arithmetic is not modelled: JavaScript `Date`, time zones, ISO formatting, and "today minus two years". Days are integers, and the handler takes the first and last day as parameters.
- `durationSeconds` is left out: it needs a clock.
- CVSS scores are kept as integer tenths rather than floating point.
- NvdWindow.FetchNvdWindow: takes a bound `maxRequests` on page requests and returns Unfinished when the loop wants more. The source can loop forever while the answers stay empty below `totalResults`, since it requests the same `startIndex` again.
- SyncHandler.Handler: a window cut off by that bound ends the run as SyncUnfinished. That outcome has no counterpart in the source.
- SyncHandler.Handler: returns the planned windows as an extra out-parameter, so that its contract can speak of them.
- DateWindows.GetDateWindows: requires `windowDays >= 0`. With a negative window size the source never terminates, and the handler always passes 119.
- RecordBuilder.ExtractVendorProduct: the unused second parameter `cpe` is left out.
- RecordBuilder.Prefix: counts characters, whereas `substring` counts UTF-16 code units.
- The NVD responses are indexed by window, page request and attempt. The DynamoDB answers are indexed by window, slice, call number and request items. A real service could answer differently to identical requests; the model does not relate answers across indexes.
- Store idempotence is not modelled: that writing the same record twice leaves the same table. The table is not part of the model.
- The query API Lambda and the frontend are not part of this model.
