# Data-story front end: API helpers, story editor, data table, dashboard and story page

This Dafny project models the logic of a React front end that publishes "data
stories" about unemployment figures. Each story is an article with a chart and a
data table. The model covers five parts of the code:

- **API helper layer** (`src/services/api.js`). The error-to-message classifier
  (`handleApiError`) is modelled (`ApiErrors`). So are the bounded retry loop with
  linear backoff (`ApiRetry`) and the five-minute response cache with
  substring eviction (`ApiCache`, a class over a `map`). The multipart builder
  `createFormData` is `ApiFormData`. The two axios interceptors and the listing
  query paths are `ApiClient`, with the stored token held in a `Session` class.
  The clock is an explicit parameter (`now`, `later`). The API call is an
  abstract outcome (`call(i)` is what attempt `i` settles to). The backoff waits
  are recorded in a list instead of being performed.
- **Story editor** (`src/components/admin/StoryEditor.jsx`). The pure rules are in
  `StoryDraft`: parsing the comma-separated labels and values, restyling the
  first dataset for a chart type, the caption map, the six ordered validation
  rules, and the ordered multipart payload. The component state and its handlers
  are the `StoryEditor` class. The chart records they share are in `StoryData`.
- **Data table** (`src/components/DataTable.jsx`). `DataTable` models the
  header/body split, ten rows per page and the CSV text. The page counter is the
  `Pager` class.
- **Admin dashboard** (`src/components/admin/AdminDashboard.jsx`). `AdminDashboard`
  models the status counts, tab filter, delete, status change, transition buttons
  and the badge and story-type lookups. The component state is a class.
- **Story page** (`src/components/StoryDetail.jsx`). `StoryDetail` models the
  chart-component dispatch and options merge, and the show/hide data toggle
  (`StoryView` class).

JavaScript helpers are modelled in `Common` and `Strings`. These are falsy-string
fallbacks (`s || d`), one-character `split`, `join`, `trim` with JavaScript's
white-space set, `includes`, and decimal rendering of numbers. Their round trips
are proved there.

Three behaviours of the code are worth stating, because a reader could expect
otherwise:

- `handleApiError` gives a 429 ("too many requests") its own message, but
  `withRetry` stops on every status in [400, 500), so a 429 is never retried
  (`ApiRetry.RateLimitNotRetried`).
- `handleSubmit` does not validate the draft. Only the save button's `disabled`
  does (`StoryDraft.SaveEnabledOnlyWhenComplete`), so `StoryEditor.HandleSubmit`
  has no validity precondition.
- The wait `delay * (i + 1)` comes after failed attempt `i` has settled, before
  the next attempt starts.

## Model

| member | source | states |
|---|---|---|
| Common.OrElse | src/services/api.js:195 | `s \|\| fallback` on strings is always either the fallback or the given string, differs from the fallback only when the string is present and non-empty, and is empty exactly when both are empty |
| Strings.JoinSplit | src/components/admin/StoryEditor.jsx:141 | joining the pieces of `split(c)` with `c` gives the text back |
| Strings.SplitJoin | src/components/admin/StoryEditor.jsx:141 | splitting a join of separator-free parts on the separator gives the parts back |
| Strings.Split | src/components/admin/StoryEditor.jsx:150 | `split` of a one-character separator yields at least one piece, none containing the separator |
| Strings.Trim | src/components/admin/StoryEditor.jsx:141 | `trim` yields the slice after the leading white space, the rest of the text is white space, and the result neither starts nor ends with white space |
| Strings.TrimEmptyIffBlank | src/components/admin/StoryEditor.jsx:309-311 | the trimmed text is empty exactly when the text is all white space |
| Strings.IncludesIffOccurs | src/services/api.js:296 | `includes(p)` holds exactly when `p` occurs at some position of the text |
| Strings.NatToStringValue | src/services/api.js:238 | the decimal digits of `${n}` read back as `n` |
| Strings.NatToStringInjective | src/services/api.js:238 | different numbers render as different digit strings |
| ApiErrors.ValidationMessagesJoined | src/services/api.js:202-206 | a 422 with field errors gives all messages, field after field, joined by ", ", and each message occurs in the result |
| ApiErrors.FlattenErrorsAppend | src/services/api.js:205 | flattening keeps field order: the messages of earlier fields come first |
| ApiErrors.ValidationWithoutFieldErrors | src/services/api.js:203-208 | a 422 without `errors` gives the server message or 'Data tidak valid'; an empty `errors` object gives the empty message |
| ApiErrors.FixedTextsIgnoreBody | src/services/api.js:196-212 | 401, 403, 404, 429 and 500 give a fixed text whatever the body holds; 500 ignores `message` |
| ApiErrors.ServerMessagePreferred | src/services/api.js:194-195 | 400 and the statuses without a case give the server message when non-empty, else the 400 text or "Error <status>: Terjadi kesalahan" |
| ApiErrors.StatusTextDistinguishes | src/services/api.js:214 | the fallback message of two different statuses differs |
| ApiErrors.NoResponseMessages | src/services/api.js:216-222 | no response but a request gives the network text; otherwise the error's message or the unknown-error text |
| ApiRetry.WithRetry | src/services/api.js:255-270 | the loop's result, number of calls and recorded waits equal the reference run `RetrySpec` |
| ApiRetry.AtMostMaxRetriesCalls | src/services/api.js:256 | with `maxRetries > 0` the call is made at least once and at most `maxRetries` times |
| ApiRetry.NoAttemptsWithoutRetries | src/services/api.js:256 | with `maxRetries <= 0` the call is never made and the result is undefined |
| ApiRetry.ClientErrorNotRetried | src/services/api.js:263-265 | a 4xx failure ends the run after that attempt, with no more calls or waits |
| ApiRetry.RateLimitNotRetried | src/services/api.js:263-265 | a run whose attempt fails with a 429 throws that error after the one call, with no wait and no further attempt |
| ApiRetry.LinearDelays | src/services/api.js:267 | the waits form the list `delay * (i + 1)`, i counting up from the first failed attempt |
| ApiRetry.DelaysAreLinear | src/services/api.js:267 | a run makes one wait fewer than calls, and wait j is `delay * (j + 1)` |
| ApiRetry.FirstSuccessReturned | src/services/api.js:258 | after transient failures, the first success is returned, after exactly that many calls |
| ApiRetry.AllFailuresThrowLast | src/services/api.js:260 | when every attempt fails transiently, the last error is thrown after exactly `maxRetries` calls |
| ApiCache.ResponseCache.WithCache | src/services/api.js:276-290 | the result, whether the call was made, and the new map equal the reference step `CacheStepSpec` |
| ApiCache.ResponseCache.ClearCache | src/services/api.js:293-303 | the loop over the keys leaves exactly the map `Evict` describes |
| ApiCache.HitSkipsCall | src/services/api.js:279-281 | a live entry is returned without calling and without changing the map |
| ApiCache.MissCallsOnce | src/services/api.js:283-289 | a miss calls once; success stores (data, time after the call) under the key only, and failure stores nothing |
| ApiCache.SecondCallWithinTtl | src/services/api.js:276-290 | a second lookup of a key calls again exactly when the stored entry is at least five minutes old by then |
| ApiCache.EvictExactlyMatching | src/services/api.js:294-299 | a non-empty pattern deletes exactly the keys containing it and keeps the others with their entries |
| ApiCache.EmptyPatternMatchesEveryKey | src/services/api.js:300-302 | the falsy-pattern shortcut agrees with the substring rule, since every key contains '' |
| ApiCache.ClearedKeyIsMiss | src/services/api.js:293-303 | after clearing, a key that matched the pattern makes the next lookup call again |
| ApiFormData.CreateFormData | src/services/api.js:226-252 | the `forEach` appends exactly the entries of `FormDataSpec`, key after key |
| ApiFormData.AppendField | src/services/api.js:230-248 | one key's appends are exactly `EntriesFor(key, value)` |
| ApiFormData.AppendFiles | src/services/api.js:237-239 | a file array appends `key[i]` for each element i, in order |
| ApiFormData.IndexedEntries | src/services/api.js:237-239 | element j of the list is named `key[from + j]` and carries that element |
| ApiFormData.FormDataAppend | src/services/api.js:229 | keys are handled in record order: the entries of a concatenated record are concatenated |
| ApiFormData.FileArrayEntries | src/services/api.js:235-239 | a non-empty array starting with a file gives one entry per element, named `key[i]`, all names distinct |
| ApiFormData.IndexedNameInjective | src/services/api.js:238 | `key[i]` and `key[j]` differ when i and j differ |
| ApiFormData.JsonEncodedValues | src/services/api.js:240-245 | other arrays, the empty array included, and objects give one JSON entry |
| ApiFormData.SingleEntryValues | src/services/api.js:232-233 | a file gives one entry under its key; null, undefined and scalars are appended raw |
| ApiClient.Session.AttachToken | src/services/api.js:14-19 | the bearer header is added when a non-empty token is stored; otherwise the request is unchanged |
| ApiClient.Session.OnResponseError | src/services/api.js:27-33 | a 401 clears the token and records the login redirect; every error is still rejected unchanged |
| ApiClient.ListingPathShape | src/services/api.js:46-49 | with no params the path is bare; otherwise it is path + '?' + pairs, which split back on '&' one per param |
| StoryDraft.InitialDraft | src/components/admin/StoryEditor.jsx:11-48 | a new story starts as a line chart with no labels and one empty dataset |
| StoryDraft.HydratedDraft | src/components/admin/StoryEditor.jsx:74-79 | a loaded story replaces the texts and keeps the current chart config, chart data and table config where it has none |
| StoryDraft.ParsedLabelsWellFormed | src/components/admin/StoryEditor.jsx:141 | parsed labels are trimmed, non-empty and comma-free, one at most per piece |
| StoryDraft.LabelsRoundTrip | src/components/admin/StoryEditor.jsx:141 | parsing the shown text `labels.join(', ')` gives back well-formed labels exactly |
| StoryDraft.ValuesKeepEveryToken | src/components/admin/StoryEditor.jsx:150-153 | no token is dropped, and a token that is not a number becomes 0 |
| StoryDraft.ValuesRoundTrip | src/components/admin/StoryEditor.jsx:150-153 | parsing the shown text `data.join(', ')` gives back whole-number values |
| StoryDraft.ParseWhole | src/components/admin/StoryEditor.jsx:151 | `parseFloat` reads the digits of a whole number back as that number |
| StoryDraft.WithLabels | src/components/admin/StoryEditor.jsx:140-148 | the labels become the parsed labels; the datasets are unchanged |
| StoryDraft.WithValues | src/components/admin/StoryEditor.jsx:149-164 | datasets becomes one dataset: the former first one with only its values replaced |
| StoryDraft.WithDatasetLabel | src/components/admin/StoryEditor.jsx:165-176 | datasets becomes one dataset: the former first one with only its legend label replaced |
| StoryDraft.ChartTypeKeepsData | src/components/admin/StoryEditor.jsx:179-212 | a type change keeps labels, values, legend label, fill and the other datasets; pie sets the 8-colour palette with a white border, others the blue border with alpha 0.1 for line and 0.8 otherwise; width 2 |
| StoryDraft.LatestChartTypeWins | src/components/admin/StoryEditor.jsx:179-212 | switching to one type and then another equals switching to the second directly |
| StoryDraft.LinePieLine | src/components/admin/StoryEditor.jsx:179-212 | a line chart switched to pie and back is restored exactly |
| StoryDraft.HydratedCaptions | src/components/admin/StoryEditor.jsx:80-86 | the loaded caption map has exactly the stored images' ids as keys |
| StoryDraft.HydratedCaptionOf | src/components/admin/StoryEditor.jsx:83-85 | each stored image's caption, or '' without one, is under its id |
| StoryDraft.SeedNewCaptions | src/components/admin/StoryEditor.jsx:114-120 | picking n images sets `new_0 .. new_{n-1}` to '' and keeps every other caption |
| StoryDraft.WithoutImageExact | src/components/admin/StoryEditor.jsx:222 | removing an id drops exactly the images with that id |
| StoryDraft.WithoutImageOrder | src/components/admin/StoryEditor.jsx:222 | removal keeps the order of the remaining images |
| StoryDraft.RemoveCaptionOnly | src/components/admin/StoryEditor.jsx:223-227 | removal deletes only that image's caption key |
| StoryDraft.ValidateFirstBroken | src/components/admin/StoryEditor.jsx:308-318 | the validator reports rule k's message exactly when rules before k hold and rule k fails, and nothing exactly when all six hold |
| StoryDraft.LengthMismatchRejected | src/components/admin/StoryEditor.jsx:314-316 | with all else filled, labels and values of different lengths are rejected with the count message |
| StoryDraft.SaveEnabledOnlyWhenComplete | src/components/admin/StoryEditor.jsx:308-318 | the save button is enabled exactly when no save is running and the draft is complete: non-blank title, description and content, at least one label, as many values as labels |
| StoryDraft.NewImageEntries | src/components/admin/StoryEditor.jsx:255-260 | new image i gives `images[i]` with the file, then `image_captions[i]` with `captions['new_i'] \|\| ''` |
| StoryDraft.BuildSubmission | src/components/admin/StoryEditor.jsx:236-275 | the sequential appends and the image loop build exactly `SubmissionSpec` |
| StoryDraft.AppendNewImages | src/components/admin/StoryEditor.jsx:255-260 | the `forEach` over new images appends exactly `NewImageEntries` |
| StoryDraft.SubmissionShape | src/components/admin/StoryEditor.jsx:239-275 | the payload starts with the seven base fields; `existing_images` and `_method=PUT` come last in edit mode only |
| StoryDraft.CreateHasNoOverride | src/components/admin/StoryEditor.jsx:264-275 | a create payload has no `_method` and no `existing_images` entry |
| StoryDraft.ClearedCaptionKeepsStored | src/components/admin/StoryEditor.jsx:268 | a stored image whose caption was cleared is sent with its stored caption |
| StoryEditor.SaveError | src/components/admin/StoryEditor.jsx:285 | the error shown after a failed save is never empty; it is the server's text only when the server answered with a non-empty message, else 'Gagal menyimpan cerita' |
| StoryEditor.SelectionIsolated | src/components/admin/StoryEditor.jsx:104-127 | picking a single file changes only that file, and an empty pick clears it |
| StoryEditor.StoryEditor.constructor | src/components/admin/StoryEditor.jsx:11-58 | the editor starts with the initial draft, no files, no images or captions, no error |
| StoryEditor.StoryEditor.FetchStory | src/components/admin/StoryEditor.jsx:67-94 | a loaded story hydrates the draft, and when it lists images, the images and captions; a failure only sets 'Gagal memuat cerita' |
| StoryEditor.StoryEditor.HandleInputChange | src/components/admin/StoryEditor.jsx:96-102 | the named text field takes the value; nothing else changes |
| StoryEditor.StoryEditor.HandleFileChange | src/components/admin/StoryEditor.jsx:104-127 | files take the selection; for images the captions are seeded with `new_0 ..` set to ''; nothing else changes |
| StoryEditor.SeedCaptions | src/components/admin/StoryEditor.jsx:114-120 | the caption loop over the picked images builds exactly `SeedNewCaptions` |
| StoryEditor.StoryEditor.HandleChartTitleChange | src/components/admin/StoryEditor.jsx:129-137 | only the chart title changes |
| StoryEditor.StoryEditor.HandleTableTitleChange | src/components/admin/StoryEditor.jsx:570-577 | only the table title changes |
| StoryEditor.StoryEditor.HandleChartDataChange | src/components/admin/StoryEditor.jsx:139-177 | the chart data takes the parsed labels, values or legend label; nothing else changes |
| StoryEditor.StoryEditor.HandleChartTypeChange | src/components/admin/StoryEditor.jsx:179-212 | the type is set and the first dataset restyled |
| StoryEditor.StoryEditor.HandleImageCaptionChange | src/components/admin/StoryEditor.jsx:214-219 | one caption is set; the others stay |
| StoryEditor.StoryEditor.RemoveExistingImage | src/components/admin/StoryEditor.jsx:221-228 | the image leaves the list and its caption key the map |
| StoryEditor.StoryEditor.HandleSubmit | src/components/admin/StoryEditor.jsx:230-290 | an update with the edit payload when editing, else a create; success navigates to the dashboard, failure sets the save error |
| StoryEditor.StoryEditor.HandleSubmitForApproval | src/components/admin/StoryEditor.jsx:292-306 | no request for an unsaved story; otherwise the story id is sent and success navigates to the dashboard |
| StoryEditor.CollectCaptions | src/components/admin/StoryEditor.jsx:82-85 | the caption loop builds exactly `HydratedCaptions` |
| StoryEditor.LoadedCaptionsSentBack | src/components/admin/StoryEditor.jsx:80-86 | right after loading, each stored image is sent back with its stored caption |
| DataTable.Layout | src/components/DataTable.jsx:8-13 | no data or empty data shows the no-data message; otherwise the header and the body rows make up the data |
| DataTable.TotalPages | src/components/DataTable.jsx:19 | the page count is the least number of ten-row pages holding the rows |
| DataTable.PageItems | src/components/DataTable.jsx:16-18 | page p shows rows (p-1)*10 up to p*10, clamped to the rows, so at most ten |
| DataTable.PagesPartitionRows | src/components/DataTable.jsx:16-19 | pages 1 .. totalPages read in order give exactly the rows |
| DataTable.RowOnItsPage | src/components/DataTable.jsx:16-19 | row i is shown on page i/10 + 1, at position i mod 10 |
| DataTable.ControlsShownIffMoreThanAPage | src/components/DataTable.jsx:77 | the pager is shown exactly when there are more than ten body rows |
| DataTable.ValidPageNonEmpty | src/components/DataTable.jsx:16-19 | each page 1 .. totalPages shows between one and ten rows |
| DataTable.Pager.constructor | src/components/DataTable.jsx:5 | the page starts at 1, within range |
| DataTable.Pager.NextPage | src/components/DataTable.jsx:21-25 | one page on only before the last page; the page stays in range |
| DataTable.Pager.PrevPage | src/components/DataTable.jsx:27-31 | one page back only after the first page; the page stays in range |
| DataTable.CsvOneLinePerRow | src/components/DataTable.jsx:34-36 | with no line break inside a cell, the CSV text splits back into one line per row, header included |
| DataTable.CsvLineCells | src/components/DataTable.jsx:35 | with no comma inside a cell, a line splits back into the quoted cells |
| DataTable.CsvQuotesNotEscaped | src/components/DataTable.jsx:35 | quotes inside cells are not escaped, so two different tables can give the same text |
| AdminDashboard.WithStatus | src/components/admin/AdminDashboard.jsx:86-88 | the filter keeps exactly the stories with that status |
| AdminDashboard.CountIsOccurrences | src/components/admin/AdminDashboard.jsx:86-88 | the filtered count equals the number of occurrences of the status |
| AdminDashboard.StatsCountStatuses | src/components/admin/AdminDashboard.jsx:86-96 | the total is the list length and each status count is the number of stories with it |
| AdminDashboard.CountsPartitionTotal | src/components/admin/AdminDashboard.jsx:86-95 | with only the three known statuses, the three counts add up to the total |
| AdminDashboard.FilterKeepsOrder | src/components/admin/AdminDashboard.jsx:150-152 | the tab filter keeps list order |
| AdminDashboard.WithoutStory | src/components/admin/AdminDashboard.jsx:104 | delete keeps exactly the stories with another id |
| AdminDashboard.DeleteKeepsOrder | src/components/admin/AdminDashboard.jsx:104 | delete keeps the order of the rest |
| AdminDashboard.DeleteAbsentId | src/components/admin/AdminDashboard.jsx:104 | deleting an id not listed changes nothing |
| AdminDashboard.DeleteLowersCount | src/components/admin/AdminDashboard.jsx:104 | deleting a listed story lowers the count of its status |
| AdminDashboard.SetStatus | src/components/admin/AdminDashboard.jsx:110-112 | the matching stories take the new status; the others are unchanged; the length is kept |
| AdminDashboard.StatusChangeOnlyStatus | src/components/admin/AdminDashboard.jsx:110-112 | a status change alters no field but the status, and only on matching ids |
| AdminDashboard.TransitionsMoveForward | src/components/admin/AdminDashboard.jsx:361-378 | the buttons move a story one stage forward, and a published story has none |
| AdminDashboard.TransitionsEnd | src/components/admin/AdminDashboard.jsx:361-378 | following the buttons ends within two steps, at pending_approval or published |
| AdminDashboard.BadgeFallback | src/components/admin/AdminDashboard.jsx:128 | the draft badge is shown exactly for statuses other than published and pending_approval |
| AdminDashboard.StoryTypeLabelsDistinct | src/components/admin/AdminDashboard.jsx:139-148 | the five known story types show five different labels, and no non-empty type is shown as an empty text |
| AdminDashboard.AdminDashboard.constructor | src/components/admin/AdminDashboard.jsx:11-21 | empty list, initial stats (5.45 and 15420 as fixed figures), loading, tab 'all' |
| AdminDashboard.AdminDashboard.Load | src/components/admin/AdminDashboard.jsx:83-96 | the list is set and the counts computed from it |
| AdminDashboard.AdminDashboard.HandleDelete | src/components/admin/AdminDashboard.jsx:102-107 | a confirmed delete drops the stories with that id, an unconfirmed one changes nothing; stats are untouched |
| AdminDashboard.AdminDashboard.HandleStatusChange | src/components/admin/AdminDashboard.jsx:109-119 | the matching stories take the new status; stats are untouched |
| AdminDashboard.TabCountsGoStale | src/components/admin/AdminDashboard.jsx:86-107 | after loading, each tab's count is its row count; after deleting a draft, the draft count shown is too high |
| StoryDetail.RenderChart | src/components/StoryDetail.jsx:60-91 | nothing without chart data or config; otherwise the renderer for the type and the story's data |
| StoryDetail.StoredOptionsOverride | src/components/StoryDetail.jsx:63-78 | stored top-level options win over the defaults; defaults they leave out stay; no other key appears |
| StoryDetail.TitleShownWithoutStoredPlugins | src/components/StoryDetail.jsx:66-76 | without stored plugins the title plugin shows the configured title, or else the story's |
| StoryDetail.EditorDefaultsDropTitle | src/components/StoryDetail.jsx:66-77 | with the editor's default options, the drawn chart has no title plugin |
| StoryDetail.RenderChartMerged | src/components/StoryDetail.jsx:60-91 | the corrected merge draws the same renderer and data under the same guard |
| StoryDetail.MergedKeepsTitle | src/components/StoryDetail.jsx:66-77 | with the merged plugins, the title plugin shows the configured or story title unless the stored plugins set one |
| StoryDetail.MergedAgreesWithoutPlugins | src/components/StoryDetail.jsx:63-78 | without stored plugins the corrected merge draws exactly what the original does |
| StoryDetail.StoryView.HandleShowData | src/components/StoryDetail.jsx:46-58 | while hidden, fetch and show only on success; while shown, hide without fetching |

## Findings

| source | as written | input that shows it | evidently intended | confidence | as-written member | corrected member |
|---|---|---|---|---|---|---|
| src/components/StoryDetail.jsx:63-77 | the stored `options` are spread over the defaults at top level, so a stored `plugins` object replaces the default `plugins`, and the title plugin with it | any story saved by the editor: its default options hold `plugins: { legend: { position: 'top' } }` (src/components/admin/StoryEditor.jsx:18-28), so `plugins.title` is gone | the configured chart title (or the story title) is displayed, while stored plugin settings such as the legend still apply | medium; not executed | StoryDetail.EditorDefaultsDropTitle | StoryDetail.MergedKeepsTitle |

## Left out

- HTTP transport (axios), `localStorage`, `window.location`, `setTimeout`, `Date.now()`, `alert` and `window.confirm` are outside the model. Their results are parameters: the call outcome, the clock readings, the confirmation flag. The redirect and the navigation are recorded in fields.
- The resource clients other than the two `getAll` listing paths (`getById`, `create`, `update`, `submitForApproval`, `getBySlug`, `getDataTable` and the rest) are one-line request wrappers. The editor, dashboard and story page model each request they send as a value or as a returned flag.
- `JSON.stringify` is not modelled. A JSON payload entry holds the value it would serialise.
- `URLSearchParams` percent-encoding is not modelled. ApiClient.QueryString joins `key=value` pairs as they are.
- `Object.keys` order for integer-like keys is not modelled. Records are sequences in insertion order.
- StoryDraft.ParseNumber: reads an optional sign, decimal digits and an optional fraction. Exponents, 'Infinity', hexadecimal and leading white space are not read, because reals stand in for floating point. Number rendering is modelled for whole numbers only, so StoryDraft.ValuesRoundTrip covers whole numbers.
- StoryDraft.Restyle: works on values. In the source, the shallow copy in `handleChartTypeChange` shares the previous `datasets` array and assigns `datasets[0]` in place. That aliasing, and the resulting change to the previous state object, is not captured.
- StoryData.FirstDataset: a missing `datasets[0]` reads as a dataset with no fields. Where the source would then throw on `.data.length`, in the validator and the value inputs, the model reads an empty list.
- ApiErrors.HandleApiError: models only list-valued field errors. An `errors` object whose values are not arrays would flatten differently.
- AdminDashboard.StoryTypeLabel: treats only the five listed types as known. Lookups of inherited object keys such as 'constructor' are not modelled.
- The story page's own `fetchStory` (error 'Cerita tidak ditemukan'), the editor's `previewChart` toggle, the `loading` screens and the data-table `config` prop are rendering only. The table ignores its `config` prop.
- DataTable.Pager: the page count is fixed when the pager is created. A change of `data` while a page is kept is not modelled.
- The mock stories loaded after a timer on the dashboard are not modelled. AdminDashboard.AdminDashboard.Load takes any list.
- ApiCache.ResponseCache.WithCache: a lookup, the call and the store are one atomic step. In the source, `await apiCall()` suspends between reading and writing the cache. Two overlapping misses of one key both call, and a `clearCache` issued while a matching call is in flight is undone when that call settles and stores its entry. Interleavings are not modelled.
- DataTable.Row: cells are texts. In the source a cell is any value written through `${cell}`, so numbers appear as their decimal text and null or undefined as 'null' or 'undefined'. That rendering is not modelled.
