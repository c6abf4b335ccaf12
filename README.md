# Backend overview page: time-series derivation and search helpers

A Dafny model of the logic in Sentry's Laravel backend overview page
(`static/app/views/insights/pages/backend/laravelOverviewPage.tsx`). The page
fetches multi-series "events-stats" responses and reshapes them into chart
series for three widgets. It also derives the search bar's text from the
query and builds the location a new search navigates to.

- **Requests** (`RequestsWidget`). Status-code series are grouped into a
  status class by key prefix ("2", "5"). The first matching series supplies
  the timestamps. Each value is the sum over all matching series at that
  index. The widget shows `[2xx, 5xx]` with absent classes dropped.
- **Duration** (`DurationWidget`). The `avg(span.duration)` and
  `p95(span.duration)` series are passed through point by point, with their
  `meta` copied unchanged.
- **Jobs** (`JobsWidget`). One loop over the ok-rate series
  `trace_status_rate(ok)` appends a "Processed" point and a "Failed" point
  per bucket. Each is the rate (or the failed rate) times the bucket's volume,
  where volume is the `spm()` count times the bucket's minutes.
- **Search** (`SearchQuery`). `getFreeTextFromQuery` picks the first
  `transaction` filter value, else the space-joined free text, else `""`.
  `handleSearch` copies the location query, clears `cursor`, sets `query` to
  the trimmed text (absent when empty) and sets `isDefaultQuery` to false.

A response is a sequence of `(key, series)` pairs in `Object.keys` order.
A point is `(time, values)`, and a value `None` is a `{count: null}`.
Request counts are `int`. Rates, spans-per-minute and durations are `real`,
so arithmetic is exact. `new Date(time).toISOString()` is the parameter
`iso: int -> string`. The search tokenizer's output is the value
`SearchConditions(transactionValues, freeText)`.

Two JavaScript details shape the model:

- Status-class sum (line 447). A `null` count adds 0, because `acc + null`
  is `acc`. A missing point or first value would make the sum `NaN`. The
  `AlignedResponse` precondition excludes that case: every entry whose key
  matches must have a point with a first value at every index of the first
  matching entry's series.
- Failed rate (line 587). The code tests the rate for truthiness, so a rate
  of exactly 0 also gives a failed rate of 0. `JobsWidget.SplitsVolume` shows
  that Processed plus Failed equals the volume exactly when the rate is
  truthy or the volume is 0.

## Model

| member | source | states |
|---|---|---|
| `Wrappers.Present` | static/app/views/insights/pages/backend/laravelOverviewPage.tsx:465-467 | every kept entry was present and every present entry is kept; no longer than the input; empty iff all are absent |
| `Wrappers.PresentAppend` | static/app/views/insights/pages/backend/laravelOverviewPage.tsx:465-467 | filtering distributes over concatenation, so order and multiplicity are kept |
| `Wrappers.PresentSingle` | static/app/views/insights/pages/backend/laravelOverviewPage.tsx:465-467 | a present entry is kept, an absent one dropped |
| `Wrappers.PresentPair` | static/app/views/insights/pages/backend/laravelOverviewPage.tsx:524-527 | filtering a pair gives the present ones, the first before the second |
| `EventsStats.FirstCount` | static/app/views/insights/pages/backend/laravelOverviewPage.tsx:511-512 | `value?.count` is present iff the point has a first value whose count is not null, and is that count |
| `EventsStats.Lookup` | static/app/views/insights/pages/backend/laravelOverviewPage.tsx:505 | `data[key]` is absent iff no entry has the key; otherwise it is the series of an entry with that key |
| `EventsStats.LookupFirst` | static/app/views/insights/pages/backend/laravelOverviewPage.tsx:571-572 | the lookup returns the series of the first entry with the key |
| `EventsStats.LookupDistinct` | static/app/views/insights/pages/backend/laravelOverviewPage.tsx:505 | in a response with distinct keys, as every JavaScript object has, looking up an entry's key gives that entry's series |
| `RequestsWidget.Matching` | static/app/views/insights/pages/backend/laravelOverviewPage.tsx:432-436 | the selected series are empty iff no key starts with the prefix; the first selected one belongs to the first matching key |
| `RequestsWidget.MatchingAppend` | static/app/views/insights/pages/backend/laravelOverviewPage.tsx:432-434 | selection distributes over concatenation of responses, so it keeps key order |
| `RequestsWidget.MatchingSingle` | static/app/views/insights/pages/backend/laravelOverviewPage.tsx:432-434 | a one-entry response yields its series exactly when its key starts with the prefix |
| `RequestsWidget.MatchingFrom` | static/app/views/insights/pages/backend/laravelOverviewPage.tsx:432-434 | every selected series is the series of an entry whose key starts with the prefix |
| `RequestsWidget.SumAtIsPrefixTotal` | static/app/views/insights/pages/backend/laravelOverviewPage.tsx:446-449 | the left-fold sum over the matching series equals the total over the whole response where non-matching keys contribute 0 |
| `RequestsWidget.StatusClassSeries` | static/app/views/insights/pages/backend/laravelOverviewPage.tsx:426-462 | a series exists iff data is present and some key matches; it has one point per point of the first matching series, named by that series' timestamps; each value is the prefix total at that index; name `prefix + "xx"`, meta `{fields: {name: integer}, units: {}}`, the given color |
| `RequestsWidget.RequestsTimeSeries` | static/app/views/insights/pages/backend/laravelOverviewPage.tsx:464-468 | the list has one entry per class present (0 to 2); 2xx comes first, then 5xx, each equal to that class's series |
| `RequestsWidget.SumsMatchingKeys` | static/app/views/insights/pages/backend/laravelOverviewPage.tsx:441-450 | keys 200 (count 3) and 201 (count 2) give 5 in the 2xx class; key 500 does not contribute |
| `DurationWidget.FieldSeries` | static/app/views/insights/pages/backend/laravelOverviewPage.tsx:503-521 | absent iff data or the field is absent; otherwise one point per input point, named by its timestamp, whose value is the first value's count (absent where it is absent or null); series name is the field, meta copied unchanged, the given color |
| `DurationWidget.FieldSeriesLossless` | static/app/views/insights/pages/backend/laravelOverviewPage.tsx:510-514 | for a single-valued series, the raw points can be rebuilt from the output values and the input timestamps |
| `DurationWidget.DurationTimeSeries` | static/app/views/insights/pages/backend/laravelOverviewPage.tsx:523-528 | the list has one entry per field present; avg comes first, then p95, each equal to that field's series |
| `JobsWidget.JobsTimeSeries` | static/app/views/insights/pages/backend/laravelOverviewPage.tsx:564-628 | empty iff data, the rate series or the spm series is absent; otherwise exactly Processed then Failed, with integer meta and their colors, each with one point per rate point, named by the rate timestamps, with the processed and failed value formulas at every index |
| `JobsWidget.SplitsVolume` | static/app/views/insights/pages/backend/laravelOverviewPage.tsx:585-597 | Processed + Failed equals the bucket volume iff the rate is truthy or the volume is 0 |
| `JobsWidget.CountsWithinVolume` | static/app/views/insights/pages/backend/laravelOverviewPage.tsx:578-597 | with a rate in [0, 1] and a non-negative volume, both counts lie between 0 and the volume |
| `JobsWidget.ExampleBucket` | static/app/views/insights/pages/backend/laravelOverviewPage.tsx:578-597 | rate 0.8, 10 spans per minute, 5 minutes: volume 50, Processed 40, Failed 10 |
| `JobsWidget.ExampleNullRate` | static/app/views/insights/pages/backend/laravelOverviewPage.tsx:586-587 | a null rate gives Processed 0 and Failed 0 although the volume is 50 |
| `SearchQuery.SplitJoin` | static/app/views/insights/pages/backend/laravelOverviewPage.tsx:71 | joining space-free tokens with a space and splitting at spaces gives back the tokens |
| `SearchQuery.FreeTextFromQuery` | static/app/views/insights/pages/backend/laravelOverviewPage.tsx:62-74 | the first transaction value when there is one; else the free text joined by spaces when there is any; else the empty string |
| `SearchQuery.FreeTextRoundTrip` | static/app/views/insights/pages/backend/laravelOverviewPage.tsx:68-72 | with no transaction filter, the returned text splits back into the free-text tokens |
| `SearchQuery.TrimStart` | static/app/views/insights/pages/backend/laravelOverviewPage.tsx:99 | the result is a suffix of the input; everything dropped is whitespace; the result does not start with whitespace |
| `SearchQuery.TrimEnd` | static/app/views/insights/pages/backend/laravelOverviewPage.tsx:99 | the result is a prefix of the input; everything dropped is whitespace; the result does not end with whitespace |
| `SearchQuery.Trim` | static/app/views/insights/pages/backend/laravelOverviewPage.tsx:99 | the result is the slice between the leading and the trailing whitespace runs, neither starting nor ending with whitespace; empty iff the input is all whitespace |
| `SearchQuery.TrimIdempotent` | static/app/views/insights/pages/backend/laravelOverviewPage.tsx:99 | trimming twice equals trimming once |
| `SearchQuery.QueryParam` | static/app/views/insights/pages/backend/laravelOverviewPage.tsx:99 | `undefined` iff the trimmed text is empty, otherwise the trimmed text |
| `SearchQuery.HandleSearch` | static/app/views/insights/pages/backend/laravelOverviewPage.tsx:93-103 | same pathname; keys are the old keys plus cursor, query and isDefaultQuery; cursor undefined, query the trimmed text or undefined, isDefaultQuery false; every other key keeps its value |
| `SearchQuery.HandleSearchIdempotent` | static/app/views/insights/pages/backend/laravelOverviewPage.tsx:93-103 | searching the same text again from the resulting location gives the same target |
| `SearchQuery.HandleSearchTrims` | static/app/views/insights/pages/backend/laravelOverviewPage.tsx:99 | searching a text or its trimmed form gives the same target |

## Left out

- React rendering, hooks (`useMemo`, `useCallback`), styled components, the grid layout, and `navigate` itself: UI plumbing. Colors are opaque strings given as parameters.
- Fetching (`useApiQuery`, the events-stats request parameters, loading and error states): network I/O. The response is an input.
- `new Date(time).toISOString()`: a library call, modelled as the uninterpreted parameter `iso`.
- `parsePeriodToHours(getInterval(...))`: a library call. Its result is the parameter `intervalHours` of `JobsWidget.JobsTimeSeries`, which multiplies it by 60 (line 564).
- The search tokenizer (`MutableSearch`): a library call. Its output is the input `SearchConditions`.
- Floating point: rates, spans per minute and durations are exact `real`s, so rounding is not modelled. `NaN` from a missing count in the status-class sum is excluded by the `AlignedResponse` precondition rather than modelled.
- `RequestsWidget.StatusClassSeries`: a `count` property that is missing (undefined) and one that is `null` are both `None`, so a missing count adds 0 here where JavaScript would give `NaN`.
- `Object.keys` order (integer-like keys ascending, then insertion order) is not computed. The response is given already in that order.
- JavaScript objects have distinct keys (`EventsStats.DistinctKeys`). The widget functions also accept a response that repeats a key: then `Lookup` uses the first entry while `Matching` keeps every entry. `EventsStats.LookupDistinct` shows the two agree on responses with distinct keys.
- The key order of the query object and the dropping of `undefined` values when the URL is written belong to the router and are not modelled.
- `IssuesWidget`, `GroupList`, `normalizeDateTimeParams`, the queries and caches widgets: calls into code that is not part of this model, with no derivation logic of their own here.
