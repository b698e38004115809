# fetch-query, modelled in Dafny

This project models the client-side core of `fetch-query`. That core is a wrapper around `fetch`. It keeps the `loading`, `data` and `error` state of one endpoint and retries a failing request a configured number of times. It also keeps a record of search parameters that it serialises into the request URL. On top of it sit an iterator that rewrites those parameters with a `next` or `previous` strategy and then dispatches again, and a pager that uses the iterator for pages 1 to 10.

The network is an input. A dispatch receives the sequence of outcomes of the attempts that complete: `Ok(body)` or `Fail(status, statusText)`. Its attempts consume that sequence until one succeeds, the `maxRetryCount + 1` attempts are used up, or the sequence runs out. When the sequence runs out, the request still in flight never completes.

Modules:

- `Outcomes`: `Option`, and `Outcome`, the result of a call that may throw.
- `SearchParams`: the parameter record, modelled as an ordered association list with distinct keys. It covers lookup, assigning one property (`Put`), the object spread `{ ...a, ...b }` (`Merge`) and the name–value list that `prepareSearchParams` builds (`Serialized`). It also covers integer `toString` and a parser that reads the digits back.
- `Retry`: how one dispatch ends (`Settle`), the loop that runs the attempts (`Dispatch`) and lemmas that describe each way a dispatch can end.
- `RequestStates`: the state triple, the log of values pushed to the three `BehaviorSubject`s, the changes one `query()` announces, and the state after a query (`AfterQuery`).
- `Fetch`: the class `FetchQuery` of `src/fetch-query/fetch-query.ts`.
- `LegacyFetch`: the older class `FetchQuery` of `src/fetch-query.ts`. It has no parameters and sends every request to the configured URL unchanged.
- `Iterator`: the class `FetchQueryIterator`.
- `Pager`: the pure predicates and strategies of `ExamplePager`, the class itself, and lemmas about navigation.

Each `FetchQuery` class keeps the invariant `Valid()`: its fields equal what a subscriber gets by replaying every announced change from the initial state. The getters `data`, `error` and `loading` are the functions `Data`, `Error` and `Loading`.

Three behaviours of the source are kept as written:

- After the last failing attempt, only rxjs's `error` handler runs. `complete` does not run, so `loading` stays `true` and only `error` is set.
- With no `page` parameter, the pager's `next` computes `undefined + 1`, which is `NaN`, and stores it.
- A failure leaves the previous `data` in place. So `data` and `error` can both be non-null after a dispatch.

## Model

| member | source | states |
|---|---|---|
| SearchParams.LookupMissing | src/fetch-query/fetch-query.ts:10 | reading a key of the record yields nothing exactly when the key is absent |
| SearchParams.Lookup | src/ExamplePager.ts:9 | reading `record.page` (or any key) yields a value only if the record holds an entry with that key and that value |
| SearchParams.LookupAt | src/fetch-query/fetch-query.ts:10 | since keys are unique, reading an entry's key yields that entry's value |
| SearchParams.Put | src/fetch-query/fetch-query.ts:116 | assigning one property replaces an existing key's value in place or appends a new key; the value under every other key is unchanged |
| SearchParams.Merge | src/fetch-query/fetch-query.ts:116 | the spread `{ ...old, ...p }` holds exactly the keys of the old record and of `p`; `MergeLookup` and `MergeKeys` give its values and key order |
| SearchParams.MergeLookup | src/fetch-query/fetch-query.ts:115-117 | after `updateSearchParams(p)`, each key of `p` maps to `p`'s value and every other key keeps its old value |
| SearchParams.MergeKeys | src/fetch-query/fetch-query.ts:115-117 | after `updateSearchParams(p)`, the old keys keep their positions and the keys of `p` that were new are appended in `p`'s order |
| SearchParams.ToText | src/fetch-query/fetch-query.ts:127 | `value.toString()`: a string is sent as itself, and an integer's text reads back as that integer |
| SearchParams.Serialized | src/fetch-query/fetch-query.ts:123-131 | the name–value list of the `URLSearchParams`: at most one pair per entry; `SerializedConcat`, `SerializedMembership` and `SerializedKeysDistinct` give its contents and order |
| SearchParams.SerializedConcat | src/fetch-query/fetch-query.ts:123-131 | serialisation goes entry by entry in record order: a record split in two serialises to the two parts' pairs in order, and one entry gives `key=value` exactly when its value is neither null nor undefined |
| SearchParams.SerializedMembership | src/fetch-query/fetch-query.ts:125-128 | a pair `(k, s)` is sent exactly when the record holds a non-null, non-undefined value under `k` whose text is `s` |
| SearchParams.SerializedKeysFromRecord | src/fetch-query/fetch-query.ts:125-128 | every key that is sent is a key of the record |
| SearchParams.SerializedKeysDistinct | src/fetch-query/fetch-query.ts:123-131 | no key is sent twice, so there is one pair per defined key |
| SearchParams.DecimalRoundTrip | src/fetch-query/fetch-query.ts:127 | the decimal text `toString` gives an integer reads back as that integer |
| Retry.Settle | src/fetch-query/fetch-query.ts:145-155 | how one dispatch ends; it issues at least one request and at most `maxRetryCount + 1` |
| Retry.Dispatch | src/fetch-query/fetch-query.ts:145-155 | running the attempts one by one ends exactly as `Settle` says: success, failure or still pending, with the number of requests issued |
| Retry.SettleFromSpec | src/fetch-query/fetch-query.ts:145-155 | a success is the first ok attempt within the allowed `maxRetryCount + 1`; a failure means all of those attempts failed and carries the last one's status and text; pending means every completed attempt failed and retries remain |
| Retry.SucceedsOnFirstOk | src/fetch-query/fetch-query.ts:148-154 | if attempt `k <= maxRetryCount` is the first ok one, the dispatch succeeds with its body after `k + 1` requests |
| Retry.FailsWhenRetriesExhausted | src/fetch-query/fetch-query.ts:148-165 | if all `maxRetryCount + 1` attempts fail, the error is `{status, message: statusText}` of the last one, after exactly `maxRetryCount + 1` requests |
| Retry.PendingWhileUnanswered | src/fetch-query/fetch-query.ts:145-155 | while every completed attempt failed and retries remain, the dispatch has not ended and one more request is in flight |
| RequestStates.Notifications | src/fetch-query/fetch-query.ts:139-169 | a query first announces loading on and then error cleared; it announces loading off only when the dispatch succeeds, and nothing more while it is pending |
| RequestStates.AfterQuery | src/fetch-query/fetch-query.ts:139-169 | after a dispatch, loading is off exactly on success, an error is set exactly on final failure, and data is kept unless the dispatch succeeded |
| RequestStates.NotificationsReplayToState | src/fetch-query/fetch-query.ts:139-187 | replaying the changes a query announces gives the state the getters report afterwards |
| Fetch.FetchQuery.constructor | src/fetch-query/fetch-query.ts:33-48 | a new query has no data, no error, is not loading, has retry count 0 and an empty record, and has announced and sent nothing |
| Fetch.FetchQuery.Data | src/fetch-query/fetch-query.ts:54-56 | the `data` getter returns the value the data subject last announced |
| Fetch.FetchQuery.Error | src/fetch-query/fetch-query.ts:61-63 | the `error` getter returns the value the error subject last announced |
| Fetch.FetchQuery.Loading | src/fetch-query/fetch-query.ts:68-70 | the `loading` getter returns the value the loading subject last announced |
| Fetch.FetchQuery.SetRetries | src/fetch-query/fetch-query.ts:100-105 | a negative count throws and leaves the retry count unchanged; any other count is stored exactly |
| Fetch.FetchQuery.SetSearchParams | src/fetch-query/fetch-query.ts:111-113 | the stored record becomes exactly the argument |
| Fetch.FetchQuery.UpdateSearchParams | src/fetch-query/fetch-query.ts:115-117 | the stored record becomes the merge of the old record with the argument |
| Fetch.FetchQuery.GetSearchParams | src/fetch-query/fetch-query.ts:119-121 | returns a record equal to the stored one and changes nothing |
| Fetch.FetchQuery.PrepareSearchParams | src/fetch-query/fetch-query.ts:123-131 | the loop appends exactly the serialisation of the stored record |
| Fetch.FetchQuery.Query | src/fetch-query/fetch-query.ts:138-172 | returns the same query; announces loading on and error cleared first, then the handlers' changes; the state becomes `AfterQuery` of the dispatch's end; each request issued carries the configured URL and the record's serialisation; parameters and retry count are unchanged |
| Fetch.FetchQuery.Begin | src/fetch-query/fetch-query.ts:139-140 | `query()` first turns loading on and clears the error, announcing both in that order, and leaves the data alone |
| Fetch.FetchQuery.Deliver | src/fetch-query/fetch-query.ts:156-169 | success sets the data and then clears loading; final failure sets only the error and leaves loading on; a pending dispatch changes nothing |
| Fetch.FetchQuery.UpdateLoading | src/fetch-query/fetch-query.ts:174-177 | sets loading and announces the new value |
| Fetch.FetchQuery.UpdateData | src/fetch-query/fetch-query.ts:179-182 | sets the data and announces the new value |
| Fetch.FetchQuery.UpdateError | src/fetch-query/fetch-query.ts:184-187 | sets the error and announces the new value |
| LegacyFetch.FetchQuery.constructor | src/fetch-query.ts:32-41 | a new query has no data, no error, is not loading and has retry count 0 |
| LegacyFetch.FetchQuery.Data | src/fetch-query.ts:43-45 | the `data` getter returns the value the data subject last announced |
| LegacyFetch.FetchQuery.Error | src/fetch-query.ts:47-49 | the `error` getter returns the value the error subject last announced |
| LegacyFetch.FetchQuery.Loading | src/fetch-query.ts:51-53 | the `loading` getter returns the value the loading subject last announced |
| LegacyFetch.FetchQuery.SetRetries | src/fetch-query.ts:67-72 | a negative count throws and leaves the retry count unchanged; any other count is stored exactly |
| LegacyFetch.FetchQuery.Query | src/fetch-query.ts:74-104 | as in the newer variant, except that every request goes to the configured URL unchanged |
| LegacyFetch.FetchQuery.Begin | src/fetch-query.ts:75-76 | `query()` first turns loading on and clears the error, announcing both in that order, and leaves the data alone |
| LegacyFetch.FetchQuery.Deliver | src/fetch-query.ts:88-101 | success sets the data and then clears loading; final failure sets only the error; a pending dispatch changes nothing |
| LegacyFetch.FetchQuery.UpdateLoading | src/fetch-query.ts:106-109 | sets loading and announces the new value |
| LegacyFetch.FetchQuery.UpdateData | src/fetch-query.ts:111-114 | sets the data and announces the new value |
| LegacyFetch.FetchQuery.UpdateError | src/fetch-query.ts:116-119 | sets the error and announces the new value |
| Iterator.FetchQueryIterator.constructor | src/fetch-query/fetch-query-iterator.ts:10 | the iterator holds only the query reference and the config it was given, both fixed |
| Iterator.FetchQueryIterator.Next | src/fetch-query/fetch-query-iterator.ts:12-18 | without a `next` strategy it throws and the query is untouched; otherwise it applies the strategy once to the query's parameters, then dispatches that same query |
| Iterator.FetchQueryIterator.Previous | src/fetch-query/fetch-query-iterator.ts:20-26 | without a `previous` strategy it throws and the query is untouched; otherwise it applies the strategy once, then dispatches that same query |
| Iterator.FetchQueryIterator.Advance | src/fetch-query/fetch-query-iterator.ts:16-17 | the strategy rewrites the wrapped query's parameters, then `query()` runs on that query |
| Pager.CanGoNextAt | src/ExamplePager.ts:22-26 | true for every falsy page: absent, `undefined`, `NaN`, `null` or `false`; for a numeric page, true exactly when it is below 10 (so page 0 is true) |
| Pager.CanGoPreviousAt | src/ExamplePager.ts:28-32 | false for every falsy page: absent, `undefined`, `NaN`, `null` or `false`; for a numeric page, true exactly when it is above 1 |
| Pager.NextStrategy | src/ExamplePager.ts:7-12 | when `canGoNext` holds, `page` becomes `page + 1`; every other key keeps its value |
| Pager.PreviousStrategy | src/ExamplePager.ts:13-18 | when `canGoPrevious` holds, the record becomes the single key `page` holding `page - 1`; otherwise it is unchanged |
| Pager.MergePage | src/ExamplePager.ts:10 | merging `{ page: v }` sets `page` to `v` and keeps every other key's value; key order changes only when `page` was new |
| Pager.NextFromPage | src/ExamplePager.ts:7-12 | from page `p < 10`, next sets page `p + 1`; from `p >= 10` it changes nothing; keys, their order and all other values stay |
| Pager.NextFromMissingPage | src/ExamplePager.ts:9-10 | with no `page`, next stores NaN as a new last key and keeps all other values |
| Pager.NaNPageIsFixed | src/ExamplePager.ts:7-18 | once the page is NaN, next may run and stores NaN again, leaving the record as it was, and previous is blocked and changes nothing |
| Pager.PreviousFromPage | src/ExamplePager.ts:13-18 | from page `p > 1`, previous replaces the whole record with `{ page: p - 1 }`; from `p <= 1` it changes nothing |
| Pager.StepStaysInRange | src/ExamplePager.ts:7-18 | one next or previous from a page in 1..10 stays in 1..10 |
| Pager.NavigationStaysInRange | src/ExamplePager.ts:7-32 | from a page in 1..10, any sequence of next and previous keeps the page in 1..10 |
| Pager.ForwardSteps | src/ExamplePager.ts:7-26 | `k` nexts from page `p` in 1..10 reach page `min(p + k, 10)` |
| Pager.ExamplePager.constructor | src/ExamplePager.ts:5-20 | the pager wraps the query in an iterator configured with the two page strategies |
| Pager.ExamplePager.CanGoNext | src/ExamplePager.ts:22-26 | reads the query's current record and answers `canGoNext` for it |
| Pager.ExamplePager.CanGoPrevious | src/ExamplePager.ts:28-32 | reads the query's current record and answers `canGoPrevious` for it |
| Pager.ExamplePager.Next | src/ExamplePager.ts:4-12 | applies the next strategy and always dispatches, issuing at least one request, even when the boundary left the parameters unchanged |
| Pager.ExamplePager.Previous | src/ExamplePager.ts:4-18 | applies the previous strategy and always dispatches, issuing at least one request, even when the boundary left the parameters unchanged |

## Left out

- Network access, `fromFetch`, and decoding the body with `response.json()` are foreign asynchronous I/O. They are replaced by the input sequence of attempt outcomes. A body that fails to decode is not modelled.
- The rxjs subscription API (`onLoadingChange`, `onDataChange`, `onErrorChange`) and the replay of the current value to new subscribers are left out. Only the ordered log of values pushed to the subjects is kept.
- Request options (`RequestInit`) and their per-call override are opaque to the state machine and are left out.
- URL parsing by `new URL(...)`, which can throw on a malformed URL, is left out. So is the percent-encoding of the query string, which follows the application/x-www-form-urlencoded serializer of the WHATWG URL Standard, section 5.2. A request is the configured URL plus the name–value list.
- Overlapping `query()` calls that race to overwrite the state are concurrency and are left out. Each dispatch is modelled as running to its end, or to its pending point, before the next call.
- Transport errors without `status` or `statusText` are left out. Every failure carries both.
- Numbers are integers or NaN. Floating-point values and their text form are left out. So is the loss of exactness above 2^53.
- SearchParams.IntToDecimal: integers are taken to be below 1e21 in magnitude. From 1e21 on, JavaScript's `toString` uses exponent notation (`"1e+21"`), which the model does not produce.
- Fetch.FetchQuery.SetRetries: the count is an integer. The source also accepts NaN, which passes the `< 0` test and is stored, as well as Infinity (retry without end) and fractions; these are left out.
- LegacyFetch.FetchQuery.SetRetries: the count is an integer. NaN, Infinity and fractions, which the source accepts, are left out.
- The record is modelled as a value. `setSearchParams` in the source keeps a reference to the caller's object, so a later change to that object would show through. This aliasing is left out.
- JavaScript enumerates integer-like keys (such as `"1"`) before other keys. The model keeps insertion order for all keys.
- The queries a strategy returns are ignored by the iterator and are not modelled. A strategy is modelled by its effect on the parameter record only.
- The pager is modelled as a class that holds an iterator, rather than as a subclass of one.
- Pager.CanGoNextAt: a page stored as a string is treated as blocking navigation. The source would apply JavaScript's string-to-number coercion, which the model leaves out.
- Pager.CanGoPreviousAt: a page stored as a string is treated as blocking navigation, for the same reason.
