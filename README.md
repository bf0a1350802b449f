# Retry chunk-load runtime, modelled in Dafny

`RetryChunkLoadPlugin` is a webpack plugin. It appends a small runtime to the
bootstrap script of every chunk it covers. At load time that runtime wraps
the two webpack primitives, `getChunkScriptFilename` and `ensureChunk`. When a
chunk fails to load, it either gives up or tries again:

- It gives up once the chunk's retry budget is spent. The error is annotated
  with the chunk id, the budget and the chunk's plain URL, and rethrown.
- Otherwise it first runs an origin-fallback heuristic over the page's
  stylesheet links. It then waits the retry delay, stores a cache-busting
  query for the chunk, decrements the chunk's count and loads the chunk again.

This project models that runtime and proves properties of it. It has five
modules:

- `RetryOptions` (`retry_options.dfy`) covers option normalisation:
  - the retry budget (`maxRetries`, a positive integer, default 1);
  - the cache-bust token (default `cache-bust=true`);
  - the retry delay (`retryDelay || 0`, or a user function);
  - the chunk-name allow-list, which decides whether the runtime is appended
    at all.
- `ChunkRetry` (`chunk_retry.dfy`) covers the runtime itself:
  - the URL wrapper;
  - the catch handler's decision (`OnFailure`);
  - the query each retry stores;
  - the `ChunkLoader` class. It owns `countMap` and `queryMap` and loads a
    chunk with a `while` loop over the states Attempting, Waiting,
    Succeeded and Exhausted. The source re-invokes `ensureChunk`
    recursively; the loop replaces that. A load is fed by an outcome oracle:
    `outcomes[k]` says whether attempt `k` succeeds, and a missing entry
    means failure. `Load` is proved against `LoadSpec`, which gives:
    - the number of retries;
    - the URL of every attempt and the delay before every retry;
    - the final maps and page state;
    - the settled result.
- `LinkScan` (`link_scan.dfy`) covers the stylesheet-link heuristic:
  - a pure specification (`Scan`) and the `PageEnv` class, whose `ScanLinks`
    loop is proved equal to it;
  - the directory derivation used for `window.chunkURL`.
- `Text` (`text.dfy`) defines the JavaScript string operations the runtime
  uses: `indexOf`/`match` with a literal pattern, `replace` of the first
  occurrence, `split`/`join` on one character, and decimal rendering.
- `Scenarios` (`scenarios.dfy`) works through concrete runs:
  - the default settings;
  - budgets of one and two;
  - a custom token.

Some of this behaviour is easy to misread. In the first four cases below the
model follows the code; in the last it departs from it:

- **Skip check.** `publicPathLoaded` is always reset to `false` before the
  scan (`src/index.ts:70`). So the "skip when already true" check never
  applies across failures. A failure with no qualifying link therefore still
  leaves `publicPathLoaded` false.
- **`.css` test.** The test is the regular expression `/\.css/`, a substring
  test anywhere in the href, not a suffix test.
- **Directory derivation.** The code removes the first `https://` wherever it
  occurs. It splits on `/` and drops the first segment (the host) and the
  last one (the file name). Only those two segments are dropped.
- **Budget of one.** With a budget of 1, a failing chunk is retried once
  before it rejects (`retries = 1` is not `< 1`). It is not rejected at once
  (`Scenarios.OneRetryThenReject`).
- **Custom token.** With a custom `cacheBust` function, the generated code
  does not append `&retry-attempt=N` (see Findings). `GeneratedRetryQuery`
  keeps the query as generated. The rest of the model stores the evidently
  intended query, token + `&retry-attempt=` + attempt (see Left out).

Modelling choices:

- **Parameters.** The page origin, the build-time `CDN_HOST` and the original
  URL resolver are parameters. The document's `<link>` elements are an input
  sequence of `(rel, href)` pairs.
- **Page state.** `window.env`, the `ed-revision-host` storage entry and
  `window.chunkURL` are fields of `PageEnv`.

## Model

| member | source | states |
|---|---|---|
| `RetryOptions.MaxRetries` | src/index.ts:19-23 | the budget is the option when `Number(option)` is a positive integer and 1 otherwise, so it is always at least 1 |
| `RetryOptions.CacheBustToken` | src/index.ts:25-30 | without a `cacheBust` function the token is exactly `cache-bust=true`; with one it is that function's value |
| `RetryOptions.RetryDelay` | src/index.ts:38-42 | a string option is the delay function itself; otherwise every attempt waits `retryDelay`, or 0 when none is configured |
| `RetryOptions.Normalise` | src/index.ts:19-42 | read off the options: the budget is `maxRetries` when that is a positive integer and 1 otherwise; the token is `cache-bust=true` without a `cacheBust` function and that function's value with one; every attempt waits 0 without `retryDelay`, the given number with one, and the script's value for that attempt when it is a string |
| `RetryOptions.AddsRetryCode` | src/index.ts:34-36 | the runtime is added to every chunk without an allow-list; with one, exactly when some entry of the list equals the chunk's name |
| `RetryOptions.BootstrapSource` | src/index.ts:32-44 | with an allow-list that does not name the chunk (or an empty one), the bootstrap source is returned unchanged; without a list, or when the name is listed, the runtime is appended |
| `ChunkRetry.WrappedUrlLayout` | src/index.ts:52-55 | the wrapped URL (`WrappedUrl`) always starts with the resolver's URL; it is that URL alone when no override is stored for the id, and otherwise continues with `?` and the stored override |
| `ChunkRetry.WrappedUrlSplits` | src/index.ts:52-55 | for a resolver URL without `?`, the wrapped URL is the resolver's URL when no override is stored for the id, and that URL + `?` + the stored query otherwise; splitting at the first `?` gives both back |
| `ChunkRetry.Remaining` | src/index.ts:59 | the retries left are the stored count when the id has one, and the full budget for an id with no entry (`RemainingInRange` bounds it) |
| `ChunkRetry.ExhaustedMessageSpell` | src/index.ts:62 | the message (`ExhaustedMessage`) is `Loading chunk ` + id + ` failed after `, then a digit string that reads back as the budget, then ` retries.\n(` + plain URL + `)` |
| `ChunkRetry.OnFailure` | src/index.ts:59-108 | the handler rethrows exactly when the retries left (the stored count, or the budget when absent) are below 1, with message `Loading chunk <id> failed after <maxRetries> retries.\n(<src>)` and `request = src` for the plain resolver URL; otherwise it retries with attempt `maxRetries - retries + 1`, which lies in `1..maxRetries` |
| `ChunkRetry.RetryQuery` | src/index.ts:110-111 | the stored query starts with the token and is longer than it (`RetryQueryNamesAttempt` gives the rest) |
| `ChunkRetry.RetryQueryNamesAttempt` | src/index.ts:110-111 | the stored query is the token, then `&retry-attempt=`, then a decimal that reads back as the attempt number |
| `ChunkRetry.RetryQueryDistinguishesAttempts` | src/index.ts:110-112 | two different attempts store different queries, so each retry requests a URL no earlier attempt used |
| `ChunkRetry.GeneratedRetryQuery` | src/index.ts:26-30 | the query generated line 111 stores: without a `cacheBust` function, the intended query of the default token; with one, that function's token alone, without the attempt suffix |
| `ChunkRetry.GeneratedQueryIgnoresAttempt` | src/index.ts:26-30 | as generated, a custom token is stored without the attempt suffix, so every retry stores the same query |
| `ChunkRetry.RetriesKeepConsistent` | src/index.ts:112-113 | retries keep both maps consistent: same keys, each count in `0..maxRetries-1` and each query naming the attempt its count implies; after `n` retries of one id its count is `n` lower, its query is that of the last retry and no other id moves |
| `ChunkRetry.RemainingInRange` | src/index.ts:59 | in consistent maps the retries left for any id lie between 0 and the budget |
| `ChunkRetry.CountsAfterStep` | src/index.ts:113 | one more retry sets the id's count to one lower |
| `ChunkRetry.QueriesAfterStep` | src/index.ts:112 | one more retry stores the next attempt's query for the id |
| `ChunkRetry.AttemptUrlsSpell` | src/index.ts:52-114 | a load requests the current wrapped URL first, then for retry `k` the resolver's URL + `?` + the query of attempt `offset + k` |
| `ChunkRetry.RetryDelaysSpell` | src/index.ts:108-115 | the wait before each retry is the delay function applied to that retry's own attempt number |
| `ChunkRetry.TraceRemaining` | src/index.ts:59-113 | after `n` retries the id has `n` fewer retries left than before the first |
| `ChunkRetry.TraceStep` | src/index.ts:107-114 | a failed attempt with retries left extends the trace: its delay is waited, its query and decremented count are stored, the page is rescanned and the next attempt requests the new URL |
| `ChunkRetry.EntriesStep` | src/index.ts:70-113 | one more retry stores its query and count and rescans the page |
| `ChunkRetry.RetriesNeeded` | src/index.ts:56-117 | an independent count of retries, given the retries left at the start of the load: the first successful attempt's index when it is within them, all of them otherwise; all earlier attempts fail |
| `ChunkRetry.RetriesFrom` | src/index.ts:56-117 | the first successful attempt from `k` on, capped at the retries left at the start of the load |
| `ChunkRetry.LoadIsDetermined` | src/index.ts:56-117 | a load's retry count equals `RetriesNeeded` of the retries the chunk had left when the load began (`Remaining` of the counts before it), and it rejects exactly when every attempt up to that many retries fails |
| `ChunkRetry.LoadKeepsOtherChunks` | src/index.ts:112-113 | a load changes no other chunk id's count or query |
| `ChunkRetry.FreshLoadThatNeverSucceeds` | src/index.ts:59-68 | a chunk with no entries that always fails is retried exactly `maxRetries` times; it requests the plain URL and then the URL with each attempt's query, waits each attempt's delay, and rejects with the annotated message, `request = src` and a count of 0 |
| `ChunkRetry.FreshLoadSucceedsAt` | src/index.ts:57-58 | a chunk with no entries whose first success is attempt `k <= maxRetries` resolves after exactly `k` retries with count `maxRetries - k`; success on the first attempt leaves maps and page untouched |
| `ChunkRetry.ChunkLoader.constructor` | src/index.ts:47-51 | a fresh runtime has empty `countMap` and `queryMap` and the normalised settings |
| `ChunkRetry.ChunkLoader.Attempt` | src/index.ts:56-106 | one call requests the wrapped URL; success touches nothing; a failure with no retries left yields the annotated error and leaves the page alone; otherwise the page is rescanned and a retry with attempt `maxRetries - left + 1` and its delay is scheduled |
| `ChunkRetry.ChunkLoader.Record` | src/index.ts:112-113 | the timer callback stores the retry's query (the intended one; see Left out) and `retries - 1` for the id only, keeping the maps consistent |
| `ChunkRetry.ChunkLoader.AttemptStep` | src/index.ts:56-106 | from Attempting, one attempt moves the load to Succeeded, Exhausted or Waiting while keeping the trace |
| `ChunkRetry.ChunkLoader.TimerStep` | src/index.ts:107-115 | from Waiting, the fired timer records the retry and returns to Attempting with one retry fewer left |
| `ChunkRetry.ChunkLoader.Step` | src/index.ts:56-117 | one transition of the state machine, which ends Attempting or spends one retry |
| `ChunkRetry.ChunkLoader.Load` | src/index.ts:56-117 | the loop over Attempting/Waiting/Succeeded/Exhausted ends in the state `LoadSpec` describes, and keeps the maps consistent |
| `LinkScan.IsExcluded` | src/index.ts:77-85 | a link without an href is never excluded, because the test runs on `""` |
| `LinkScan.QualifiesBySubstrings` | src/index.ts:75-88 | a link qualifies (`Qualifies`) exactly when its `rel` is `stylesheet`, it has an href, `.css` occurs somewhere in the href and none of the five excluded fragments occurs anywhere in it |
| `LinkScan.StripScheme` | src/index.ts:93 | an href that starts with `https://` loses exactly that prefix; an href without `https://` is unchanged |
| `LinkScan.InnerPath` | src/index.ts:93 | a string without `/` has an empty inner path (`InnerPathBetweenOuterSlashes` gives the general case) |
| `LinkScan.ChunkDir` | src/index.ts:99 | for an href without `https://` the directory is the inner path of the href itself (`ChunkDirOfHttpsHref` gives the other case) |
| `LinkScan.Adopt` | src/index.ts:89-102 | adopting a link sets both flags; the storage entry becomes `CDN_HOST` once the local host was tried and the page origin before; exactly one of CONST and PREV holds `CDN_HOST` and the other is empty; `chunkURL` is CONST + `/` + directory + `/` |
| `LinkScan.Visit` | src/index.ts:74-104 | after one link, `publicPathLoaded` is set exactly when it was already set or the link qualifies; an already loaded page or a link that does not qualify changes nothing; `edLocalHostLoaded` is never cleared |
| `LinkScan.VisitAll` | src/index.ts:74-105 | visiting the links never clears `edLocalHostLoaded` |
| `LinkScan.VisitAllLoaded` | src/index.ts:74-105 | after the links are visited, `publicPathLoaded` is set exactly when it was set before or some link qualifies |
| `LinkScan.Scan` | src/index.ts:70-105 | a scan never clears `edLocalHostLoaded` (the lemmas below give its whole result) |
| `LinkScan.VisitAllAfterLoaded` | src/index.ts:86 | once `publicPathLoaded` is set, later links change nothing |
| `LinkScan.VisitAllSkips` | src/index.ts:75-88 | non-stylesheet links, excluded hrefs, missing hrefs and hrefs without `.css` change nothing |
| `LinkScan.VisitAllTakesFirst` | src/index.ts:74-105 | before `publicPathLoaded` is set, the first qualifying link alone decides the outcome |
| `LinkScan.ScanWithoutQualifyingLink` | src/index.ts:70-105 | with no qualifying link the scan only resets `publicPathLoaded` to false; nothing else changes and nothing fails |
| `LinkScan.ScanFirstQualifyingLink` | src/index.ts:88-102 | the first qualifying link sets `publicPathLoaded`; the first time it stores the page origin, PREV becomes `CDN_HOST`, CONST becomes `""` and `chunkURL` becomes `/dir/`; once the local host was tried it stores `CDN_HOST`, PREV becomes `""`, CONST becomes `CDN_HOST` and `chunkURL` becomes `CDN_HOST/dir/` |
| `LinkScan.FirstQualifying` | src/index.ts:74-88 | the index of the first qualifying link, with none before it; none when no link qualifies |
| `LinkScan.ScanIdempotentOnceLocalTried` | src/index.ts:70-105 | once the local host has been tried, or with no qualifying link, scanning again changes nothing more |
| `LinkScan.ScanRepeatedSettles` | src/index.ts:70-105 | after two failure events, further rescans of the same links leave the page as it is |
| `LinkScan.SlashLayoutOfInner` | src/index.ts:99 | with three or more `/`-parts, the inner path is the text between the first and the last `/` |
| `LinkScan.SlashLayoutWithoutInner` | src/index.ts:99 | with at most one `/` the inner path is empty |
| `LinkScan.InnerPathBetweenOuterSlashes` | src/index.ts:93 | `split("/").slice(1).slice(0, -1).join("/")` is exactly the text strictly between the first and the last `/` |
| `LinkScan.InnerPathNeedsTwoSlashes` | src/index.ts:99 | a non-empty directory needs two `/` in the stripped href |
| `LinkScan.ChunkDirOfHttpsHref` | src/index.ts:93 | for an href starting with `https://`, the directory is the inner path of the rest |
| `LinkScan.PageEnv.VisitLink` | src/index.ts:74-104 | the `forEach` callback leaves the page state equal to `Visit` of the old state and its link |
| `LinkScan.PageEnv.ScanLinks` | src/index.ts:70-105 | the `forEach` over the links leaves the page state equal to `Scan` of the old state |
| `Text.IndexOf` | src/index.ts:83-88 | the first occurrence of a literal pattern, or none when it does not occur |
| `Text.Contains` | src/index.ts:83-88 | a literal `match` succeeds exactly when the pattern occurs somewhere |
| `Text.ReplaceFirst` | src/index.ts:93 | a string without the pattern is unchanged; otherwise the first occurrence of the pattern, and no earlier one, is replaced |
| `Text.ReplaceFirstOfPrefix` | src/index.ts:93 | replacing the first occurrence of a prefix removes exactly that prefix; a string without the pattern is unchanged |
| `Text.Split` | src/index.ts:93 | `split` on one character gives at least one part, none holding the separator |
| `Text.JoinOfSplit` | src/index.ts:93 | joining the parts of a split gives the string back |
| `Text.SplitOfJoin` | src/index.ts:93 | splitting a join of separator-free parts gives the parts back |
| `Text.JoinLast` | src/index.ts:93 | a join of two or more parts ends with the separator and the last part |
| `Text.NatToString` | src/index.ts:62 | the decimal rendering is a non-empty string of digits without a leading zero |
| `Text.ParseNatToString` | src/index.ts:110 | the decimal rendering of `n` reads back as `n` |
| `Scenarios.DefaultSettings` | src/index.ts:19-44 | with no options: budget 1, token `cache-bust=true`, delay 0 for every attempt, and the runtime appended to every chunk |
| `Scenarios.BudgetExamples` | src/index.ts:19-23 | 2.5, -3 and Infinity give a budget of 1; 4 is kept |
| `Scenarios.TwoFailuresThenSuccess` | src/index.ts:56-117 | budget 2, chunk `a` failing twice then loading: resolves after 2 retries, waits the delays of attempts 1 and 2, count ends at 0 |
| `Scenarios.OneRetryThenReject` | src/index.ts:59-68 | budget 1, chunk `b` always failing: one retry, then rejection with the exhausted message for `b` and one retry, and `request = src` |
| `Scenarios.MessageForOneRetry` | src/index.ts:62 | that message is exactly `Loading chunk b failed after 1 retries.\n(<src>)` |
| `Scenarios.CustomTokenQuery` | src/index.ts:110-111 | token `v=42` gives `v=42&retry-attempt=1` for attempt 1; as generated the stored query is `v=42` alone |

## Left out

- Webpack wiring is not modelled: hook registration, `mainTemplate`/`runtimeTemplate`, the IIFE wrapper and the `typeof __webpack_require__` guard (src/index.ts:15-17, 31, 45-46). It is build-tool plumbing.
- Prettier formatting and the assembly of the template string are not modelled (src/index.ts:4, 120-125). The model appends an abstract `runtime` string.
- Real timing is not modelled. `setTimeout` is an abstract Waiting state, and the delay only appears as a value in the recorded `waits`.
- Promise semantics and concurrent loads of the same chunk id are not modelled. A load runs to completion before the next one starts, so the unguarded race on the shared counters is outside the model.
- DOM, `localStorage` and `window` access are not modelled. They are the `links` input, the `PageEnv` fields and the `origin` parameter.
- `ChunkRetry.ChunkLoader.Load`: the document's `<link>` list is the same sequence at every failure of one load. A DOM that changes between retries is not modelled.
- `ChunkRetry.ChunkLoader.Record`: with a custom `cacheBust` function the loader stores token + `&retry-attempt=` + attempt, the evidently intended query. The generated code stores the token alone (see Findings and `GeneratedRetryQuery`).
- `ChunkRetry.ChunkLoader.Load`: with a custom `cacheBust` function, `Load` and `LoadSpec` are stated over the intended query that `Record` stores. The URL they give for every retry is therefore resolver URL + `?` + token + `&retry-attempt=` + attempt, not the resolver URL + `?` + token alone that the generated code requests (see Findings).
- `lastResortScript` is treated as a no-op hook and not modelled (src/index.ts:64-67). It is user-supplied code.
- `RetryOptions.CacheBustToken`: a custom `cacheBust` function is modelled by the one value it returns. The source calls it again at every retry, so a function whose value changes between calls is not modelled.
- `RetryOptions.RetryDelay`: a string `retryDelay` is an opaque function from attempt to milliseconds. The code inside it is not modelled.
- `RetryOptions.MaxRetries`: the `Number(...)` conversion of arbitrary option values is not modelled. The input is the resulting number.
- `RetryOptions.MaxRetries`: budgets above `Number.MAX_SAFE_INTEGER` (2^53 - 1) are not modelled. The model counts with unbounded integers, while the generated code computes `maxRetries - retries + 1` and `retries - 1` in IEEE doubles (src/index.ts:59, 108, 113). Above 2^53 that arithmetic is inexact: with `maxRetries = 2^54 + 4`, `retries - 1` rounds back to `retries`, so the count never goes down and an always-failing chunk is retried forever, where `ChunkRetry.FreshLoadThatNeverSucceeds` proves exactly `maxRetries` retries.
- `ChunkRetry.OnFailure`: integers are rendered in decimal. JavaScript renders integers of 10^21 and above in exponent form; that case is not modelled.
- Chunk ids are strings, as the property keys the maps use. Numeric ids are taken in their string form. Because the lookups use `hasOwnProperty` (src/index.ts:54, 59), an inherited key such as `toString` behaves as the model says. Two ids do not, and they are not modelled:
  - `__proto__`: the assignments at src/index.ts:112-113 create no own property, so no count is ever stored and the chunk's retries never run out;
  - `hasOwnProperty`: the assignment at src/index.ts:112 shadows the method with a string, so the next `queryMap.hasOwnProperty(...)` call at line 54 throws.
- `envVariables.CDN_HOST` is a constant parameter. Loading it from the environment file is not modelled (src/index.ts:6).

## Findings

| source | as written | input that shows it | evidently intended | confidence | as-written member | corrected member |
|---|---|---|---|---|---|---|
| src/index.ts:25-30, 111 | With a `cacheBust` function, the template yields `var cacheBust = (f)();`. On the next line comes the separate statement `+ retryAttemptString;`. The stored query is therefore `f()` alone, and every retry of a chunk requests the same URL. | `cacheBust` returning `v=42`, first retry: the stored query is `v=42` | `v=42&retry-attempt=1`, a different query per attempt, as with the default token | high; not executed | `ChunkRetry.GeneratedQueryIgnoresAttempt` | `ChunkRetry.RetryQueryDistinguishesAttempts` |
