/**
 * The retry runtime injected into the page's bootstrap script: a wrapper for
 * the chunk-URL resolver that appends a per-chunk query override, and a
 * wrapper for the chunk loader that, on each failure, either gives up with an
 * annotated error or records a cache-busting query, decrements the chunk's
 * remaining retries and tries again.
 */
module ChunkRetry {
  import opened Optional
  import opened Text
  import opened RetryOptions
  import opened LinkScan

  /** A chunk id, as the property key it becomes in the runtime's maps. */
  type ChunkId = string

  /** The error a load rejects with once retries are exhausted. */
  datatype LoadError = LoadError(message: string, request: string)

  /** How one load call settles. */
  datatype LoadResult = Resolved | Rejected(error: LoadError)

  /** What the catch handler does with a failure. */
  datatype FailureAction =
    | Rethrow(error: LoadError)
    | Retry(retries: nat, attempt: int)

  /**
   * Where a load of one chunk stands: an attempt is about to request the
   * chunk, a retry is waiting on a timer of `delay` milliseconds, the chunk
   * loaded, or its retries are exhausted.
   */
  datatype LoadState =
    | Attempting
    | Waiting(retries: nat, attempt: int, delay: int)
    | Succeeded
    | Exhausted(error: LoadError)

  /** The wrapped `getChunkScriptFilename`: the original URL, plus `?` and the override when one is stored. */
  function WrappedUrl(base: string, queries: map<ChunkId, string>, id: ChunkId): string
  {
    if id in queries then AppendQuery(base, queries[id]) else base
  }

  /**
   * The wrapped URL always starts with the resolver's URL; it is that URL
   * alone when no override is stored, and otherwise continues with `?` and
   * the override.
   */
  lemma WrappedUrlLayout(base: string, queries: map<ChunkId, string>, id: ChunkId)
    ensures var url := WrappedUrl(base, queries, id);
      && |base| <= |url| && url[..|base|] == base
      && (id !in queries ==> url == base)
      && (id in queries ==> |base| < |url| && url[|base|] == '?' && url[|base| + 1..] == queries[id])
  {
  }

  /** A URL with a query appended after `?`. */
  function AppendQuery(base: string, query: string): string
  {
    base + "?" + query
  }

  /** Splits a URL at its first `?` into the part before and the query after. */
  function SplitQuery(url: string): (string, Option<string>)
  {
    match IndexOf(url, "?")
    case None => (url, None)
    case Some(i) => (url[..i], Some(url[i + 1..]))
  }

  /** For a resolver URL without `?`, the wrapped URL splits back into that URL and the stored override. */
  lemma WrappedUrlSplits(base: string, queries: map<ChunkId, string>, id: ChunkId)
    requires '?' !in base
    ensures SplitQuery(WrappedUrl(base, queries, id))
         == (base, if id in queries then Some(queries[id]) else None)
  {
    var url := WrappedUrl(base, queries, id);
    forall j: nat | j < |base|
      ensures !OccursAt(url, "?", j)
    {
      assert url[j..j + 1] == [base[j]];
    }
    if id in queries {
      assert OccursAt(url, "?", |base|);
      assert IndexOf(url, "?") == Some(|base|);
      assert url[..|base|] == base;
      assert url[|base| + 1..] == queries[id];
    } else {
      assert url == base;
      forall j: nat
        ensures !OccursAt(url, "?", j)
      {
        if j < |base| {
          assert url[j..j + 1] == [base[j]];
        }
      }
    }
  }

  /** The retries left for `id`: its stored count, or the full budget when none is stored. */
  function Remaining(counts: map<ChunkId, int>, id: ChunkId, maxRetries: nat): (r: int)
    ensures id in counts ==> r == counts[id]
    ensures id !in counts ==> r == maxRetries
  {
    if id in counts then counts[id] else maxRetries
  }

  /** The message of the error a chunk rejects with once its retries are exhausted. */
  function ExhaustedMessage(id: ChunkId, maxRetries: nat, src: string): string
  {
    "Loading chunk " + id + " failed after " + NatToString(maxRetries) + " retries.\n(" + src + ")"
  }

  /**
   * The message names the chunk, then gives the budget in decimal, then the
   * plain URL in parentheses.
   */
  lemma ExhaustedMessageSpell(id: ChunkId, maxRetries: nat, src: string)
    ensures var m := ExhaustedMessage(id, maxRetries, src);
      var head, tail := 28 + |id|, |m| - (12 + |src|);
      && head < tail
      && m[..head] == "Loading chunk " + id + " failed after "
      && IsDigits(m[head..tail]) && ParseNat(m[head..tail]) == maxRetries
      && m[tail..] == " retries.\n(" + src + ")"
  {
    var digits := NatToString(maxRetries);
    var lead := "Loading chunk " + id + " failed after ";
    var trail := " retries.\n(" + src + ")";
    var m := ExhaustedMessage(id, maxRetries, src);
    assert m == lead + digits + trail;
    ParseNatToString(maxRetries);
    assert |lead| == 28 + |id| && |trail| == 12 + |src|;
    assert m[..|lead|] == lead && m[|lead|..|m| - |trail|] == digits && m[|m| - |trail|..] == trail;
  }

  /** The query stored for a chunk before retry attempt `attempt`. */
  function RetryQuery(token: string, attempt: int): (q: string)
    ensures |token| < |q| && q[..|token|] == token
  {
    token + "&retry-attempt=" + IntToString(attempt)
  }

  /** The query is the token, then `&retry-attempt=`, then a decimal that reads back as the attempt. */
  lemma RetryQueryNamesAttempt(token: string, attempt: nat)
    ensures var q := RetryQuery(token, attempt);
      && q[..|token|] == token
      && q[|token|..|token| + 15] == "&retry-attempt="
      && IsDigits(q[|token| + 15..])
      && ParseNat(q[|token| + 15..]) == attempt
  {
    var q := RetryQuery(token, attempt);
    assert q[|token| + 15..] == NatToString(attempt);
    ParseNatToString(attempt);
  }

  /** Distinct attempts store distinct queries, so every retry requests a URL no earlier attempt used. */
  lemma RetryQueryDistinguishesAttempts(token: string, a1: nat, a2: nat)
    requires a1 != a2
    ensures RetryQuery(token, a1) != RetryQuery(token, a2)
  {
    RetryQueryNamesAttempt(token, a1);
    RetryQueryNamesAttempt(token, a2);
  }

  /**
   * The query the generated timer callback stores as written. With a custom
   * cacheBust function the generated statement is `var cacheBust = (f)();`
   * followed by a separate statement `+ retryAttemptString;`, so the stored
   * query is the function's value alone; only the default token gets the
   * attempt suffix.
   */
  function GeneratedRetryQuery(custom: Option<string>, attempt: int): (q: string)
    ensures custom.Some? ==> q == CacheBustToken(custom)
    ensures custom.None? ==> q == RetryQuery(CacheBustToken(custom), attempt)
  {
    match custom
    case Some(value) => value
    case None => RetryQuery(DefaultCacheBust, attempt)
  }

  /** As written, a custom token makes every retry of a chunk request the same URL. */
  lemma GeneratedQueryIgnoresAttempt(value: string, a1: int, a2: int)
    ensures GeneratedRetryQuery(Some(value), a1) == GeneratedRetryQuery(Some(value), a2)
    ensures var q := GeneratedRetryQuery(Some(value), 1);
      |q| < |RetryQuery(value, 1)| && q == RetryQuery(value, 1)[..|value|]
  {
  }

  /** The entries the runtime keeps agree: each stored query names the attempt its count implies. */
  ghost predicate Consistent(counts: map<ChunkId, int>, queries: map<ChunkId, string>, maxRetries: nat, token: string)
  {
    && counts.Keys == queries.Keys
    && forall id {:trigger EntryConsistent(counts, queries, maxRetries, token, id)} ::
         id in counts ==> EntryConsistent(counts, queries, maxRetries, token, id)
  }

  /** The entries of one chunk: a count below the budget and the query of the attempt it implies. */
  ghost predicate EntryConsistent(counts: map<ChunkId, int>, queries: map<ChunkId, string>, maxRetries: nat, token: string, id: ChunkId)
    requires id in counts && counts.Keys == queries.Keys
  {
    && 0 <= counts[id] < maxRetries
    && queries[id] == RetryQuery(token, maxRetries - counts[id])
  }

  /**
   * The catch handler's decision: with fewer than one retry left it rethrows
   * the annotated error; otherwise it schedules retry number
   * `maxRetries - retries + 1`.
   */
  function OnFailure(counts: map<ChunkId, int>, id: ChunkId, maxRetries: nat, src: string): (action: FailureAction)
    ensures action.Rethrow? <==> Remaining(counts, id, maxRetries) < 1
    ensures action.Rethrow? ==> action.error == LoadError(ExhaustedMessage(id, maxRetries, src), src)
    ensures action.Retry? ==> action.retries == Remaining(counts, id, maxRetries)
    ensures action.Retry? ==> action.attempt + action.retries == maxRetries + 1
    ensures action.Retry? && (id in counts ==> counts[id] < maxRetries) ==> 1 <= action.attempt <= maxRetries
  {
    var retries := Remaining(counts, id, maxRetries);
    if retries < 1 then Rethrow(LoadError(ExhaustedMessage(id, maxRetries, src), src))
    else Retry(retries, maxRetries - retries + 1)
  }

  /** The count map after `n` retries of `id`, which had `remaining` retries left before the first. */
  function CountsAfter(counts: map<ChunkId, int>, id: ChunkId, remaining: int, n: nat): map<ChunkId, int>
  {
    if n == 0 then counts else counts[id := remaining - n]
  }

  /** The query map after `n` retries of `id`, whose first retry was attempt `offset + 1`. */
  function QueriesAfter(queries: map<ChunkId, string>, id: ChunkId, token: string, offset: int, n: nat): map<ChunkId, string>
  {
    if n == 0 then queries else queries[id := RetryQuery(token, offset + n)]
  }

  /** One more retry sets the chunk's count one lower. */
  lemma CountsAfterStep(counts: map<ChunkId, int>, id: ChunkId, remaining: int, n: nat)
    ensures CountsAfter(counts, id, remaining, n)[id := remaining - n - 1] == CountsAfter(counts, id, remaining, n + 1)
  {
  }

  /** One more retry stores the query of the next attempt. */
  lemma QueriesAfterStep(queries: map<ChunkId, string>, id: ChunkId, token: string, offset: int, n: nat)
    ensures QueriesAfter(queries, id, token, offset, n)[id := RetryQuery(token, offset + (n + 1))]
         == QueriesAfter(queries, id, token, offset, n + 1)
  {
  }

  /**
   * Retries keep the maps consistent: after `n` retries of `id` (no more than
   * it had left) its count is `n` lower, its query names the last retry's
   * attempt, and no other chunk's entries move.
   */
  lemma RetriesKeepConsistent(counts: map<ChunkId, int>, queries: map<ChunkId, string>, id: ChunkId,
                              maxRetries: nat, token: string, n: nat)
    requires Consistent(counts, queries, maxRetries, token)
    requires n <= Remaining(counts, id, maxRetries)
    ensures var r := Remaining(counts, id, maxRetries);
      Consistent(CountsAfter(counts, id, r, n), QueriesAfter(queries, id, token, maxRetries - r, n), maxRetries, token)
  {
    var r := Remaining(counts, id, maxRetries);
    if n > 0 {
      var counts', queries' := CountsAfter(counts, id, r, n), QueriesAfter(queries, id, token, maxRetries - r, n);
      if id in counts {
        assert EntryConsistent(counts, queries, maxRetries, token, id);
      }
      forall other | other in counts'
        ensures EntryConsistent(counts', queries', maxRetries, token, other)
      {
        if other == id {
          assert maxRetries - r + n == maxRetries - (r - n);
        } else {
          assert EntryConsistent(counts, queries, maxRetries, token, other);
        }
      }
    }
  }

  /** In consistent maps a chunk has between none and all of its retries left. */
  lemma RemainingInRange(counts: map<ChunkId, int>, queries: map<ChunkId, string>, id: ChunkId, maxRetries: nat, token: string)
    requires Consistent(counts, queries, maxRetries, token)
    ensures 0 <= Remaining(counts, id, maxRetries) <= maxRetries
  {
    if id in counts {
      assert EntryConsistent(counts, queries, maxRetries, token, id);
    }
  }


  /** Attempt `k` of a load (0 for the first) succeeds; attempts the oracle does not list fail. */
  predicate Succeeds(outcomes: seq<bool>, k: nat)
  {
    k < |outcomes| && outcomes[k]
  }

  /**
   * The URLs a load requests: `first`, then for each of the `n` retries the
   * resolver's URL with the query of the next attempt after `offset`.
   */
  function AttemptUrls(first: string, base: string, token: string, offset: int, n: nat): seq<string>
    decreases n
  {
    if n == 0 then [first]
    else AttemptUrls(first, base, token, offset, n - 1) + [AppendQuery(base, RetryQuery(token, offset + n))]
  }

  /** Retry `k` (from 1) requests the resolver's URL with the query of attempt `offset + k`. */
  lemma {:induction false} AttemptUrlsSpell(first: string, base: string, token: string, offset: int, n: nat)
    ensures var urls := AttemptUrls(first, base, token, offset, n);
      && |urls| == n + 1
      && urls[0] == first
      && forall k :: 1 <= k <= n ==> urls[k] == AppendQuery(base, RetryQuery(token, offset + k))
    decreases n
  {
    if n > 0 {
      AttemptUrlsSpell(first, base, token, offset, n - 1);
      var urls := AttemptUrls(first, base, token, offset, n);
      var front := AttemptUrls(first, base, token, offset, n - 1);
      forall k | 1 <= k < n
        ensures urls[k] == AppendQuery(base, RetryQuery(token, offset + k))
      {
        assert urls[k] == front[k];
      }
    }
  }

  /** The delays waited before `n` retries, the first of which is attempt `attempt`. */
  function RetryDelays(delay: int -> int, attempt: int, n: nat): seq<int>
    decreases n
  {
    if n == 0 then [] else RetryDelays(delay, attempt, n - 1) + [delay(attempt + n - 1)]
  }

  /** Retry `k` (from 0) waits `delay` of its own attempt number. */
  lemma {:induction false} RetryDelaysSpell(delay: int -> int, attempt: int, n: nat)
    ensures var waits := RetryDelays(delay, attempt, n);
      && |waits| == n
      && forall k :: 0 <= k < n ==> waits[k] == delay(attempt + k)
    decreases n
  {
    if n > 0 {
      RetryDelaysSpell(delay, attempt, n - 1);
      var waits := RetryDelays(delay, attempt, n);
      var front := RetryDelays(delay, attempt, n - 1);
      forall k | 0 <= k < n - 1
        ensures waits[k] == delay(attempt + k)
      {
        assert waits[k] == front[k];
      }
    }
  }

  /** The constants the generated runtime is built with, and the page origin it runs under. */
  datatype Runtime = Runtime(
    maxRetries: nat,
    token: string,                   // the cache-bust token
    delay: int -> int,               // getRetryDelay
    cdnHost: string,                 // envVariables.CDN_HOST, fixed at build time
    origin: string,                  // window.location.origin
    resolve: ChunkId -> string)      // the original getChunkScriptFilename

  /** The runtime's maps and the page state at one moment. */
  datatype Snapshot = Snapshot(counts: map<ChunkId, int>, queries: map<ChunkId, string>, page: EnvState)

  /**
   * What `n` retries of `id` leave behind, from the state `before` to the
   * state `after`: the retries fit the budget, every attempt's URL and every
   * delay follow the attempt numbers, the chunk's entries are those of its
   * last retry, and the page was rescanned once per retry.
   */
  ghost predicate Trace(rt: Runtime, id: ChunkId, links: seq<Link>, before: Snapshot, after: Snapshot,
                        n: nat, requested: seq<string>, waits: seq<int>)
  {
    var r := Remaining(before.counts, id, rt.maxRetries);
    && n <= r
    && Requests(rt, id, before, r, n, requested, waits)
    && Entries(rt, id, links, before, after, r, n)
  }

  /** The URLs requested and the delays waited in `n` retries of `id`, which had `r` retries left. */
  ghost predicate Requests(rt: Runtime, id: ChunkId, before: Snapshot, r: int, n: nat, requested: seq<string>, waits: seq<int>)
  {
    var base := rt.resolve(id);
    && requested == AttemptUrls(WrappedUrl(base, before.queries, id), base, rt.token, rt.maxRetries - r, n)
    && waits == RetryDelays(rt.delay, rt.maxRetries - r + 1, n)
  }

  /** The maps and the page after `n` retries of `id`, which had `r` retries left. */
  ghost predicate Entries(rt: Runtime, id: ChunkId, links: seq<Link>, before: Snapshot, after: Snapshot, r: int, n: nat)
  {
    && after.counts == CountsAfter(before.counts, id, r, n)
    && after.queries == QueriesAfter(before.queries, id, rt.token, rt.maxRetries - r, n)
    && after.page == ScanRepeated(before.page, links, rt.origin, rt.cdnHost, n)
  }

  /**
   * A whole load of `id` that made `n` retries: the trace of those retries,
   * all of which followed a failed attempt, and a result decided by whether
   * attempt `n` succeeds, with the annotated error once the budget is spent.
   */
  ghost predicate LoadSpec(rt: Runtime, id: ChunkId, outcomes: seq<bool>, links: seq<Link>, before: Snapshot, after: Snapshot,
                           result: LoadResult, n: nat, requested: seq<string>, waits: seq<int>)
  {
    var r := Remaining(before.counts, id, rt.maxRetries);
    var base := rt.resolve(id);
    && Trace(rt, id, links, before, after, n, requested, waits)
    && (forall k :: 0 <= k < n ==> !Succeeds(outcomes, k))
    && (result.Resolved? <==> Succeeds(outcomes, n))
    && (result.Rejected? ==> n == r && result.error == LoadError(ExhaustedMessage(id, rt.maxRetries, base), base))
  }

  /** After `n` retries a chunk has `n` fewer retries left than before the first. */
  lemma {:induction false} TraceRemaining(rt: Runtime, id: ChunkId, links: seq<Link>, before: Snapshot, after: Snapshot,
                       n: nat, requested: seq<string>, waits: seq<int>)
    requires Trace(rt, id, links, before, after, n, requested, waits)
    ensures Remaining(after.counts, id, rt.maxRetries) == Remaining(before.counts, id, rt.maxRetries) - n
  {
  }

  /**
   * A failed attempt that schedules one more retry extends the trace: its
   * delay is waited, its query and the decremented count are stored, the
   * page is rescanned, and the next attempt requests the URL with the new
   * query.
   */
  lemma {:induction false} TraceStep(rt: Runtime, id: ChunkId, links: seq<Link>, before: Snapshot, s: Snapshot, next: Snapshot,
                  n: nat, requested: seq<string>, waits: seq<int>, attempt: int, url: string, delay: int)
    requires Trace(rt, id, links, before, s, n, requested, waits)
    requires n < Remaining(before.counts, id, rt.maxRetries)
    requires attempt == rt.maxRetries - Remaining(s.counts, id, rt.maxRetries) + 1
    requires next.counts == s.counts[id := Remaining(s.counts, id, rt.maxRetries) - 1]
    requires next.queries == s.queries[id := RetryQuery(rt.token, attempt)]
    requires next.page == Scan(s.page, links, rt.origin, rt.cdnHost)
    requires url == WrappedUrl(rt.resolve(id), next.queries, id) && delay == rt.delay(attempt)
    ensures Trace(rt, id, links, before, next, n + 1, requested + [url], waits + [delay])
  {
    var r := Remaining(before.counts, id, rt.maxRetries);
    TraceRemaining(rt, id, links, before, s, n, requested, waits);
    assert Requests(rt, id, before, r, n + 1, requested + [url], waits + [delay]);
    EntriesStep(rt, id, links, before, s, next, r, n, attempt);
  }

  /** One more retry stores its query and the decremented count, and rescans the page. */
  lemma {:induction false} EntriesStep(rt: Runtime, id: ChunkId, links: seq<Link>, before: Snapshot, s: Snapshot, next: Snapshot,
                                       r: int, n: nat, attempt: int)
    requires Entries(rt, id, links, before, s, r, n)
    requires attempt == rt.maxRetries - r + (n + 1)
    requires next.counts == s.counts[id := r - n - 1]
    requires next.queries == s.queries[id := RetryQuery(rt.token, attempt)]
    requires next.page == Scan(s.page, links, rt.origin, rt.cdnHost)
    ensures Entries(rt, id, links, before, next, r, n + 1)
  {
    CountsAfterStep(before.counts, id, r, n);
    QueriesAfterStep(before.queries, id, rt.token, rt.maxRetries - r, n);
  }

  /**
   * An independent count of the retries a load makes: the index of the first
   * successful attempt when one comes within the budget, and the whole
   * budget otherwise.
   */
  function RetriesNeeded(outcomes: seq<bool>, budget: nat): (n: nat)
    ensures n <= budget
    ensures forall k :: 0 <= k < n ==> !Succeeds(outcomes, k)
    ensures n < budget ==> Succeeds(outcomes, n)
  {
    RetriesFrom(outcomes, 0, budget)
  }

  /** The first attempt from `k` on that succeeds, capped at `budget`. */
  function RetriesFrom(outcomes: seq<bool>, k: nat, budget: nat): (n: nat)
    requires k <= budget
    ensures k <= n <= budget
    ensures forall j :: k <= j < n ==> !Succeeds(outcomes, j)
    ensures n < budget ==> Succeeds(outcomes, n)
    decreases budget - k
  {
    if k == budget || Succeeds(outcomes, k) then k else RetriesFrom(outcomes, k + 1, budget)
  }

  /**
   * A load's retry count and result are fixed by the outcomes alone: it
   * retries until the first success or until the retries left are spent,
   * and rejects exactly when every attempt up to then failed.
   */
  lemma LoadIsDetermined(rt: Runtime, id: ChunkId, outcomes: seq<bool>, links: seq<Link>, before: Snapshot, after: Snapshot,
                         result: LoadResult, n: nat, requested: seq<string>, waits: seq<int>)
    requires 0 <= Remaining(before.counts, id, rt.maxRetries)
    requires LoadSpec(rt, id, outcomes, links, before, after, result, n, requested, waits)
    ensures var r := Remaining(before.counts, id, rt.maxRetries);
      && n == RetriesNeeded(outcomes, r)
      && (result.Rejected? <==> forall k :: 0 <= k <= r ==> !Succeeds(outcomes, k))
  {
  }

  /** A load changes the entries of its own chunk only. */
  lemma LoadKeepsOtherChunks(rt: Runtime, id: ChunkId, outcomes: seq<bool>, links: seq<Link>, before: Snapshot, after: Snapshot,
                             result: LoadResult, n: nat, requested: seq<string>, waits: seq<int>, other: ChunkId)
    requires LoadSpec(rt, id, outcomes, links, before, after, result, n, requested, waits)
    requires other != id
    ensures other in after.counts <==> other in before.counts
    ensures other in after.counts ==> after.counts[other] == before.counts[other]
    ensures other in after.queries <==> other in before.queries
    ensures other in after.queries ==> after.queries[other] == before.queries[other]
  {
  }

  /**
   * A chunk with no stored entries whose every attempt within the budget
   * fails makes all `maxRetries` retries, requests the plain URL and then
   * the URL with the query of each attempt 1, 2, ..., waits the delay of
   * each attempt, rejects with the annotated error and is left with no
   * retries.
   */
  lemma FreshLoadThatNeverSucceeds(rt: Runtime, id: ChunkId, outcomes: seq<bool>, links: seq<Link>, before: Snapshot, after: Snapshot,
                                   result: LoadResult, n: nat, requested: seq<string>, waits: seq<int>)
    requires id !in before.counts && id !in before.queries
    requires forall k :: 0 <= k <= rt.maxRetries ==> !Succeeds(outcomes, k)
    requires LoadSpec(rt, id, outcomes, links, before, after, result, n, requested, waits)
    ensures n == rt.maxRetries
    ensures result == Rejected(LoadError(ExhaustedMessage(id, rt.maxRetries, rt.resolve(id)), rt.resolve(id)))
    ensures |requested| == n + 1 && requested[0] == rt.resolve(id)
    ensures forall k :: 1 <= k <= n ==> requested[k] == rt.resolve(id) + "?" + RetryQuery(rt.token, k)
    ensures |waits| == n && forall k :: 0 <= k < n ==> waits[k] == rt.delay(k + 1)
    ensures n >= 1 ==> after.counts[id] == 0 && after.queries[id] == RetryQuery(rt.token, n)
  {
    var base := rt.resolve(id);
    assert Remaining(before.counts, id, rt.maxRetries) == rt.maxRetries;
    assert !Succeeds(outcomes, n);
    assert n == rt.maxRetries;
    assert WrappedUrl(base, before.queries, id) == base;
    FirstLoadUrls(base, rt.token, n, requested);
    FirstLoadDelays(rt.delay, n, waits);
  }

  /** The URLs of a load that starts with no override: the plain URL, then the query of attempt `k` for retry `k`. */
  lemma FirstLoadUrls(base: string, token: string, n: nat, requested: seq<string>)
    requires requested == AttemptUrls(base, base, token, 0, n)
    ensures |requested| == n + 1 && requested[0] == base
    ensures forall k :: 1 <= k <= n ==> requested[k] == base + "?" + RetryQuery(token, k)
  {
    AttemptUrlsSpell(base, base, token, 0, n);
    forall k | 1 <= k <= n
      ensures requested[k] == base + "?" + RetryQuery(token, k)
    {
      assert requested[k] == AppendQuery(base, RetryQuery(token, 0 + k));
    }
  }

  /** The delays of a load that starts with the full budget: retry `k` (from 0) waits the delay of attempt `k + 1`. */
  lemma FirstLoadDelays(delay: int -> int, n: nat, waits: seq<int>)
    requires waits == RetryDelays(delay, 1, n)
    ensures |waits| == n && forall k :: 0 <= k < n ==> waits[k] == delay(k + 1)
  {
    RetryDelaysSpell(delay, 1, n);
    forall k | 0 <= k < n
      ensures waits[k] == delay(k + 1)
    {
      assert waits[k] == delay(1 + k);
    }
  }

  /**
   * A chunk with no stored entries whose first successful attempt is attempt
   * `k` (0 for the first), within the budget, resolves after exactly `k`
   * retries and is left with `maxRetries - k` retries left; a first attempt
   * that succeeds leaves the maps and the page as they were.
   */
  lemma FreshLoadSucceedsAt(rt: Runtime, id: ChunkId, outcomes: seq<bool>, links: seq<Link>, before: Snapshot, after: Snapshot,
                            result: LoadResult, n: nat, requested: seq<string>, waits: seq<int>, k: nat)
    requires id !in before.counts
    requires k <= rt.maxRetries
    requires Succeeds(outcomes, k) && forall j :: 0 <= j < k ==> !Succeeds(outcomes, j)
    requires LoadSpec(rt, id, outcomes, links, before, after, result, n, requested, waits)
    ensures result == Resolved && n == k
    ensures k == 0 ==> after == before
    ensures k >= 1 ==> after.counts == before.counts[id := rt.maxRetries - k]
    ensures k >= 1 ==> after.queries == before.queries[id := RetryQuery(rt.token, k)]
  {
  }

  /** The runtime installed in one page: the two maps and the settings it was generated with. */
  class ChunkLoader {
    const maxRetries: nat
    const cacheBust: string
    const retryDelay: int -> int
    const cdnHost: string                    // envVariables.CDN_HOST, fixed at build time
    const resolve: ChunkId -> string         // the original getChunkScriptFilename
    const env: PageEnv
    var countMap: map<ChunkId, int>
    var queryMap: map<ChunkId, string>

    ghost predicate Valid()
      reads this
    {
      maxRetries >= 1 && Consistent(countMap, queryMap, maxRetries, cacheBust)
    }

    constructor(settings: Settings, cdnHost: string, resolve: ChunkId -> string, env: PageEnv)
      ensures Valid()
      ensures maxRetries == settings.maxRetries && cacheBust == settings.cacheBust
      ensures retryDelay == settings.retryDelay && this.cdnHost == cdnHost
      ensures this.resolve == resolve && this.env == env
      ensures countMap == map[] && queryMap == map[]
    {
      maxRetries := settings.maxRetries;
      cacheBust := settings.cacheBust;
      retryDelay := settings.retryDelay;
      this.cdnHost := cdnHost;
      this.resolve := resolve;
      this.env := env;
      countMap := map[];
      queryMap := map[];
    }

    /** The constants of this runtime. */
    function Config(): Runtime
    {
      Runtime(maxRetries, cacheBust, retryDelay, cdnHost, env.origin, resolve)
    }

    /** The maps and the page state now. */
    function Now(): Snapshot
      reads this, env
    {
      Snapshot(countMap, queryMap, env.State())
    }

    /** The wrapped URL of a chunk in the current state. */
    function ScriptFilename(id: ChunkId): string
      reads this
    {
      WrappedUrl(resolve(id), queryMap, id)
    }

    /** The retries left for a chunk in the current state. */
    function RetriesLeft(id: ChunkId): int
      reads this
    {
      Remaining(countMap, id, maxRetries)
    }

    /**
     * One call of the wrapped `ensureChunk` for `id`, up to the timer it may
     * schedule: it requests the current URL and, when the load does not
     * succeed, either settles with the annotated error or rescans the
     * stylesheet links and returns the retry it schedules.
     */
    method Attempt(id: ChunkId, loads: bool, links: seq<Link>) returns (outcome: LoadState, url: string)
      modifies env
      ensures url == ScriptFilename(id)
      ensures loads ==> outcome == Succeeded
      ensures !loads && RetriesLeft(id) < 1 ==>
                outcome == Exhausted(LoadError(ExhaustedMessage(id, maxRetries, resolve(id)), resolve(id)))
      ensures !loads && RetriesLeft(id) >= 1 ==>
                var attempt := maxRetries - RetriesLeft(id) + 1;
                outcome == Waiting(RetriesLeft(id), attempt, retryDelay(attempt))
      ensures if outcome.Waiting?
              then env.State() == Scan(old(env.State()), links, env.origin, cdnHost)
              else env.State() == old(env.State())
    {
      url := ScriptFilename(id);
      if loads {
        outcome := Succeeded;
      } else {
        var action := OnFailure(countMap, id, maxRetries, resolve(id));
        match action
        case Rethrow(error) =>
          outcome := Exhausted(error);
        case Retry(left, attempt) =>
          env.ScanLinks(links, cdnHost);
          outcome := Waiting(left, attempt, retryDelay(attempt));
      }
    }

    /** The timer callback's writes: the retry's query and the decremented count of `id`. */
    method Record(id: ChunkId, left: nat, attempt: int)
      requires Valid()
      requires left == RetriesLeft(id) >= 1 && attempt == maxRetries - left + 1
      modifies this
      ensures Valid()
      ensures queryMap == old(queryMap)[id := RetryQuery(cacheBust, attempt)]
      ensures countMap == old(countMap)[id := left - 1]
    {
      RetriesKeepConsistent(countMap, queryMap, id, maxRetries, cacheBust, 1);
      queryMap := queryMap[id := RetryQuery(cacheBust, attempt)];
      countMap := countMap[id := left - 1];
    }

    /**
     * Where a load of `id` begun in state `s0` stands after `n` retries:
     * `requested` and `waits` are the URLs and delays so far, and `scanned`
     * is the page as it was before the latest rescan.
     */
    ghost predicate Stage(id: ChunkId, outcomes: seq<bool>, links: seq<Link>, s0: Snapshot, scanned: EnvState,
                          state: LoadState, n: nat, requested: seq<string>, waits: seq<int>)
      reads this, env
    {
      && Valid()
      && (forall k :: 0 <= k < n ==> !Succeeds(outcomes, k))
      && match state
         case Attempting =>
           Trace(Config(), id, links, s0, Now(), n, requested + [ScriptFilename(id)], waits)
         case Waiting(left, attempt, delay) =>
           && Trace(Config(), id, links, s0, Now().(page := scanned), n, requested, waits)
           && env.State() == Scan(scanned, links, env.origin, cdnHost)
           && left == RetriesLeft(id) >= 1
           && attempt == maxRetries - left + 1
           && delay == retryDelay(attempt)
           && !Succeeds(outcomes, n)
         case Succeeded =>
           Trace(Config(), id, links, s0, Now(), n, requested, waits) && Succeeds(outcomes, n)
         case Exhausted(error) =>
           && Trace(Config(), id, links, s0, Now(), n, requested, waits)
           && !Succeeds(outcomes, n)
           && RetriesLeft(id) < 1
           && error == LoadError(ExhaustedMessage(id, maxRetries, resolve(id)), resolve(id))
    }

    /** From Attempting: attempt `n` is made and settles the load or schedules a retry. */
    method AttemptStep(id: ChunkId, outcomes: seq<bool>, links: seq<Link>, ghost s0: Snapshot,
                       n: nat, requested: seq<string>, waits: seq<int>)
      returns (state: LoadState, requested': seq<string>, ghost scanned: EnvState)
      requires Stage(id, outcomes, links, s0, env.State(), Attempting, n, requested, waits)
      modifies env
      ensures !state.Attempting?
      ensures Stage(id, outcomes, links, s0, scanned, state, n, requested', waits)
    {
      scanned := env.State();
      ghost var s := Now();
      var url;
      state, url := Attempt(id, Succeeds(outcomes, n), links);
      requested' := requested + [url];
      if state.Waiting? {
        assert Now().(page := scanned) == s;
        assert Trace(Config(), id, links, s0, Now().(page := scanned), n, requested', waits);
      } else {
        assert Now() == s;
        assert Trace(Config(), id, links, s0, Now(), n, requested', waits);
      }
    }

    /** From Waiting: the timer fires, records the retry and the chunk is attempted again. */
    method TimerStep(id: ChunkId, outcomes: seq<bool>, links: seq<Link>, ghost s0: Snapshot, ghost scanned: EnvState,
                     left: nat, attempt: int, delay: int, n: nat, requested: seq<string>, waits: seq<int>)
      requires Stage(id, outcomes, links, s0, scanned, Waiting(left, attempt, delay), n, requested, waits)
      modifies this
      ensures RetriesLeft(id) == left - 1
      ensures Stage(id, outcomes, links, s0, scanned, Attempting, n + 1, requested, waits + [delay])
    {
      ghost var s := Now().(page := scanned);
      TraceRemaining(Config(), id, links, s0, s, n, requested, waits);
      Record(id, left, attempt);
      TraceStep(Config(), id, links, s0, s, Now(), n, requested, waits, attempt, ScriptFilename(id), delay);
    }

    /** One transition of the load of `id`: an attempt, or a timer that fires. */
    method Step(id: ChunkId, outcomes: seq<bool>, links: seq<Link>, ghost s0: Snapshot, ghost scanned: EnvState,
                state: LoadState, n: nat, requested: seq<string>, waits: seq<int>)
      returns (state': LoadState, n': nat, requested': seq<string>, waits': seq<int>, ghost scanned': EnvState)
      requires Stage(id, outcomes, links, s0, scanned, state, n, requested, waits)
      requires state.Attempting? || state.Waiting?
      modifies this, env
      ensures Stage(id, outcomes, links, s0, scanned', state', n', requested', waits')
      ensures state.Attempting? ==> RetriesLeft(id) == old(RetriesLeft(id)) && !state'.Attempting?
      ensures state.Waiting? ==> RetriesLeft(id) == old(RetriesLeft(id)) - 1 >= 0 && state'.Attempting?
    {
      if state.Attempting? {
        n', waits' := n, waits;
        state', requested', scanned' := AttemptStep(id, outcomes, links, s0, n, requested, waits);
      } else {
        TimerStep(id, outcomes, links, s0, scanned, state.retries, state.attempt, state.delay, n, requested, waits);
        state', n', requested', waits', scanned' := Attempting, n + 1, requested, waits + [state.delay], scanned;
      }
    }

    /**
     * Loads chunk `id` through the wrapped `ensureChunk`: `outcomes[k]` says
     * whether attempt `k` succeeds and `links` is the document's `<link>` list
     * at each failure. Each failed attempt that has retries left waits, then
     * its timer callback records the retry and the chunk is attempted again.
     * Returns how the load settled, the number of retries it made, the URL of
     * every attempt and the delay waited before each retry.
     */
    method Load(id: ChunkId, outcomes: seq<bool>, links: seq<Link>)
      returns (result: LoadResult, retries: nat, requested: seq<string>, waits: seq<int>)
      requires Valid()
      modifies this, env
      ensures Valid()
      ensures LoadSpec(Config(), id, outcomes, links, old(Now()), Now(), result, retries, requested, waits)
    {
      RemainingInRange(countMap, queryMap, id, maxRetries, cacheBust);
      ghost var s0 := Now();
      ghost var scanned := env.State();
      var state := Attempting;
      retries, requested, waits := 0, [], [];
      while !(state.Succeeded? || state.Exhausted?)
        invariant Stage(id, outcomes, links, s0, scanned, state, retries, requested, waits)
        invariant RetriesLeft(id) >= 0
        decreases RetriesLeft(id), if state.Attempting? then 1 else 0
      {
        state, retries, requested, waits, scanned := Step(id, outcomes, links, s0, scanned, state, retries, requested, waits);
      }
      TraceRemaining(Config(), id, links, s0, Now(), retries, requested, waits);
      result := if state.Succeeded? then Resolved else Rejected(state.error);
    }
  }
}
