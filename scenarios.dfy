/**
 * Concrete runs of the retry runtime: the default settings, the retry
 * budgets of one and two, and the query a custom cache-bust token yields.
 */
module Scenarios {
  import opened Optional
  import opened Text
  import opened RetryOptions
  import opened ChunkRetry

  /** With no options at all: one retry, the default token and no delay. */
  lemma DefaultSettings(source: string, runtime: string)
    ensures var s := Normalise(PluginOptions(NaN, None, NoDelay, None));
      && s.maxRetries == 1
      && s.cacheBust == "cache-bust=true"
      && forall attempt :: s.retryDelay(attempt) == 0
    ensures BootstrapSource(source, None, None, runtime) == source + runtime
  {
  }

  /** A configured budget of 2.5 or of -3 falls back to one retry; 4 is kept. */
  lemma BudgetExamples()
    ensures MaxRetries(Finite(2.5)) == 1
    ensures MaxRetries(Finite(-3.0)) == 1
    ensures MaxRetries(PositiveInfinity) == 1
    ensures MaxRetries(Finite(4.0)) == 4
  {
  }

  /**
   * With a budget of two, a fresh chunk that fails twice and then loads
   * resolves after two retries, waiting the delays of attempts 1 and 2, and
   * is left with a count of 0 and the query of attempt 2.
   */
  lemma TwoFailuresThenSuccess(rt: Runtime, links: seq<LinkScan.Link>, before: Snapshot, after: Snapshot,
                               result: LoadResult, n: nat, requested: seq<string>, waits: seq<int>)
    requires rt.maxRetries == 2 && "a" !in before.counts
    requires LoadSpec(rt, "a", [false, false, true], links, before, after, result, n, requested, waits)
    ensures result == Resolved && n == 2
    ensures waits == [rt.delay(1), rt.delay(2)]
    ensures after.counts["a"] == 0 && after.queries["a"] == RetryQuery(rt.token, 2)
  {
    FreshLoadSucceedsAt(rt, "a", [false, false, true], links, before, after, result, n, requested, waits, 2);
  }

  /**
   * With the default budget of one, a fresh chunk that keeps failing is
   * still retried once, after the delay of attempt 1, and then rejects with
   * the message naming one retry and the resolver's URL.
   */
  lemma OneRetryThenReject(rt: Runtime, links: seq<LinkScan.Link>, before: Snapshot, after: Snapshot,
                           result: LoadResult, n: nat, requested: seq<string>, waits: seq<int>)
    requires rt.maxRetries == 1 && "b" !in before.counts && "b" !in before.queries
    requires LoadSpec(rt, "b", [], links, before, after, result, n, requested, waits)
    ensures n == 1 && waits == [rt.delay(1)]
    ensures result.Rejected?
    ensures result.error.message == ExhaustedMessage("b", 1, rt.resolve("b"))
    ensures result.error.request == rt.resolve("b")
  {
    FreshLoadThatNeverSucceeds(rt, "b", [], links, before, after, result, n, requested, waits);
  }

  /** The message for chunk `b` and a budget of one. */
  lemma MessageForOneRetry(src: string)
    ensures ExhaustedMessage("b", 1, src) == "Loading chunk b failed after 1 retries.\n(" + src + ")"
  {
    var parts := "Loading chunk " + "b" + " failed after " + "1" + " retries.\n(";
    assert NatToString(1) == "1";
    assert ExhaustedMessage("b", 1, src) == parts + src + ")";
    assert parts == "Loading chunk b failed after 1 retries.\n(";
  }

  /**
   * A token of `v=42` gives the query `v=42&retry-attempt=1` for the first
   * retry; the generated code as written stores `v=42` alone.
   */
  lemma CustomTokenQuery()
    ensures RetryQuery("v=42", 1) == "v=42&retry-attempt=1"
    ensures GeneratedRetryQuery(Some("v=42"), 1) == "v=42"
    ensures GeneratedRetryQuery(None, 1) == "cache-bust=true&retry-attempt=1"
  {
    assert IntToString(1) == "1";
    assert RetryQuery("v=42", 1) == "v=42" + "&retry-attempt=" + "1";
    assert RetryQuery(DefaultCacheBust, 1) == "cache-bust=true" + "&retry-attempt=" + "1";
  }
}
