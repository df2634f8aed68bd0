/**
 * The feed's load control (src/app/components/PostsLoadingControl.tsx): an
 * effect that, each time it runs, decides whether to call `fetchPosts` from
 * whether a fetch is in flight, the current pathname, the number of cached
 * posts, the time of the last successful fetch and the clock. Times are in
 * milliseconds; the clock is a parameter.
 */
module PostsLoadingControl {
  import opened Common
  import PostsContext

  /** `REFRESH_INTERVAL`: ten minutes. */
  const RefreshInterval: int := 10 * 60 * 1000
  /** `MINIMUM_REFRESH_INTERVAL`: one minute. */
  const MinimumRefreshInterval: int := 60 * 1000
  /** `Number.MAX_SAFE_INTEGER`, the elapsed time assumed when there was no fetch. */
  const MaxSafeInteger: int := 0x1F_FFFF_FFFF_FFFF

  /** A `lastFetched` that JavaScript treats as true: present and not 0. */
  predicate Truthy(lastFetched: Option<int>) {
    lastFetched.Some? && lastFetched.value != 0
  }

  /** `timeSinceLastFetch`. */
  function Elapsed(lastFetched: Option<int>, now: int): int {
    if Truthy(lastFetched) then now - lastFetched.value else MaxSafeInteger
  }

  /**
   * Whether the effect calls `fetchPosts`: not while loading, only on the
   * wall-of-love page, and then when the cache is empty, or when a refresh
   * is due (never fetched, or more than ten minutes ago) and allowed (more
   * than one minute ago).
   */
  function ShouldFetch(loading: bool, pathname: string, postCount: nat, lastFetched: Option<int>, now: int): (r: bool)
    ensures r ==> !loading && pathname == WallOfLovePath
    ensures !loading && pathname == WallOfLovePath && postCount == 0 ==> r
    ensures !loading && pathname == WallOfLovePath && !Truthy(lastFetched) ==> r
    ensures postCount > 0 && Truthy(lastFetched) && now - lastFetched.value <= MinimumRefreshInterval ==> !r
    ensures postCount > 0 && Truthy(lastFetched) ==>
      (r <==> !loading && pathname == WallOfLovePath && now - lastFetched.value > RefreshInterval)
  {
    if loading then false
    else if pathname != WallOfLovePath then false
    else
      var elapsed := Elapsed(lastFetched, now);
      var needsRefresh := !Truthy(lastFetched) || elapsed > RefreshInterval;
      var allowedToRefresh := elapsed > MinimumRefreshInterval;
      postCount == 0 || (needsRefresh && allowedToRefresh)
  }

  /**
   * A successful fetch at a real clock reading `fetchedAt` that brought back
   * at least one post holds the control off for the following minute, and
   * until ten minutes have passed.
   */
  lemma SuccessfulFetchHoldsOff(postCount: nat, fetchedAt: int, now: int)
    requires postCount > 0 && fetchedAt > 0
    requires now - fetchedAt <= RefreshInterval
    ensures !ShouldFetch(false, WallOfLovePath, postCount, Some(fetchedAt), now)
  {
  }

  /**
   * As written, an empty cache overrides both intervals: right after a
   * successful fetch that returned no posts the control asks for another
   * fetch at once. The effect runs again as soon as `loading` falls back to
   * false, so an empty feed is refetched back to back.
   */
  lemma EmptyFeedRefetchesAtOnce(fetchedAt: int)
    requires fetchedAt > 0
    ensures ShouldFetch(false, WallOfLovePath, 0, Some(fetchedAt), fetchedAt)
  {
  }

  /**
   * The rule with the one-minute floor applied to the empty cache too: a
   * fetch needs more than a minute since the last one, and then an empty
   * cache or a stale one.
   */
  function ShouldFetchThrottled(loading: bool, pathname: string, postCount: nat, lastFetched: Option<int>, now: int): (r: bool)
    ensures r ==> !loading && pathname == WallOfLovePath
    ensures Truthy(lastFetched) && now - lastFetched.value <= MinimumRefreshInterval ==> !r
    ensures !loading && pathname == WallOfLovePath && !Truthy(lastFetched) ==> r
    ensures postCount > 0 || !Truthy(lastFetched) || Elapsed(lastFetched, now) > MinimumRefreshInterval ==>
      r == ShouldFetch(loading, pathname, postCount, lastFetched, now)
  {
    if loading || pathname != WallOfLovePath then false
    else
      var elapsed := Elapsed(lastFetched, now);
      var needsRefresh := !Truthy(lastFetched) || elapsed > RefreshInterval;
      elapsed > MinimumRefreshInterval && (postCount == 0 || needsRefresh)
  }

  /**
   * One run of the effect against the provider, with the corrected rule: it
   * calls `fetchPosts` when the rule says so, and otherwise leaves the
   * provider as it is. A query is made exactly when the rule fires, so never
   * within a minute of the last successful one. The clock is read twice:
   * `now` when the effect decides, `finishedAt` when the query has returned
   * and its rows are stamped.
   */
  method RunEffect(provider: PostsContext.PostsProvider, pathname: string, result: Query<seq<PostsContext.Post>>,
                   now: int, finishedAt: int)
    returns (queried: bool)
    modifies provider
    ensures queried <==> ShouldFetchThrottled(old(provider.loading), pathname, |old(provider.posts)|, old(provider.lastFetched), now)
    ensures !queried ==>
      provider.posts == old(provider.posts) && provider.loading == old(provider.loading) && provider.lastFetched == old(provider.lastFetched)
    ensures queried && result.Rows? ==>
      provider.posts == PostsContext.ReturnedPosts(result.data) && provider.lastFetched == Some(finishedAt) && !provider.loading
    ensures queried && result.Failed? ==>
      provider.posts == old(provider.posts) && provider.lastFetched == old(provider.lastFetched) && !provider.loading
    ensures Truthy(old(provider.lastFetched)) && now - old(provider.lastFetched).value <= MinimumRefreshInterval ==> !queried
  {
    queried := false;
    if ShouldFetchThrottled(provider.loading, pathname, |provider.posts|, provider.lastFetched, now) {
      queried := provider.FetchPosts(result, finishedAt);
    }
  }
}
