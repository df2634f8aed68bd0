/**
 * The feed cache (src/app/context/PostsContext.tsx): the provider's three
 * pieces of state and `fetchPosts`, which guards against a second fetch,
 * raises `loading` around the awaited query and, on success only, replaces
 * the posts and stamps the time. The query is the backend's; its result and
 * the clock reading `Date.now()` are parameters.
 */
module PostsContext {
  import opened Common

  /** A row of the `posts` table. */
  datatype Post = Post(
    id: int,
    author: string,
    message: string,
    imageUrl: Option<string>,
    additionalMedia: Option<seq<string>>,
    createdAt: string)

  /** The posts a successful query leaves in the cache: its rows, or none for `null`. */
  function ReturnedPosts(data: Option<seq<Post>>): (r: seq<Post>)
    ensures data.Some? ==> r == data.value
    ensures data.None? ==> r == []
  {
    data.GetOr([])
  }

  class PostsProvider {
    var posts: seq<Post>
    var loading: bool
    var lastFetched: Option<int>

    /** The provider as mounted: no posts, not loading, never fetched. */
    constructor ()
      ensures posts == [] && !loading && lastFetched == None
    {
      posts := [];
      loading := false;
      lastFetched := None;
    }

    /** `setPosts`, handed to consumers: replaces the posts and nothing else. */
    method SetPosts(newPosts: seq<Post>)
      modifies this
      ensures posts == newPosts
      ensures loading == old(loading) && lastFetched == old(lastFetched)
    {
      posts := newPosts;
    }

    /**
     * `fetchPosts` up to its `await`: when a fetch is already in flight it
     * returns at once and no query is made; otherwise it raises `loading`
     * and the query is sent. Either way `loading` holds while a query is out.
     */
    method BeginFetch() returns (queried: bool)
      modifies this
      ensures queried <==> !old(loading)
      ensures loading
      ensures posts == old(posts) && lastFetched == old(lastFetched)
    {
      if loading {
        return false;
      }
      loading := true;
      queried := true;
    }

    /**
     * `fetchPosts` after its `await`: rows replace the cache wholesale and
     * stamp `now`; a returned or thrown error leaves posts and stamp alone.
     * `loading` is lowered in every case.
     */
    method FinishFetch(result: Query<seq<Post>>, now: int)
      modifies this
      ensures !loading
      ensures result.Rows? ==> posts == ReturnedPosts(result.data) && lastFetched == Some(now)
      ensures result.Failed? ==> posts == old(posts) && lastFetched == old(lastFetched)
    {
      match result {
        case Rows(data) =>
          posts := ReturnedPosts(data);
          lastFetched := Some(now);
        case Failed =>
      }
      loading := false;
    }

    /** The whole of `fetchPosts`, with the query's result and the clock reading given. */
    method FetchPosts(result: Query<seq<Post>>, now: int) returns (queried: bool)
      modifies this
      ensures queried <==> !old(loading)
      ensures !queried ==> posts == old(posts) && loading == old(loading) && lastFetched == old(lastFetched)
      ensures queried ==> !loading
      ensures queried && result.Rows? ==> posts == ReturnedPosts(result.data) && lastFetched == Some(now)
      ensures queried && result.Failed? ==> posts == old(posts) && lastFetched == old(lastFetched)
    {
      queried := BeginFetch();
      if queried {
        FinishFetch(result, now);
      }
    }
  }
}
