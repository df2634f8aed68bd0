/**
 * The admin list of song requests (src/app/requested-songs/page.tsx):
 * loading the list, and deleting one request after a confirmation, with the
 * local list filtered only once the backend has deleted the row. The
 * confirmation dialog's answer and the backend's results are parameters.
 */
module RequestedSongs {
  import opened Common

  /** A row of `song_requests` as this page reads it. */
  datatype SongRequest = SongRequest(
    id: string,
    songTitle: string,
    artist: string,
    album: Option<string>,
    albumArt: Option<string>,
    songUrl: Option<string>,
    requesterName: string,
    createdAt: string)

  /** `list.filter(song => song.id !== id)`. */
  function WithoutId(list: seq<SongRequest>, id: string): (r: seq<SongRequest>)
    ensures |r| <= |list|
  {
    if list == [] then []
    else (if list[0].id == id then [] else [list[0]]) + WithoutId(list[1..], id)
  }

  /** Exactly the entries with that id go; every other entry stays, as often as it was there. */
  lemma {:induction false} WithoutIdCounts(list: seq<SongRequest>, id: string)
    ensures forall x :: multiset(WithoutId(list, id))[x] == if x.id == id then 0 else multiset(list)[x]
  {
    if list != [] {
      WithoutIdCounts(list[1..], id);
      assert list == [list[0]] + list[1..];
    }
  }

  /** Filtering keeps order: filtering a concatenation concatenates the filtered parts. */
  lemma {:induction false} WithoutIdDistributes(a: seq<SongRequest>, b: seq<SongRequest>, id: string)
    ensures WithoutId(a + b, id) == WithoutId(a, id) + WithoutId(b, id)
  {
    if a == [] {
      assert a + b == b;
    } else {
      var head := if a[0].id == id then [] else [a[0]];
      assert (a + b)[0] == a[0] && (a + b)[1..] == a[1..] + b;
      WithoutIdDistributes(a[1..], b, id);
      calc {
        WithoutId(a + b, id);
        head + WithoutId(a[1..] + b, id);
        head + (WithoutId(a[1..], id) + WithoutId(b, id));
        (head + WithoutId(a[1..], id)) + WithoutId(b, id);
        WithoutId(a, id) + WithoutId(b, id);
      }
    }
  }

  /** A list with no entry for `id` is left exactly as it is. */
  lemma {:induction false} WithoutIdAbsent(list: seq<SongRequest>, id: string)
    requires forall i :: 0 <= i < |list| ==> list[i].id != id
    ensures WithoutId(list, id) == list
  {
    if list != [] {
      WithoutIdAbsent(list[1..], id);
    }
  }

  /** Deleting the same id twice is deleting it once. */
  lemma WithoutIdIdempotent(list: seq<SongRequest>, id: string)
    ensures WithoutId(WithoutId(list, id), id) == WithoutId(list, id)
  {
    var r := WithoutId(list, id);
    WithoutIdCounts(list, id);
    forall i | 0 <= i < |r|
      ensures r[i].id != id
    {
      assert multiset(r)[r[i]] > 0;
    }
    WithoutIdAbsent(r, id);
  }

  const ErrorLoad: string := "Failed to load song requests. Please try again later."
  const UnknownError: string := "Unknown error"

  /** The message shown when a delete fails, around the error's own message or `Unknown error`. */
  function DeleteErrorMessage(message: Option<string>): (r: string)
    ensures message.Some? && message.value != "" ==>
      r == "Failed to delete song request: " + message.value + ". Please try again."
    ensures message.None? || message.value == "" ==>
      r == "Failed to delete song request: " + UnknownError + ". Please try again."
  {
    "Failed to delete song request: " + OrDefault(message, UnknownError) + ". Please try again."
  }

  class RequestedSongsPage {
    var songRequests: seq<SongRequest>
    var loading: bool
    var error: Option<string>
    var deletingId: Option<string>

    /** The page as mounted: an empty list, loading, no error, nothing being deleted. */
    constructor ()
      ensures songRequests == [] && loading && error == None && deletingId == None
    {
      songRequests := [];
      loading := true;
      error := None;
      deletingId := None;
    }

    /**
     * `fetchSongRequests`: rows replace the list (none for `null`); a failure
     * keeps it and reports the load error. Loading ends either way.
     */
    method FetchSongRequests(result: Query<seq<SongRequest>>)
      modifies this
      ensures !loading && deletingId == old(deletingId)
      ensures result.Rows? ==> songRequests == result.data.GetOr([]) && error == old(error)
      ensures result.Failed? ==> songRequests == old(songRequests) && error == Some(ErrorLoad)
    {
      loading := true;
      match result {
        case Rows(data) => songRequests := data.GetOr([]);
        case Failed => error := Some(ErrorLoad);
      }
      loading := false;
    }

    /**
     * `handleDelete(id)` up to its `await`: a declined confirmation returns
     * with nothing changed and no delete call; otherwise `id` is marked as
     * being deleted and the call is made.
     */
    method BeginDelete(id: string, confirmed: bool) returns (called: bool)
      modifies this
      ensures called == confirmed
      ensures called ==> deletingId == Some(id)
      ensures !called ==> deletingId == old(deletingId)
      ensures songRequests == old(songRequests) && error == old(error) && loading == old(loading)
    {
      if !confirmed {
        return false;
      }
      deletingId := Some(id);
      called := true;
    }

    /**
     * `handleDelete(id)` after its `await`: on success the entries with that
     * id leave the list and the error is cleared; on failure the list stays
     * and the error names the reason. Nothing is being deleted afterwards.
     */
    method FinishDelete(id: string, result: Mutation)
      modifies this
      ensures deletingId == None && loading == old(loading)
      ensures result.Done? ==> songRequests == WithoutId(old(songRequests), id) && error == None
      ensures result.Rejected? ==>
        songRequests == old(songRequests) && error == Some(DeleteErrorMessage(result.message))
    {
      match result {
        case Done =>
          songRequests := WithoutId(songRequests, id);
          error := None;
        case Rejected(message) =>
          error := Some(DeleteErrorMessage(message));
      }
      deletingId := None;
    }

    /** The whole of `handleDelete(id)`, with the confirmation and the backend's answer given. */
    method HandleDelete(id: string, confirmed: bool, result: Mutation) returns (called: bool)
      modifies this
      ensures called == confirmed
      ensures !called ==> songRequests == old(songRequests) && error == old(error) && deletingId == old(deletingId)
      ensures called ==> deletingId == None
      ensures called && result.Done? ==> songRequests == WithoutId(old(songRequests), id) && error == None
      ensures called && result.Rejected? ==>
        songRequests == old(songRequests) && error == Some(DeleteErrorMessage(result.message))
      ensures loading == old(loading)
    {
      called := BeginDelete(id, confirmed);
      if called {
        FinishDelete(id, result);
      }
    }
  }
}
